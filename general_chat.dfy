/**
  POST /chat/general: extend the client's history with the new user turn, hand the whole
  conversation to the language model, and turn every failure into a 500.
 */
module GeneralChat {
  import opened Text
  import opened Outcomes
  import opened Models

  /** The dictionary `{"role": ..., "content": ...}` sent to the Groq chat-completion API. */
  type WireMessage = map<string, string>

  /** The chat-completion call: the answer text for a list of messages, or the exception it raised. */
  type Completion = seq<WireMessage> -> Step<string>

  const GroqPrefix := "Error with Groq API: "
  const GeneralPrefix := "Error processing general chat: "

  /** What `str(e)` gives when `request.history` is `None` and `.copy()` is called on it. */
  const NoneCopyError := "'NoneType' object has no attribute 'copy'"

  function ToWire(m: ChatMessage): WireMessage {
    map["role" := m.role, "content" := m.content]
  }

  /** Reads a wire dictionary back into a chat message; `None` when a key is missing. */
  function FromWire(w: WireMessage): Option<ChatMessage> {
    if "role" in w && "content" in w then Some(ChatMessage(w["role"], w["content"])) else None
  }

  /** The wire form of a whole conversation, one dictionary per turn, in order. */
  function Wire(history: seq<ChatMessage>): (messages: seq<WireMessage>)
    ensures |messages| == |history|
    ensures forall i :: 0 <= i < |history| ==> FromWire(messages[i]) == Some(history[i])
  {
    seq(|history|, i requires 0 <= i < |history| => ToWire(history[i]))
  }

  /** `history = request.history.copy(); history.append(ChatMessage(role="user", content=request.message))`. */
  function WithUserTurn(history: seq<ChatMessage>, message: string): (extended: seq<ChatMessage>)
    ensures |extended| == |history| + 1
    ensures extended[..|history|] == history
    ensures extended[|history|] == ChatMessage("user", message)
  {
    history + [ChatMessage("user", message)]
  }

  /** The loop of `llm_answer` that appends one dictionary per turn to `messages`. */
  method ToWireMessages(history: seq<ChatMessage>) returns (messages: seq<WireMessage>)
    ensures messages == Wire(history)
  {
    messages := [];
    for i := 0 to |history|
      invariant messages == Wire(history[..i])
    {
      assert history[..i + 1] == history[..i] + [history[i]];
      messages := messages + [ToWire(history[i])];
    }
    assert history[..|history|] == history;
  }

  /**
    `llm_answer`: sends the conversation, in order, to the model and returns its answer;
    any failure of the call is re-raised as an HTTPException 500 naming the Groq API.
   */
  method LlmAnswer(history: seq<ChatMessage>, complete: Completion) returns (answer: Step<string>)
    ensures complete(Wire(history)).Done? ==> answer == complete(Wire(history))
    ensures complete(Wire(history)).Raised? ==>
      answer == Raised(HttpException(500, GroqPrefix + Str(complete(Wire(history)).exception)))
  {
    var messages := ToWireMessages(history);
    var completion := complete(messages);
    match completion
    case Done(text) =>
      answer := Done(text);
    case Raised(e) =>
      answer := Raised(HttpException(500, GroqPrefix + Str(e)));
  }

  /**
    `general_chat`: answers with the model's reply to the history plus one new user turn,
    and no sources. Every failure, the HTTPException of `llm_answer` included, reaches the
    client as a 500.
   */
  method GeneralChat(request: GeneralChatRequest, complete: Completion) returns (reply: Reply<ChatResponse>)
    ensures reply.Err? ==> reply.error.status == 500 && StartsWith(reply.error.detail, GeneralPrefix)
    ensures request.history.None? ==> reply == Err(HttpError(500, GeneralPrefix + NoneCopyError))
    ensures request.history.Some? ==>
      var sent := Wire(WithUserTurn(request.history.value, request.message));
      && (reply.Ok? <==> complete(sent).Done?)
      && (reply.Ok? ==> reply.body == ChatResponse(complete(sent).value, None))
      && (complete(sent).Raised? ==>
            reply == Err(HttpError(500, GeneralPrefix + "500: " + GroqPrefix + Str(complete(sent).exception))))
  {
    if request.history.None? {
      reply := Err(WrapAll(GeneralPrefix, Error(NoneCopyError)));
      return;
    }
    var history := WithUserTurn(request.history.value, request.message);
    var answer := LlmAnswer(history, complete);
    match answer
    case Done(text) =>
      reply := Ok(ChatResponse(text, None));
    case Raised(e) =>
      GroqFailureDetail(complete(Wire(history)).exception);
      reply := Err(WrapAll(GeneralPrefix, e));
  }

  /** A failing model call reaches the client as a 500 that still names the Groq API error. */
  lemma GroqFailureDetail(e: Exception)
    ensures WrapAll(GeneralPrefix, HttpException(500, GroqPrefix + Str(e))).detail
         == GeneralPrefix + "500: " + GroqPrefix + Str(e)
  {
    var groq := HttpException(500, GroqPrefix + Str(e));
    StatusCodeDigits();
    assert "500" + ": " == "500: ";
    assert Str(groq) == "500: " + (GroqPrefix + Str(e));
    assert WrapAll(GeneralPrefix, groq) == HttpError(500, GeneralPrefix + Str(groq));
    assert GeneralPrefix + Str(groq) == GeneralPrefix + "500: " + GroqPrefix + Str(e);
  }
}
