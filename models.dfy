/** The request and response bodies of the chat API (its pydantic models). */
module Models {
  import opened Outcomes

  /** One turn of a conversation, as the client sends it in `history`. */
  datatype ChatMessage = ChatMessage(role: string, content: string)

  /**
    Body of POST /chat/general. `history` defaults to the empty list when the field is absent;
    `None` stands for an explicit JSON `null`, which the `Optional` annotation admits.
   */
  datatype GeneralChatRequest = GeneralChatRequest(message: string, history: Option<seq<ChatMessage>>)

  /** Body of POST /chat/pdf. */
  datatype PdfChatRequest = PdfChatRequest(question: string)

  /** Response of both chat endpoints; `sources` is `None` (JSON `null`) unless a document was queried. */
  datatype ChatResponse = ChatResponse(response: string, sources: Option<seq<string>>)

  /** The `{"message": ...}` body of the upload and clear endpoints. */
  datatype Message = Message(message: string)
}
