/**
  The document session of the chat API: the two module globals `vector_db_instance` and
  `pdf_loaded`, the endpoints that set, clear, report and use them, and what any sequence
  of requests leaves behind. The PDF loader, the splitter, the embedding index and the
  retrieval chain are library calls; each appears only as the outcome it produced.
 */
module PdfSession {
  import opened Text
  import opened Outcomes
  import opened Models
  import opened Sources

  /** An opaque handle on a built vector index (the FAISS store). */
  datatype Index = Index(id: nat)

  /** The values of the two globals at one moment. */
  datatype Globals = Globals(vectorDb: Option<Index>, pdfLoaded: bool) {
    /** A document counts as loaded exactly when an index is held. */
    predicate Consistent() {
      pdfLoaded <==> vectorDb.Some?
    }
  }

  /** `vector_db_instance = None`, `pdf_loaded = False` at import time. */
  const Initial := Globals(None, false)

  /**
    How each library step of an upload ended: copying the upload to a temporary file,
    loading the PDF, splitting it into chunks, building the index, deleting the temporary file.
   */
  datatype UploadSteps = UploadSteps(save: Step<()>, load: Step<()>, split: Step<()>, index: Step<Index>, unlink: Step<()>)

  /** What the retrieval chain returns: `results['result']` and `results['source_documents']`. */
  datatype RagResult = RagResult(result: string, sourceDocuments: seq<Document>)

  /** `rag_query(vdb, question)`: a result, or the exception the chain raised. */
  type RagQuery = (Index, string) -> Step<RagResult>

  /** Body of GET /status. */
  datatype StatusReport = StatusReport(generalChat: string, pdfChat: string, pdfLoaded: bool)

  const UploadPrefix := "Error processing PDF: "
  const NotPdfDetail := "Only PDF files are allowed"
  const PdfChatPrefix := "Error processing PDF chat: "
  const NoPdfDetail := "No PDF loaded. Please upload a PDF first using /upload-pdf endpoint"
  const ClearedMessage := Message("PDF cleared successfully")

  function UploadedMessage(filename: string): Message {
    Message("PDF '" + filename + "' uploaded and processed successfully")
  }

  /** The upload passes the extension check and every step up to building the index succeeds. */
  predicate Indexed(filename: string, steps: UploadSteps) {
    && EndsWith(filename, ".pdf")
    && steps.save.Done? && steps.load.Done? && steps.split.Done? && steps.index.Done?
  }

  /** GET /status as a function of the globals. */
  function Status(g: Globals): (r: StatusReport)
    ensures r.generalChat == "Available"
    ensures r.pdfLoaded == g.pdfLoaded
    ensures r.pdfChat == "Available" <==> g.pdfLoaded
    ensures !g.pdfLoaded ==> r.pdfChat == "No PDF loaded"
  {
    StatusReport("Available", if g.pdfLoaded then "Available" else "No PDF loaded", g.pdfLoaded)
  }

  /** The guard of `pdf_chat`: it refuses unless the flag is set and an index is held. */
  predicate Refuses(g: Globals)
    ensures g.Consistent() ==> (Refuses(g) <==> !g.pdfLoaded)
    ensures !g.pdfLoaded ==> Refuses(g)
  {
    !g.pdfLoaded || g.vectorDb.None?
  }

  /**
    The `try` block of `upload_pdf`: the globals when it is left and how it is left.
    The index is assigned and the flag set before the temporary file is deleted.
   */
  function UploadBody(g: Globals, filename: string, steps: UploadSteps): (r: (Globals, Step<Message>))
    ensures !EndsWith(filename, ".pdf") ==> r == (g, Raised(HttpException(400, NotPdfDetail)))
    ensures Indexed(filename, steps) ==> r.0 == Globals(Some(steps.index.value), true)
    ensures !Indexed(filename, steps) ==> r.0 == g && r.1.Raised?
    ensures r.1.Done? <==> Indexed(filename, steps) && steps.unlink.Done?
    ensures r.1.Done? ==> r.1.value == UploadedMessage(filename)
  {
    if !EndsWith(filename, ".pdf") then (g, Raised(HttpException(400, NotPdfDetail)))
    else if steps.save.Raised? then (g, Raised(steps.save.exception))
    else if steps.load.Raised? then (g, Raised(steps.load.exception))
    else if steps.split.Raised? then (g, Raised(steps.split.exception))
    else if steps.index.Raised? then (g, Raised(steps.index.exception))
    else
      var loaded := Globals(Some(steps.index.value), true);
      if steps.unlink.Raised? then (loaded, Raised(steps.unlink.exception))
      else (loaded, Done(UploadedMessage(filename)))
  }

  /**
    POST /upload-pdf: the globals afterwards and the reply. Any exception in the `try`
    block, the 400 for a wrong extension included, reaches the client as a 500.
   */
  function Upload(g: Globals, filename: string, steps: UploadSteps): (r: (Globals, Reply<Message>))
    ensures g.Consistent() ==> r.0.Consistent()
    ensures Indexed(filename, steps) ==> r.0 == Globals(Some(steps.index.value), true)
    ensures !Indexed(filename, steps) ==> r.0 == g
    ensures r.1.Ok? <==> Indexed(filename, steps) && steps.unlink.Done?
    ensures r.1.Ok? ==> r.1.body == UploadedMessage(filename)
    ensures r.1.Err? ==> r.1.error.status == 500 && StartsWith(r.1.error.detail, UploadPrefix)
  {
    var (after, outcome) := UploadBody(g, filename, steps);
    (after, match outcome
            case Done(m) => Ok(m)
            case Raised(e) => Err(WrapAll(UploadPrefix, e)))
  }

  /** A file whose name does not end in ".pdf" changes nothing and is answered 500, not 400. */
  lemma NonPdfUploadIsRejectedAs500(g: Globals, filename: string, steps: UploadSteps)
    requires !EndsWith(filename, ".pdf")
    ensures Upload(g, filename, steps) == (g, Err(HttpError(500, UploadPrefix + "400: " + NotPdfDetail)))
  {
    var e := HttpException(400, NotPdfDetail);
    assert UploadBody(g, filename, steps) == (g, Raised(e));
    StatusCodeDigits();
    assert "400" + ": " == "400: ";
    assert Str(e) == "400: " + NotPdfDetail;
    assert WrapAll(UploadPrefix, e) == HttpError(500, UploadPrefix + Str(e));
    assert UploadPrefix + Str(e) == UploadPrefix + "400: " + NotPdfDetail;
  }

  /** The extension check is case-sensitive: whatever the stem, ".pdf" passes and ".PDF" does not. */
  lemma ExtensionCheckIsCaseSensitive(stem: string)
    ensures EndsWith(stem + ".pdf", ".pdf")
    ensures !EndsWith(stem + ".PDF", ".pdf")
  {
    EndsWithAppend(stem, ".pdf");
    var upper := stem + ".PDF";
    assert upper[|upper| - 4 + 1] == 'P' != ".pdf"[1];
  }

  /** A failed upload leaves the globals alone, a previously loaded document included. */
  lemma FailedUploadKeepsPreviousDocument(g: Globals, filename: string, steps: UploadSteps)
    requires !Indexed(filename, steps)
    ensures Upload(g, filename, steps).0 == g
    ensures Upload(g, filename, steps).1.Err?
  {
  }

  /**
    A failure to delete the temporary file comes after the flag is set: the new document
    is loaded although the client is told the upload failed.
   */
  lemma UnlinkFailureStillLoads(g: Globals, filename: string, steps: UploadSteps)
    requires Indexed(filename, steps) && steps.unlink.Raised?
    ensures Upload(g, filename, steps).0.pdfLoaded
    ensures Upload(g, filename, steps).1.Err?
  {
  }

  /** DELETE /pdf: both globals reset, whatever they were. */
  function Clear(g: Globals): (r: (Globals, Message))
    ensures r.0 == Initial && r.0.Consistent() && !r.0.pdfLoaded
    ensures r.1 == ClearedMessage
  {
    (Initial, ClearedMessage)
  }

  lemma ClearIsIdempotent(g: Globals)
    ensures Clear(Clear(g).0) == Clear(g)
  {
  }

  /** With the globals consistent, /status says the document chat is available exactly when `pdf_chat` would answer. */
  lemma StatusAgreesWithPdfChat(g: Globals)
    requires g.Consistent()
    ensures Status(g).pdfChat == "Available" <==> !Refuses(g)
  {
  }

  /** One request as far as the globals are concerned. */
  datatype Request =
    | UploadRequest(filename: string, steps: UploadSteps)
    | ClearRequest
    | ReadOnlyRequest  // GET /status, POST /chat/pdf, POST /chat/general, GET /, GET /health

  function Apply(g: Globals, req: Request): Globals {
    match req
    case UploadRequest(filename, steps) => Upload(g, filename, steps).0
    case ClearRequest => Clear(g).0
    case ReadOnlyRequest => g
  }

  /** The globals after serving `reqs` one after the other, starting from `g`. */
  function Run(g: Globals, reqs: seq<Request>): Globals
    decreases |reqs|
  {
    if reqs == [] then g else Apply(Run(g, reqs[..|reqs| - 1]), reqs[|reqs| - 1])
  }

  /** A request that overwrites both globals: a clear, or an upload that got as far as the index. */
  predicate Resets(req: Request) {
    req.ClearRequest? || (req.UploadRequest? && Indexed(req.filename, req.steps))
  }

  /** The globals that a resetting request leaves behind, whatever came before. */
  function ResetTo(req: Request): Globals
    requires Resets(req)
  {
    if req.ClearRequest? then Initial else Globals(Some(req.steps.index.value), true)
  }

  /** The position of the last resetting request, if any. */
  function LastReset(reqs: seq<Request>): (k: Option<nat>)
    ensures k.Some? ==> k.value < |reqs| && Resets(reqs[k.value])
    ensures k.Some? ==> forall j :: k.value < j < |reqs| ==> !Resets(reqs[j])
    ensures k.None? ==> forall j :: 0 <= j < |reqs| ==> !Resets(reqs[j])
    decreases |reqs|
  {
    if reqs == [] then None
    else if Resets(reqs[|reqs| - 1]) then Some(|reqs| - 1)
    else LastReset(reqs[..|reqs| - 1])
  }

  /** Last write wins: the globals are those set by the last resetting request, or the starting ones. */
  lemma {:induction false} RunIsDecidedByLastReset(g: Globals, reqs: seq<Request>)
    ensures Run(g, reqs) == match LastReset(reqs) case None => g case Some(k) => ResetTo(reqs[k])
    decreases |reqs|
  {
    if reqs != [] {
      var p := reqs[..|reqs| - 1];
      RunIsDecidedByLastReset(g, p);
      if !Resets(reqs[|reqs| - 1]) {
        assert LastReset(reqs) == LastReset(p);
        match LastReset(p)
        case None =>
        case Some(k) => assert reqs[k] == p[k];
      }
    }
  }

  /** The globals stay consistent through any sequence of requests. */
  lemma RunKeepsConsistent(g: Globals, reqs: seq<Request>)
    requires g.Consistent()
    ensures Run(g, reqs).Consistent()
  {
    RunIsDecidedByLastReset(g, reqs);
  }

  /** The upload at position `i` built an index and no clear came after it. */
  predicate LoadedBy(reqs: seq<Request>, i: int) {
    && 0 <= i < |reqs|
    && reqs[i].UploadRequest? && Indexed(reqs[i].filename, reqs[i].steps)
    && forall j :: i < j < |reqs| ==> !reqs[j].ClearRequest?
  }

  /**
    From start-up, a document is loaded after `reqs` exactly when some upload in it built an
    index and no clear came after that upload.
   */
  lemma LoadedIffIndexedAndNotCleared(reqs: seq<Request>)
    ensures Run(Initial, reqs).pdfLoaded <==> exists i :: LoadedBy(reqs, i)
  {
    RunIsDecidedByLastReset(Initial, reqs);
    match LastReset(reqs)
    case None =>
      forall i | 0 <= i < |reqs|
        ensures !LoadedBy(reqs, i)
      {
        assert !Resets(reqs[i]);
      }
    case Some(k) =>
      if reqs[k].UploadRequest? {
        assert LoadedBy(reqs, k);
      } else {
        forall i | 0 <= i < |reqs|
          ensures !LoadedBy(reqs, i)
        {
          if i > k {
            assert !Resets(reqs[i]);
          } else if i < k {
            assert reqs[k].ClearRequest?;
          }
        }
      }
  }

  /** The two module globals of the service and the endpoints that use them. */
  class Backend {
    var vectorDb: Option<Index>
    var pdfLoaded: bool

    function State(): Globals
      reads this
    {
      Globals(vectorDb, pdfLoaded)
    }

    ghost predicate Valid()
      reads this
    {
      State().Consistent()
    }

    /** Module import: no index, no document. */
    constructor ()
      ensures State() == Initial && Valid()
    {
      vectorDb := None;
      pdfLoaded := false;
    }

    /** GET /status; when the globals are consistent it agrees with what `PdfChat` will do. */
    function GetStatus(): (r: StatusReport)
      reads this
      ensures r.generalChat == "Available" && r.pdfLoaded == pdfLoaded
      ensures r.pdfChat == "Available" <==> pdfLoaded
      ensures Valid() ==> (r.pdfChat == "Available" <==> !Refuses(State()))
    {
      Status(State())
    }

    /** POST /upload-pdf with a file named `filename`. */
    method UploadPdf(filename: string, steps: UploadSteps) returns (reply: Reply<Message>)
      modifies this
      ensures (State(), reply) == Upload(old(State()), filename, steps)
      ensures old(Valid()) ==> Valid()
    {
      if !EndsWith(filename, ".pdf") {
        reply := Err(WrapAll(UploadPrefix, HttpException(400, NotPdfDetail)));
        return;
      }
      if steps.save.Raised? {
        reply := Err(WrapAll(UploadPrefix, steps.save.exception));
        return;
      }
      if steps.load.Raised? {
        reply := Err(WrapAll(UploadPrefix, steps.load.exception));
        return;
      }
      if steps.split.Raised? {
        reply := Err(WrapAll(UploadPrefix, steps.split.exception));
        return;
      }
      if steps.index.Raised? {
        reply := Err(WrapAll(UploadPrefix, steps.index.exception));
        return;
      }
      vectorDb := Some(steps.index.value);
      pdfLoaded := true;
      if steps.unlink.Raised? {
        reply := Err(WrapAll(UploadPrefix, steps.unlink.exception));
        return;
      }
      reply := Ok(UploadedMessage(filename));
    }

    /** DELETE /pdf. */
    method ClearPdf() returns (m: Message)
      modifies this
      ensures (State(), m) == Clear(old(State()))
      ensures Valid()
    {
      vectorDb := None;
      pdfLoaded := false;
      m := ClearedMessage;
    }

    /**
      POST /chat/pdf. Refused with a 400 (re-raised as it is) unless a document is loaded, in
      which case the answer is independent of `query`; otherwise the chain's answer with the
      de-duplicated sources, or its exception mapped as `pdf_chat` maps it. The globals are
      read, never written.
     */
    method PdfChat(request: PdfChatRequest, query: RagQuery) returns (reply: Reply<ChatResponse>)
      ensures Refuses(State()) ==> reply == Err(HttpError(400, NoPdfDetail))
      ensures !Refuses(State()) ==>
        var results := query(vectorDb.value, request.question);
        && (results.Raised? ==> reply == Err(Reraise(PdfChatPrefix, results.exception)))
        && (results.Done? ==>
              reply == Ok(ChatResponse(results.value.result, Some(Dedup(Labels(results.value.sourceDocuments))))))
      ensures reply.Ok? ==> reply.body.sources.Some? && Distinct(reply.body.sources.value)
    {
      if !pdfLoaded || vectorDb.None? {
        reply := Err(Reraise(PdfChatPrefix, HttpException(400, NoPdfDetail)));
        return;
      }
      var results := query(vectorDb.value, request.question);
      if results.Raised? {
        reply := Err(Reraise(PdfChatPrefix, results.exception));
        return;
      }
      var sources := CollectSources(results.value.sourceDocuments);
      reply := Ok(ChatResponse(results.value.result, Some(sources)));
    }
  }
}
