# Chatbot API backend: document session and error mapping

This project models the core of the FastAPI service in `backend/main.py`. The service offers
an open-domain chat (`POST /chat/general`) and a chat grounded in one uploaded PDF
(`POST /upload-pdf`, `POST /chat/pdf`, `DELETE /pdf`, `GET /status`). Its state is two
module globals: `vector_db_instance` (the vector index of the uploaded document, or `None`)
and `pdf_loaded` (a flag).

The model covers:

- **The document session.** The globals are a `Globals` value. The spec functions `Upload`,
  `Clear` and `Status` give the effect and reply of each endpoint. The class `Backend` has
  the two fields and methods written step by step like the handlers. Each method is proved
  to agree with its spec function. The invariant `pdf_loaded <==> vector_db_instance is not
  None` holds at start-up and after every operation. It also holds after any sequence of
  requests. A request-trace lemma shows that the last upload that built an index, or the last
  clear, decides the globals ("last write wins").
- **What status a caller sees.** `WrapAll` models `except Exception` re-wrapping as a 500.
  `Reraise` models `except HTTPException: raise` followed by that re-wrap. The upload
  handler raises its 400 for a non-`.pdf` name inside its own `try`, so the client receives
  a 500. The document chat re-raises its 400 unchanged. The general chat turns every
  failure into a 500, including the 500 HTTPException of `llm_answer`.
- **Source de-duplication.** The `pdf_chat` loop keeps each `source` the first time it
  appears and reads a missing one as "Unknown". It is proved equal to `Dedup`, whose results
  are duplicate-free, have exactly the input's elements, and keep first-occurrence order.
- **History extension.** `general_chat` copies the history and appends one user turn.
  `llm_answer` converts each turn into a `{"role", "content"}` dictionary with a loop.

Library calls are parameters:

- Copying to a temporary file, loading the PDF, splitting it, building the index and
  deleting the file are `UploadSteps`. Each step either completes or raises an exception.
- The retrieval chain is a `RagQuery` and the Groq completion is a `Completion`.
- An index is an opaque `Index` token.

## Model

| member | source | states |
|---|---|---|
| `Outcomes.WrapAll` | backend/main.py:171-172 | any exception, an HTTPException included, becomes a 500 whose detail starts with the handler's prefix and ends with the original detail |
| `Outcomes.Reraise` | backend/main.py:201-204 | an HTTPException keeps its status and detail; any other exception becomes a 500 with the prefix and `str(e)` |
| `Sources.Labels` | backend/main.py:191-192 | one source per retrieved document, in order: the `source` metadata, or "Unknown" when it is missing |
| `Sources.Dedup` | backend/main.py:190-194 | the collected sources have no duplicates, contain exactly the documents' sources, and are no more than the documents |
| `Sources.DedupKeepsFirstOccurrenceOrder` | backend/main.py:190-194 | the sources appear in the order of their first occurrence among the documents |
| `Sources.DedupOfDistinct` | backend/main.py:190-194 | a duplicate-free list of sources passes through unchanged |
| `Sources.DedupIdempotent` | backend/main.py:190-194 | collecting the collected sources again changes nothing |
| `Sources.CollectSources` | backend/main.py:190-194 | the append-if-unseen loop yields `Dedup` of the documents' sources: duplicate-free, each a document's source and each document's source present, no longer than the documents |
| `GeneralChat.Wire` | backend/main.py:61-66 | one dictionary per turn, in order, each reading back to the turn it came from |
| `GeneralChat.ToWireMessages` | backend/main.py:61-66 | the loop that appends one dictionary per turn produces exactly `Wire(history)` |
| `GeneralChat.WithUserTurn` | backend/main.py:128-129 | the new history keeps every earlier turn unchanged and ends with exactly one `user` turn holding the message |
| `GeneralChat.LlmAnswer` | backend/main.py:55-74 | the model receives the wire form of the whole history; its answer is returned, and any failure becomes an HTTPException 500 prefixed "Error with Groq API: " |
| `GeneralChat.GeneralChat` | backend/main.py:123-137 | the model is sent the history plus the user turn; the reply is its answer with no sources exactly when that call succeeds; every failure, including a `null` history, is a 500 prefixed "Error processing general chat: " |
| `GeneralChat.GroqFailureDetail` | backend/main.py:132-137 | a failing model call reaches the client as "Error processing general chat: 500: Error with Groq API: ..." |
| `PdfSession.Status` | backend/main.py:114-121 | general chat is always "Available"; document chat is "Available" exactly when `pdf_loaded`, else "No PDF loaded"; `pdf_loaded` is reported as it is |
| `PdfSession.Upload` | backend/main.py:139-172 | keeps the invariant; an upload that builds an index replaces the index and sets the flag, and any other upload leaves both globals alone; success exactly when every step succeeds; every error is a 500 prefixed "Error processing PDF: " |
| `PdfSession.NonPdfUploadIsRejectedAs500` | backend/main.py:146-172 | a name not ending in ".pdf" leaves the globals unchanged and yields 500 "Error processing PDF: 400: Only PDF files are allowed", not 400 |
| `PdfSession.ExtensionCheckIsCaseSensitive` | backend/main.py:146 | for every stem, the name stem + ".pdf" passes the check and stem + ".PDF" does not |
| `PdfSession.UploadBody` | backend/main.py:144-169 | the `try` block: a wrong extension raises the 400 with the globals untouched; an upload that builds an index leaves the new index and the flag set, any other raises with the globals untouched; it returns the success message exactly when every step, the file deletion included, succeeds |
| `PdfSession.Refuses` | backend/main.py:180 | the guard of `pdf_chat`; always refuses when the flag is unset, and with consistent globals refuses exactly when the flag is unset |
| `Sources.SourceOf` | backend/main.py:192 | the `source` metadata when present, else "Unknown"; so a result of "Unknown" cannot tell a missing source from one literally named "Unknown" |
| `Outcomes.Str` | backend/main.py:171-172 | `str(e)`: the text of an ordinary exception; for an HTTPException, Starlette's form, which starts with the status digits and ends with the detail |
| `Text.EndsWith` | backend/main.py:146 | Python's `str.endswith`, equivalent to a character-by-character, case-sensitive comparison of the last characters |
| `PdfSession.FailedUploadKeepsPreviousDocument` | backend/main.py:156-164 | if the check, copy, load, split or index step fails, the previous globals survive and the reply is an error |
| `PdfSession.UnlinkFailureStillLoads` | backend/main.py:162-167 | a failure deleting the temporary file comes after the flag is set, so the document is loaded although an error is returned |
| `PdfSession.Clear` | backend/main.py:206-214 | both globals are reset whatever they were, and the same message is always returned |
| `PdfSession.ClearIsIdempotent` | backend/main.py:206-214 | clearing twice is the same as clearing once |
| `PdfSession.StatusAgreesWithPdfChat` | backend/main.py:180-184 | with consistent globals, /status says the document chat is available exactly when `pdf_chat` passes its guard |
| `PdfSession.RunIsDecidedByLastReset` | backend/main.py:162-212 | after any sequence of requests, the globals are those set by the last clear or index-building upload, or the starting ones if there was none |
| `PdfSession.RunKeepsConsistent` | backend/main.py:35-36 | from consistent globals, every sequence of requests leaves them consistent |
| `PdfSession.LoadedIffIndexedAndNotCleared` | backend/main.py:139-214 | from start-up, a document is loaded exactly when some upload built an index and no clear followed it |
| `PdfSession.Backend.constructor` | backend/main.py:35-36 | no index and no document at start-up, which satisfies the invariant |
| `PdfSession.Backend.GetStatus` | backend/main.py:114-121 | general chat always available, document chat available exactly when the flag is set, the flag reported as it is; under the invariant it agrees with the `PdfChat` guard |
| `PdfSession.Backend.UploadPdf` | backend/main.py:139-172 | the new globals and the reply are those of `Upload`, and the invariant is kept |
| `PdfSession.Backend.ClearPdf` | backend/main.py:206-214 | the new globals and the message are those of `Clear`, and the invariant holds |
| `PdfSession.Backend.PdfChat` | backend/main.py:174-204 | without a loaded document the reply is 400 with the "No PDF loaded" detail, whatever the chain would do; otherwise the chain's answer with the de-duplicated sources, or its exception mapped by `Reraise`; the globals are never written |

## Left out

- The client-side front end is not part of this model.
- The Groq client, `RetrievalQA` and `ChatGroq` are foreign network calls. Each is a parameter returning a value or an exception.
- PDF loading, chunk splitting (chunk size 500, overlap 30), HuggingFace embeddings and the FAISS index are library internals with floating-point similarity. Each is one `UploadSteps` outcome, and the index is an opaque token.
- The temporary-file copy and `os.unlink` are filesystem I/O. Each is only a step that completes or raises.
- CORS middleware, routing, `uvicorn.run` and the `print` logging are framework plumbing.
- `root` and `health_check` return constant messages and touch no state.
- The handlers are `async` but contain no `await`, so each runs to completion. Requests are modelled as strictly sequential.
- Pydantic validation is not modelled: an absent `history` is taken as the empty list, and a request body the models reject never reaches a handler. Only an explicit `null` history is modelled. Its `.copy()` raises `AttributeError`, which the handler turns into a 500.
- A `source` metadata value that is not a string would make the response fail validation. Metadata is modelled as a string-to-string map.
- `file.filename` is modelled as a string. A missing filename is not modelled.
- A missing `result` or `source_documents` key in the chain's output is not modelled. `RagResult` always has both.
- `str()` of an HTTPException follows Starlette's `"<status>: <detail>"`. That class is not part of this model. For other exceptions, `str(e)` is carried as the exception's text.
- `PdfSession.Backend.PdfChat`: that no query is issued when the guard refuses is stated as the reply not depending on `query`, because the query is a pure function here.
- `GeneralChat.GeneralChat`: that `request.history` is not mutated follows from sequences being values. It is not a separate clause.
