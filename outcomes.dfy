/**
  How a handler of the chat API ends: with a value, or with a Python exception
  that FastAPI turns into an HTTP error response.
 */
module Outcomes {
  import opened Text

  datatype Option<+T> = None | Some(value: T)

  /** An exception raised inside a handler's `try` block. */
  datatype Exception =
    | HttpException(status: nat, detail: string)  // fastapi.HTTPException
    | Error(text: string)                         // any other exception; `text` is what `str(e)` gives

  /** The outcome of one step a handler performs: its value, or the exception it raised. */
  datatype Step<+T> = Done(value: T) | Raised(exception: Exception)

  /** The error response a client receives: an HTTP status and the JSON `detail` string. */
  datatype HttpError = HttpError(status: nat, detail: string)

  /** What a client of an endpoint receives. */
  datatype Reply<+T> = Ok(body: T) | Err(error: HttpError)

  /** Python's `str(e)`; for an HTTPException this is Starlette's "<status>: <detail>". */
  function Str(e: Exception): (r: string)
    ensures e.Error? ==> r == e.text
    ensures e.HttpException? ==> StartsWith(r, DecimalString(e.status)) && EndsWith(r, e.detail)
  {
    StrParts(e);
    match e
    case HttpException(status, detail) => DecimalString(status) + ": " + detail
    case Error(text) => text
  }

  lemma StrParts(e: Exception)
    ensures e.HttpException? ==>
      && StartsWith(DecimalString(e.status) + ": " + e.detail, DecimalString(e.status))
      && EndsWith(DecimalString(e.status) + ": " + e.detail, e.detail)
  {
    if e.HttpException? {
      var code := DecimalString(e.status);
      assert code + ": " + e.detail == code + (": " + e.detail);
      StartsWithAppend(code, ": " + e.detail);
      EndsWithAppend(code + ": ", e.detail);
    }
  }

  /**
    `except Exception as e: raise HTTPException(status_code=500, detail=f"{prefix}{str(e)}")`.
    Every exception, an HTTPException included, reaches the client as a 500 whose detail
    starts with the prefix and ends with the original detail.
   */
  function WrapAll(prefix: string, e: Exception): (r: HttpError)
    ensures r.status == 500
    ensures StartsWith(r.detail, prefix)
    ensures e.HttpException? ==> EndsWith(r.detail, e.detail) && r.detail != e.detail
    ensures e.Error? ==> r.detail[|prefix|..] == e.text
  {
    WrappedDetail(prefix, e);
    HttpError(500, prefix + Str(e))
  }

  lemma WrappedDetail(prefix: string, e: Exception)
    ensures StartsWith(prefix + Str(e), prefix)
    ensures (prefix + Str(e))[|prefix|..] == Str(e)
    ensures e.HttpException? ==> EndsWith(prefix + Str(e), e.detail)
  {
    StartsWithAppend(prefix, Str(e));
    if e.HttpException? {
      assert prefix + Str(e) == (prefix + DecimalString(e.status) + ": ") + e.detail;
      EndsWithAppend(prefix + DecimalString(e.status) + ": ", e.detail);
    }
  }

  /**
    `except HTTPException: raise` followed by `except Exception as e: raise HTTPException(500, ...)`.
    An HTTPException keeps its own status and detail; anything else becomes a 500.
   */
  function Reraise(prefix: string, e: Exception): (r: HttpError)
    ensures e.HttpException? ==> r == HttpError(e.status, e.detail)
    ensures e.Error? ==> r.status == 500 && r.detail == prefix + e.text
  {
    match e
    case HttpException(status, detail) => HttpError(status, detail)
    case Error(_) => WrapAll(prefix, e)
  }
}
