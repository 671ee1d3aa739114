/** The response side: Node's `res` object as a record of status, headers and
    body that `endWithError` and `endWithCache` fill in, and the error
    descriptors the resolver and the handlers pass to `endWithError`. */
module Finish {
  import opened Js
  import opened Number

  /** An error descriptor `{ code, type, message }`; any field may be absent. */
  datatype ErrorInfo = ErrorInfo(code: Option<int>, kind: Option<string>, message: Option<string>)

  /** What one `end*` call writes: the status, the headers it sets, the body. */
  datatype Ending = Ending(status: int, headers: map<string, string>, body: string)

  const DEFAULT_CODE := 500
  const DEFAULT_KIND := "500 internal error"
  const DEFAULT_MESSAGE := "uncaught exception"

  /** An error that names only a message: reported as a 500. */
  function Uncoded(message: string): ErrorInfo {
    ErrorInfo(None, None, Some(message))
  }

  /** A 400 '400 bad request' error with the given message. */
  function BadRequest(message: string): ErrorInfo {
    ErrorInfo(Some(400), Some("400 bad request"), Some(message))
  }

  /** The message both handlers send for an exception thrown while the page
      is visited or captured. */
  function FailedFor(target: string): ErrorInfo {
    Uncoded("screenshot failed for target '" + target + "'.")
  }

  /** What `endWithError(res, err)` writes: missing fields take the defaults
      500, '500 internal error' and 'uncaught exception'; the body is
      `type + ': ' + message` as plain text. */
  function ErrorEnding(err: ErrorInfo): Ending {
    var code := match err.code case Some(c) => c case None => DEFAULT_CODE;
    var kind := match err.kind case Some(k) => k case None => DEFAULT_KIND;
    var message := match err.message case Some(m) => m case None => DEFAULT_MESSAGE;
    Ending(code, map["Content-Type" := "text/plain"], kind + ": " + message)
  }

  /** `s-maxage=N, stale-while-revalidate` */
  function CacheControl(maxAge: nat): string {
    "s-maxage=" + NatToString(maxAge) + ", stale-while-revalidate"
  }

  /** What `endWithCache(res, code, contentType, body, maxAge)` writes. */
  function CacheEnding(code: int, contentType: string, body: string, maxAge: nat): Ending {
    Ending(code, map["Content-Type" := contentType, "Cache-Control" := CacheControl(maxAge)], body)
  }

  /** The response object. `setHeader` adds or overwrites one header and
      `end` sends the body. */
  class ServerResponse {
    var statusCode: int
    var headers: map<string, string>
    var body: Option<string>

    /** A fresh response: status 200, no header, nothing sent. */
    constructor ()
      ensures statusCode == 200 && headers == map[] && body == None
    {
      statusCode := 200;
      headers := map[];
      body := None;
    }

    method SetHeader(name: string, value: string)
      modifies this
      ensures headers == old(headers)[name := value]
      ensures statusCode == old(statusCode) && body == old(body)
    {
      headers := headers[name := value];
    }

    method End(data: string)
      modifies this
      ensures body == Some(data)
      ensures statusCode == old(statusCode) && headers == old(headers)
    {
      body := Some(data);
    }

    /** The response holds what `e` writes over the headers it had before. */
    ghost predicate Shows(e: Ending, before: map<string, string>)
      reads this
    {
      statusCode == e.status && headers == before + e.headers && body == Some(e.body)
    }
  }

  // ---------------------------------------------------------------------

  /** An error carrying only a message is a 500 whose body starts with
      '500 internal error: ' followed by that message. */
  lemma UncodedIsInternalError(message: string)
    ensures ErrorEnding(Uncoded(message))
         == Ending(500, map["Content-Type" := "text/plain"], "500 internal error: " + message)
  {
  }

  /** A bad-request error is a 400 whose body is '400 bad request: ' and the
      message. */
  lemma BadRequestEnding(message: string)
    ensures ErrorEnding(BadRequest(message))
         == Ending(400, map["Content-Type" := "text/plain"], "400 bad request: " + message)
  {
  }

  /** An exception in a handler is answered with the 500 'screenshot failed
      for target' naming the target between single quotes. */
  lemma FailedForEnding(target: string)
    ensures ErrorEnding(FailedFor(target))
         == Ending(500, map["Content-Type" := "text/plain"], "500 internal error: screenshot failed for target '" + target + "'.")
  {
    var lead, tail := "screenshot failed for target '", "'.";
    UncodedIsInternalError(lead + target + tail);
    assert "500 internal error: " + (lead + target + tail) == "500 internal error: " + lead + target + tail;
    assert "500 internal error: " + lead == "500 internal error: screenshot failed for target '";
  }
}
