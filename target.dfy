/** The steps of `parseTarget` that lib/util.js and util.js share word for
    word: taking the target out of the request path, the anti-recursion
    guard, normalising BASE_URL, and composing an absolute URL. */
module Target {
  import opened Js
  import opened Url
  import opened Finish

  /** The request as the resolver sees it: `req.url` and `req.headers.host`. */
  datatype Request = Request(url: string, host: Option<string>)

  /** What a successful `parseTarget` returns: the sanitized target and the
      control options taken out of its query. */
  datatype Resolved = Resolved(target: string, options: map<string, string>)

  /** `let [handler, ...targetURL] = url.split('/').splice(1)` followed by
      `targetURL.join('/')`: everything after the handler segment. */
  function TargetPath(url: string): string {
    var pieces := Split(url, '/')[1..];
    if |pieces| <= 1 then "" else Join(pieces[1..], '/')
  }

  /** `target.includes(req.headers['host'])`; a missing header is the text
      "undefined". */
  predicate IsRecursive(target: string, host: Option<string>) {
    Includes(target, ShowUndefined(host))
  }

  const RECURSIVE_URL := BadRequest("recursive url is not allowed")

  /** A BASE_URL without the `http` prefix gets `http://` and must then have a
      hostname; one that already starts with `http` is taken as it is. */
  function NormalizeBase(baseUrl: Option<string>, parse: UrlParser): Result<Option<string>, ErrorInfo> {
    if Truthy(baseUrl) && !StartsWith(baseUrl.value, "http") then
      var b := "http://" + baseUrl.value;
      if !Truthy(parse(b).hostname) then Failure(Uncoded("could not construct valid BASE_URL: " + b))
      else Success(Some(b))
    else Success(baseUrl)
  }

  /** The three-way rule on "starts with `http`". */
  function Compose(target: string, base: Option<string>): Result<string, ErrorInfo> {
    var hasHttpPrefix := StartsWith(target, "http");
    if !Truthy(base) && !hasHttpPrefix then Success("http://" + target)
    else if Truthy(base) && !hasHttpPrefix then Success(base.value + "/" + target)
    else if Truthy(base) && hasHttpPrefix then
      Failure(Uncoded("target URL must not start with http because BASE_URL is set. BASE_URL: " + base.value))
    else Success(target)
  }

  /** The guard, BASE_URL and composition steps in the order both copies run
      them: the absolute URL the query is then stripped from. */
  function Composed(req: Request, baseUrl: Option<string>, parse: UrlParser): Result<string, ErrorInfo> {
    var target := TargetPath(req.url);
    if IsRecursive(target, req.host) then Failure(RECURSIVE_URL)
    else match NormalizeBase(baseUrl, parse)
      case Failure(e) => Failure(e)
      case Success(base) => Compose(target, base)
  }

  function InvalidUrl(target: string): ErrorInfo {
    BadRequest("could not construct valid url: " + target)
  }

  // ---------------------------------------------------------------------

  /** The target is what follows the second `/` of the request path: for
      `/screenshot/http://a.com` it is `http://a.com`. */
  lemma {:induction false} TargetPathAfterHandler(lead: string, handler: string, target: string)
    requires '/' !in lead && '/' !in handler
    ensures TargetPath(lead + "/" + handler + "/" + target) == target
  {
    var url := lead + "/" + handler + "/" + target;
    assert url == lead + ['/'] + (handler + ['/'] + target);
    SplitAfterPiece(lead, '/', handler + ['/'] + target);
    SplitAfterPiece(handler, '/', target);
    var pieces := Split(url, '/')[1..];
    assert pieces == [handler] + Split(target, '/');
    assert pieces[1..] == Split(target, '/');
    JoinSplit(target, '/');
  }

  /** A path with no second `/` gives the empty target. */
  lemma {:induction false} TargetPathHandlerOnly(lead: string, handler: string)
    requires '/' !in lead && '/' !in handler
    ensures TargetPath(lead) == "" && TargetPath(lead + "/" + handler) == ""
  {
    SplitNoSeparator(lead, '/');
    SplitNoSeparator(handler, '/');
    SplitAfterPiece(lead, '/', handler);
    assert lead + "/" + handler == lead + ['/'] + handler;
  }

  /** BASE_URL handling: an unset or empty BASE_URL and one that starts with
      `http` are passed on unchecked; any other gets `http://` in front and is
      refused, with an error that has no code, unless it then has a hostname. */
  lemma NormalizeBaseRule(baseUrl: Option<string>, parse: UrlParser)
    ensures !Truthy(baseUrl) || StartsWith(baseUrl.value, "http")
            ==> NormalizeBase(baseUrl, parse) == Success(baseUrl)
    ensures Truthy(baseUrl) && !StartsWith(baseUrl.value, "http")
            ==> var b := "http://" + baseUrl.value;
                (NormalizeBase(baseUrl, parse).Success? <==> Truthy(parse(b).hostname))
                && (NormalizeBase(baseUrl, parse).Success? ==> NormalizeBase(baseUrl, parse).value == Some(b))
                && (NormalizeBase(baseUrl, parse).Failure? ==> NormalizeBase(baseUrl, parse).error.code == None)
  {
  }

  /** The composition table: no base and no prefix gives `http://target`; a
      base and no prefix gives `base/target`; no base and a prefix keeps the
      target; a base and a prefix is an error with no code. */
  lemma ComposeRule(target: string, base: Option<string>)
    ensures !Truthy(base) && !StartsWith(target, "http") ==> Compose(target, base) == Success("http://" + target)
    ensures Truthy(base) && !StartsWith(target, "http") ==> Compose(target, base) == Success(base.value + "/" + target)
    ensures !Truthy(base) && StartsWith(target, "http") ==> Compose(target, base) == Success(target)
    ensures Truthy(base) && StartsWith(target, "http") ==> Compose(target, base).Failure? && Compose(target, base).error.code == None
  {
  }

  /** Whatever the inputs, a composed URL starts with `http`: the prefix
      test that separates the table's rows holds of every URL it produces. */
  lemma ComposedStartsWithHttp(req: Request, baseUrl: Option<string>, parse: UrlParser)
    requires Composed(req, baseUrl, parse).Success?
    ensures StartsWith(Composed(req, baseUrl, parse).value, "http")
  {
    var target := TargetPath(req.url);
    var base := NormalizeBase(baseUrl, parse).value;
    assert Truthy(base) ==> StartsWith(base.value, "http");
    if Truthy(base) && !StartsWith(target, "http") {
      assert (base.value + "/" + target)[..4] == base.value[..4];
    } else if !Truthy(base) && !StartsWith(target, "http") {
      assert ("http://" + target)[..4] == "http";
    }
  }

  /** The recursion guard runs first: a target containing the host header
      is refused with the 400 whatever BASE_URL and the parser say, and no
      later step produces that error. */
  lemma {:induction false} RecursiveFirst(req: Request, baseUrl: Option<string>, parse: UrlParser)
    ensures Composed(req, baseUrl, parse) == Failure(RECURSIVE_URL)
            <==> IsRecursive(TargetPath(req.url), req.host)
  {
    assert RECURSIVE_URL.code == Some(400);
  }
}
