/** handler/render.js: resolve the target with the util.js resolver, load the
    page, serialise its HTML, and point relative links at the target's origin
    by inserting a `<base>` element right after the first `<head>`. */
module Render {
  import opened Js
  import opened Url
  import opened Finish
  import opened Target
  import opened SsrUtil
  import opened Chromium

  const HEAD := "<head>"

  /** `<head><base href="${protocol}//${hostname}"/>`: the origin without
      the port, and no slash after the host. */
  function BaseTag(protocol: Option<string>, hostname: Option<string>): string {
    HEAD + "<base href=\"" + ShowNull(protocol) + "//" + ShowNull(hostname) + "\"/>"
  }

  /** `html.replace('<head>', …)`: the first `<head>` gets the base tag. */
  function InsertBase(html: string, protocol: Option<string>, hostname: Option<string>): string {
    ReplaceFirst(html, HEAD, BaseTag(protocol, hostname))
  }

  /** What `render(targetURL)` settles to: the rewritten HTML, or None when
      it throws (a visit that throws, or one that resolves without a page, so
      that `page.content()` throws). */
  function RenderPage(target: string, parse: UrlParser, pages: string -> Visit, content: string -> string): Option<string> {
    if pages(target).Opened? then
      var p := parse(target);
      Some(InsertBase(content(target), p.protocol, p.hostname))
    else None
  }

  /** What the handler does: its promise rejects before `res` is touched,
      or it writes an answer; and the URLs it visits. */
  datatype Reply = Rejected(error: string) | Answered(ending: Ending, visits: seq<string>)

  function Respond(req: Request, baseUrl: Option<string>, parse: UrlParser,
                   pages: string -> Visit, content: string -> string): Reply
  {
    match SsrUtil.Resolve(req, baseUrl, parse)
    case Threw(e) => Rejected(e)
    case Returned(Failure(e)) => Answered(ErrorEnding(e), [])
    case Returned(Success(r)) =>
      var ending :=
        match RenderPage(r.target, parse, pages, content)
        case None => ErrorEnding(FailedFor(r.target))
        case Some(html) => CacheEnding(200, "text/html", html, 1);
      Answered(ending, [r.target])
  }

  /** `render(targetURL)` */
  method RenderTarget(browser: Browser, target: string, parse: UrlParser) returns (html: Option<string>)
    modifies browser
    ensures html == RenderPage(target, parse, browser.pages, browser.content)
    ensures browser.visited == old(browser.visited) + [target]
  {
    var v := browser.Visit(target);
    if !v.Opened? {
      // `page` is undefined and `page.content()` throws
      return None;
    }
    var page := browser.Content(target);
    var p := parse(target);
    page := InsertBase(page, p.protocol, p.hostname);
    return Some(page);
  }

  /** The handler `async function (req, res)`. It returns the reason its
      promise rejects, if it does: `parseTarget` is called outside the
      `try`, so what it throws escapes, and `res` is left as it was. */
  method Handle(browser: Browser, res: ServerResponse, req: Request, baseUrl: Option<string>, parse: UrlParser)
    returns (rejection: Option<string>)
    modifies browser, res
    ensures var reply := Respond(req, baseUrl, parse, browser.pages, browser.content);
            match reply
            case Rejected(e) =>
              rejection == Some(e) && browser.visited == old(browser.visited)
              && res.statusCode == old(res.statusCode) && res.headers == old(res.headers) && res.body == old(res.body)
            case Answered(ending, visits) =>
              rejection == None && browser.visited == old(browser.visited) + visits
              && res.Shows(ending, old(res.headers))
  {
    var attempt := SsrUtil.ParseTarget(req, baseUrl, parse);
    if attempt.Threw? {
      return Some(attempt.error);
    }
    var resolved := attempt.result;
    if resolved.Failure? {
      SsrUtil.EndWithError(res, resolved.error);
      return None;
    }
    var target := resolved.value.target;
    var html := RenderTarget(browser, target, parse);
    if html.None? {
      SsrUtil.EndWithError(res, FailedFor(target));
      return None;
    }
    SsrUtil.EndWithCache(res, 200, "text/html", html.value, 1);
    return None;
  }

  // ---------------------------------------------------------------------

  /** Only the first `<head>` gets the base tag, and nothing else of the
      page changes: for `a + "<head>" + b` where `a` has no `<head>`, the
      result is `a`, the tag, then `b` as it was (even if `b` has another
      `<head>`). */
  lemma HeadGetsBase(a: string, b: string, protocol: Option<string>, hostname: Option<string>)
    requires !Includes(a, HEAD)
    ensures InsertBase(a + HEAD + b, protocol, hostname) == a + BaseTag(protocol, hostname) + b
  {
    var s := a + HEAD + b;
    forall j | 0 <= j < |a|
      ensures !OccursAt(s, HEAD, j)
    {
      if j + |HEAD| <= |a| {
        assert s[j..j + |HEAD|] == a[j..j + |HEAD|];
        assert !OccursAt(a, HEAD, j);
      } else {
        // the occurrence would have the `<` of the inserted `<head>` inside
        var k := |a| - j;
        assert s[j..j + |HEAD|][k] == s[|a|] == '<';
        assert HEAD[k] != '<';
      }
    }
    ReplaceFirstOccurrence(a, HEAD, b, BaseTag(protocol, hostname));
  }

  /** A page without `<head>` is sent as it was loaded. */
  lemma NoHeadUnchanged(html: string, protocol: Option<string>, hostname: Option<string>)
    requires !Includes(html, HEAD)
    ensures InsertBase(html, protocol, hostname) == html
  {
    ReplaceFirstAbsent(html, HEAD, BaseTag(protocol, hostname));
  }

  /** The base tag names the origin of the sanitized target, with no
      trailing slash: for `http://example.org` it is
      `<head><base href="http://example.org"/>`. */
  lemma BaseTagExample()
    ensures BaseTag(Some("http:"), Some("example.org")) == "<head><base href=\"http://example.org\"/>"
  {
  }

  /** When the composed URL keeps a query entry that is not an `_ssr_`
      control option, the handler's promise rejects with the TypeError of
      `url.parse(undefined)`, nothing is visited and `res` is left as it was;
      when it keeps none, the handler answers. */
  lemma RejectsWhenQueryRemains(req: Request, baseUrl: Option<string>, parse: UrlParser,
                                pages: string -> Visit, content: string -> string)
    requires Composed(req, baseUrl, parse).Success?
    ensures var t := Composed(req, baseUrl, parse).value;
            Respond(req, baseUrl, parse, pages, content).Rejected?
            <==> exists e :: e in parse(t).query && !StartsWith(e.0, SSR_PREFIX)
    ensures Respond(req, baseUrl, parse, pages, content).Rejected? ==>
              Respond(req, baseUrl, parse, pages, content).error == URL_NOT_A_STRING
  {
    ThrowsWhenQueryRemains(req, baseUrl, parse);
  }

  /** Only a resolver that throws makes the promise reject: a resolver
      error is answered with `endWithError` and no visit. */
  lemma RejectsOnlyOnThrow(req: Request, baseUrl: Option<string>, parse: UrlParser,
                           pages: string -> Visit, content: string -> string)
    ensures Respond(req, baseUrl, parse, pages, content).Rejected? <==> SsrUtil.Resolve(req, baseUrl, parse).Threw?
    ensures var a := SsrUtil.Resolve(req, baseUrl, parse);
            a.Returned? && a.result.Failure? ==>
              Respond(req, baseUrl, parse, pages, content) == Answered(ErrorEnding(a.result.error), [])
  {
  }

  /** The answer is cached HTML exactly when the target resolved and the
      page opened; its body is then the page's HTML with the base tag of the
      target's own protocol and hostname. A page that fails to load is the
      500 'screenshot failed for target'. */
  lemma HtmlOnlyOnSuccess(req: Request, baseUrl: Option<string>, parse: UrlParser,
                          pages: string -> Visit, content: string -> string)
    requires SsrUtil.Resolve(req, baseUrl, parse).Returned?
    requires SsrUtil.Resolve(req, baseUrl, parse).result.Success?
    ensures var t := SsrUtil.Resolve(req, baseUrl, parse).result.value.target;
            var reply := Respond(req, baseUrl, parse, pages, content);
            && reply.Answered? && reply.visits == [t]
            && ("Cache-Control" in reply.ending.headers <==> pages(t).Opened?)
            && (pages(t).Opened? ==>
                  reply.ending.status == 200 && reply.ending.headers["Content-Type"] == "text/html"
                  && reply.ending.body == InsertBase(content(t), parse(t).protocol, parse(t).hostname))
            && (!pages(t).Opened? ==> reply.ending == ErrorEnding(FailedFor(t)))
  {
  }
}
