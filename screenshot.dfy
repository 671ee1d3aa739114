/** handler/screenshot.js: resolve the target with the lib/util.js resolver
    made for the handler 'screenshot', read the `type`, `quality` and
    `fullPage` control options, visit the page and answer with the image. */
module Screenshot {
  import opened Js
  import opened Number
  import opened Url
  import opened Finish
  import opened Target
  import opened LibUtil
  import opened Chromium

  const DEFAULT_TYPE := "png"
  const QUALITY_TYPE := "jpeg"

  /** `options[k]`, undefined when the key is missing. */
  function Lookup(options: map<string, string>, k: string): Option<string> {
    if k in options then Some(options[k]) else None
  }

  /** The 400 for a quality outside 0..100. */
  function QualityOutOfRange(quality: int): ErrorInfo {
    BadRequest("quality must be between 0 and 100 (inclusive). got " + IntToString(quality) + " instead.")
  }

  /** What the handler makes of the control options before it visits the
      page: a refusal, or the type, quality and (possibly undefined)
      fullPage it passes to `getScreenshot`. */
  datatype Plan = Refused(err: ErrorInfo) | Shoot(imageType: string, quality: IntValue, fullPage: Option<string>)

  function PlanShot(options: map<string, string>): Plan {
    var quality := GetInt(Lookup(options, "quality"));
    if Number.Truthy(quality) && (quality.value < 0 || 100 < quality.value) then
      Refused(QualityOutOfRange(quality.value))
    else
      var imageType :=
        if Number.Truthy(quality) then QUALITY_TYPE
        else match Lookup(options, "type") case Some(t) => t case None => DEFAULT_TYPE;
      Shoot(imageType, quality, Lookup(options, "fullPage"))
  }

  /** The options object `getScreenshot` hands to `page.screenshot`: an
      undefined fullPage becomes `true`. */
  function ShotOptionsOf(imageType: string, quality: IntValue, fullPage: Option<string>): ShotOptions {
    ShotOptions(imageType, quality, match fullPage case None => FullPageTrue case Some(f) => FullPageGiven(f))
  }

  /** What `getScreenshot` settles to: `{ file }`, `{ err }`, or a rejection. */
  datatype Shot = File(file: string) | ShotError(err: ErrorInfo) | ShotThrew

  function ShotOf(target: string, options: ShotOptions, pages: string -> Visit, shots: (string, ShotOptions) -> Capture): Shot {
    match pages(target)
    case VisitThrew => ShotThrew
    case VisitError(e) => ShotError(e)
    case Opened =>
      match shots(target, options)
      case CaptureThrew => ShotThrew
      case Captured(f) => File(f)
  }

  /** What the handler writes to the response, and the URLs it visits. */
  datatype Reply = Reply(ending: Ending, visits: seq<string>)

  function Respond(req: Request, baseUrl: Option<string>, parse: UrlParser,
                   pages: string -> Visit, shots: (string, ShotOptions) -> Capture): Reply
  {
    match Resolve(req, baseUrl, parse)
    case Failure(e) => Reply(ErrorEnding(e), [])
    case Success(r) =>
      match PlanShot(r.options)
      case Refused(e) => Reply(ErrorEnding(e), [])
      case Shoot(imageType, quality, fullPage) =>
        var ending :=
          match ShotOf(r.target, ShotOptionsOf(imageType, quality, fullPage), pages, shots)
          case File(f) => CacheEnding(200, "image/" + imageType, f, 1)
          case ShotError(e) => ErrorEnding(e)
          case ShotThrew => ErrorEnding(FailedFor(r.target));
        Reply(ending, [r.target])
  }

  /** `getScreenshot(targetURL, type, quality, fullPage)` */
  method GetScreenshot(browser: Browser, target: string, imageType: string, quality: IntValue, fullPage: Option<string>)
    returns (r: Shot)
    modifies browser
    ensures r == ShotOf(target, ShotOptionsOf(imageType, quality, fullPage), browser.pages, browser.shots)
    ensures browser.visited == old(browser.visited) + [target]
  {
    var v := browser.Visit(target);
    if v.VisitThrew? {
      return ShotThrew;
    }
    if v.VisitError? {
      return ShotError(v.err);
    }
    var full := FullPageTrue;
    if fullPage.Some? {
      full := FullPageGiven(fullPage.value);
    }
    var c := browser.Screenshot(target, ShotOptions(imageType, quality, full));
    if c.CaptureThrew? {
      return ShotThrew;
    }
    return File(c.file);
  }

  /** The handler `async function (req, res)`, with the resolver `util` made
      for 'screenshot'. */
  method Handle(util: Util, browser: Browser, res: ServerResponse, req: Request, baseUrl: Option<string>, parse: UrlParser)
    modifies util, browser, res
    ensures var reply := Respond(req, baseUrl, parse, browser.pages, browser.shots);
            && res.Shows(reply.ending, old(res.headers))
            && browser.visited == old(browser.visited) + reply.visits
    ensures var r := Resolve(req, baseUrl, parse);
            util.currentTarget == if r.Success? then r.value.target else old(util.currentTarget)
  {
    var resolved := util.ParseTarget(req, baseUrl, parse);
    if resolved.Failure? {
      util.EndWithError(res, resolved.error);
      return;
    }
    var target, options := resolved.value.target, resolved.value.options;
    var imageType := DEFAULT_TYPE;
    if "type" in options {
      imageType := options["type"];
    }
    var quality := GetInt(Lookup(options, "quality"));
    if Number.Truthy(quality) {
      if quality.value < 0 || 100 < quality.value {
        assert PlanShot(options) == Refused(QualityOutOfRange(quality.value));
        util.EndWithError(res, QualityOutOfRange(quality.value));
        return;
      }
      imageType := QUALITY_TYPE;
    }
    assert PlanShot(options) == Shoot(imageType, quality, Lookup(options, "fullPage"));
    var shot := GetScreenshot(browser, target, imageType, quality, Lookup(options, "fullPage"));
    match shot
    case ShotError(e) =>
      util.EndWithError(res, e);
    case ShotThrew =>
      util.EndWithError(res, FailedFor(target));
    case File(f) =>
      util.EndWithCache(res, 200, "image/" + imageType, f, 1);
  }

  // ---------------------------------------------------------------------

  /** A quality that parses to a non-zero integer must lie in 0..100 and
      then forces the jpeg type; outside that range the handler refuses
      with a 400 that names the parsed number. A quality that is missing,
      has no digit, or parses to 0 or NaN leaves the type as given. */
  lemma QualityRule(options: map<string, string>)
    ensures var q := GetInt(Lookup(options, "quality"));
            && (PlanShot(options).Refused? <==> Number.Truthy(q) && (q.value < 0 || 100 < q.value))
            && (PlanShot(options).Refused? ==>
                  PlanShot(options).err == QualityOutOfRange(q.value) && PlanShot(options).err.code == Some(400))
            && (PlanShot(options).Shoot? ==> PlanShot(options).quality == q)
            && (PlanShot(options).Shoot? && Number.Truthy(q) ==> 1 <= q.value <= 100 && PlanShot(options).imageType == QUALITY_TYPE)
            && (!Number.Truthy(q) ==> PlanShot(options).imageType == (if "type" in options then options["type"] else DEFAULT_TYPE))
  {
  }

  /** `?_pq_quality=N` for N in 1..100 gives a jpeg of quality N, whatever
      `_pq_type` says. */
  lemma QualityForcesJpeg(options: map<string, string>, n: int)
    requires Lookup(options, "quality") == Some(IntToString(n)) && 1 <= n <= 100
    ensures PlanShot(options) == Shoot(QUALITY_TYPE, Int(n), Lookup(options, "fullPage"))
  {
    GetIntOfIntToString(n);
  }

  /** `?_pq_quality=N` for N outside 0..100 is refused with 'quality must be
      between 0 and 100 (inclusive). got N instead.' */
  lemma QualityOutOfRangeRefused(options: map<string, string>, n: int)
    requires Lookup(options, "quality") == Some(IntToString(n)) && (n < 0 || 100 < n)
    ensures PlanShot(options) == Refused(QualityOutOfRange(n))
  {
    GetIntOfIntToString(n);
  }

  /** `?_pq_quality=0` is falsy: the type is kept and quality 0 is passed on. */
  lemma ZeroQualityKeepsType(options: map<string, string>)
    requires Lookup(options, "quality") == Some("0")
    ensures PlanShot(options).Shoot? && PlanShot(options).quality == Int(0)
    ensures PlanShot(options).imageType == if "type" in options then options["type"] else DEFAULT_TYPE
  {
    GetIntZeroIsFalsy();
  }

  /** fullPage is `true` unless the query gives it, and then it is the given
      text as it is (so `false` arrives as the string "false"). */
  lemma FullPageDefault(imageType: string, quality: IntValue, fullPage: Option<string>)
    ensures ShotOptionsOf(imageType, quality, fullPage).fullPage.FullPageTrue? <==> fullPage.None?
    ensures fullPage.Some? ==> ShotOptionsOf(imageType, quality, fullPage).fullPage.text == fullPage.value
  {
  }

  /** The browser is used at most once, on the resolved target, and only
      when the target resolved and the options were accepted. */
  lemma VisitsOnlyWhenPlanned(req: Request, baseUrl: Option<string>, parse: UrlParser,
                              pages: string -> Visit, shots: (string, ShotOptions) -> Capture)
    ensures var reply, r := Respond(req, baseUrl, parse, pages, shots), Resolve(req, baseUrl, parse);
            && (reply.visits != [] <==> r.Success? && PlanShot(r.value.options).Shoot?)
            && (reply.visits != [] ==> reply.visits == [r.value.target])
  {
  }

  /** Errors reach `endWithError` unchanged: a resolver error and a refused
      quality with no visit, and an error a visit returns after that one
      visit. */
  lemma ErrorsForwarded(req: Request, baseUrl: Option<string>, parse: UrlParser,
                        pages: string -> Visit, shots: (string, ShotOptions) -> Capture)
    ensures var r := Resolve(req, baseUrl, parse);
            r.Failure? ==> Respond(req, baseUrl, parse, pages, shots) == Reply(ErrorEnding(r.error), [])
    ensures var r := Resolve(req, baseUrl, parse);
            r.Success? && PlanShot(r.value.options).Refused? ==>
              Respond(req, baseUrl, parse, pages, shots) == Reply(ErrorEnding(PlanShot(r.value.options).err), [])
    ensures var r := Resolve(req, baseUrl, parse);
            r.Success? && PlanShot(r.value.options).Shoot? && pages(r.value.target).VisitError? ==>
              Respond(req, baseUrl, parse, pages, shots)
              == Reply(ErrorEnding(pages(r.value.target).err), [r.value.target])
  {
  }

  /** The response is a cached image exactly when the target resolved, the
      options were accepted, the page opened and the screenshot was taken;
      it is then a 200 whose content type is `image/` and the planned type,
      the one from the query, `png` by default, `jpeg` when a quality is
      given. Every other response is an uncached plain-text error. */
  lemma ImageOnlyOnSuccess(req: Request, baseUrl: Option<string>, parse: UrlParser,
                           pages: string -> Visit, shots: (string, ShotOptions) -> Capture)
    ensures var reply, r := Respond(req, baseUrl, parse, pages, shots), Resolve(req, baseUrl, parse);
            var cached := r.Success? && PlanShot(r.value.options).Shoot?
                          && var p := PlanShot(r.value.options);
                             ShotOf(r.value.target, ShotOptionsOf(p.imageType, p.quality, p.fullPage), pages, shots).File?;
            && ("Cache-Control" in reply.ending.headers <==> cached)
            && (cached ==> reply.ending.status == 200
                           && reply.ending.headers["Content-Type"] == "image/" + PlanShot(r.value.options).imageType)
            && (!cached ==> reply.ending.headers == map["Content-Type" := "text/plain"])
  {
  }

  /** An exception while visiting or capturing is answered with the 500
      'screenshot failed for target' naming the sanitized target, after the
      one visit. The visit is all that is made when it throws. */
  lemma ThrowIsReportedAsFailure(req: Request, baseUrl: Option<string>, parse: UrlParser,
                                 pages: string -> Visit, shots: (string, ShotOptions) -> Capture)
    requires Resolve(req, baseUrl, parse).Success?
    requires PlanShot(Resolve(req, baseUrl, parse).value.options).Shoot?
    ensures var t, p := Resolve(req, baseUrl, parse).value.target, PlanShot(Resolve(req, baseUrl, parse).value.options);
            var o := ShotOptionsOf(p.imageType, p.quality, p.fullPage);
            && (ShotOf(t, o, pages, shots).ShotThrew? <==> pages(t).VisitThrew? || (pages(t).Opened? && shots(t, o).CaptureThrew?))
            && (ShotOf(t, o, pages, shots).ShotThrew? ==>
                  Respond(req, baseUrl, parse, pages, shots) == Reply(ErrorEnding(FailedFor(t)), [t]))
  {
  }
}
