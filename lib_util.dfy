/** lib/util.js: the util factory used by the screenshot handler. Each util
    object remembers the handler name and the last target it resolved; its
    `parseTarget` moves every `_pq_` query key into the `puppetQuery` map. */
module LibUtil {
  import opened Js
  import opened Url
  import opened Finish
  import opened Target

  const PUPPET_QUERY_PREFIX := "_pq_"
  const TARGET_NOT_SET := "<target not set>"
  const EMPTY_HANDLER_NAME := "handlerName argument must not be empty"

  /** The `puppetQuery` map built from a query: each `_pq_` key, with the
      prefix removed, mapped to its value; later entries are written last. */
  function PuppetQuery(q: seq<Pair>): map<string, string> {
    if q == [] then map[]
    else
      var m := PuppetQuery(q[..|q| - 1]);
      var last := q[|q| - 1];
      if StartsWith(last.0, PUPPET_QUERY_PREFIX) then m[last.0[|PUPPET_QUERY_PREFIX|..] := last.1] else m
  }

  /** What `parseTarget` returns, in the order of its steps: the composed URL
      has its query stripped and is rebuilt as `protocol//host[?rest]`, which
      must have a hostname. */
  function Resolve(req: Request, baseUrl: Option<string>, parse: UrlParser): Result<Resolved, ErrorInfo> {
    match Composed(req, baseUrl, parse)
    case Failure(e) => Failure(e)
    case Success(target) =>
      var p := parse(target);
      var sanitized := Rebuild(p.protocol, p.host, Unprefixed(p.query, PUPPET_QUERY_PREFIX));
      if !Truthy(parse(sanitized).hostname) then Failure(InvalidUrl(target))
      else Success(Resolved(sanitized, PuppetQuery(p.query)))
  }

  /** `_stripQuery(targetURL)`: moves the `_pq_` entries of the parsed query
      into `puppetQuery`, then rebuilds the URL from what is left. */
  method StripQuery(targetUrl: string, parse: UrlParser) returns (puppetQuery: map<string, string>, sanitizedTarget: string)
    ensures var p := parse(targetUrl);
            puppetQuery == PuppetQuery(p.query)
            && sanitizedTarget == Rebuild(p.protocol, p.host, Unprefixed(p.query, PUPPET_QUERY_PREFIX))
  {
    var p := parse(targetUrl);
    var query;
    puppetQuery, query := MovePuppetKeys(p.query);
    var newQuery := Stringify(query);
    if |newQuery| > 0 {
      sanitizedTarget := ShowNull(p.protocol) + "//" + ShowNull(p.host) + "?" + newQuery;
    } else {
      sanitizedTarget := ShowNull(p.protocol) + "//" + ShowNull(p.host);
    }
  }

  /** The loop of `_stripQuery`: for each key of the query object, in order,
      a `_pq_` key is copied into `puppetQuery` under `k.replace('_pq_', '')`
      and deleted from the query. */
  method MovePuppetKeys(keys: Query) returns (puppetQuery: map<string, string>, query: seq<Pair>)
    ensures puppetQuery == PuppetQuery(keys)
    ensures query == Unprefixed(keys, PUPPET_QUERY_PREFIX)
  {
    query := keys;
    puppetQuery := map[];
    var i := 0;
    while i < |keys|
      invariant 0 <= i <= |keys|
      invariant puppetQuery == PuppetQuery(keys[..i])
      invariant query == Unprefixed(keys[..i], PUPPET_QUERY_PREFIX) + keys[i..]
    {
      var k := keys[i].0;
      UnprefixedStep(keys, i, PUPPET_QUERY_PREFIX);
      PuppetQueryStep(keys, i);
      if StartsWith(k, PUPPET_QUERY_PREFIX) {
        ReplacePrefix(k, PUPPET_QUERY_PREFIX);
        var key := ReplaceFirst(k, PUPPET_QUERY_PREFIX, "");
        puppetQuery := puppetQuery[key := Get(query, k)];
        query := Delete(query, k);
      }
      i := i + 1;
    }
    assert keys[..i] == keys;
  }

  /** One more entry of the query is written last. */
  lemma PuppetQueryStep(q: seq<Pair>, i: nat)
    requires i < |q|
    ensures PuppetQuery(q[..i + 1]) == if StartsWith(q[i].0, PUPPET_QUERY_PREFIX)
                                        then PuppetQuery(q[..i])[q[i].0[|PUPPET_QUERY_PREFIX|..] := q[i].1]
                                        else PuppetQuery(q[..i])
  {
    assert q[..i + 1][..i] == q[..i];
  }

  /** The object the factory returns. */
  class Util {
    const handlerName: string
    /** `_target`: the last target resolved, for the log lines. */
    var currentTarget: string

    constructor (handlerName: string)
      requires handlerName != ""
      ensures this.handlerName == handlerName && currentTarget == TARGET_NOT_SET
    {
      this.handlerName := handlerName;
      currentTarget := TARGET_NOT_SET;
    }

    /** `parseTarget(req)`, with `process.env.BASE_URL` as `baseUrl`. On
        success `_target` becomes the sanitized target; on every error path
        it is left as it was. */
    method ParseTarget(req: Request, baseUrl: Option<string>, parse: UrlParser)
      returns (r: Result<Resolved, ErrorInfo>)
      modifies this
      ensures r == Resolve(req, baseUrl, parse)
      ensures currentTarget == (if r.Success? then r.value.target else old(currentTarget))
    {
      var target := TargetPath(req.url);
      if IsRecursive(target, req.host) {
        return Failure(RECURSIVE_URL);
      }
      var base := baseUrl;
      if Truthy(base) && !StartsWith(base.value, "http") {
        base := Some("http://" + base.value);
        if !Truthy(parse(base.value).hostname) {
          return Failure(Uncoded("could not construct valid BASE_URL: " + base.value));
        }
      }
      var hasHttpPrefix := StartsWith(target, "http");
      if !Truthy(base) && !hasHttpPrefix {
        target := "http://" + target;
      } else if Truthy(base) && !hasHttpPrefix {
        target := base.value + "/" + target;
      } else if Truthy(base) && StartsWith(target, "http") {
        return Failure(Uncoded("target URL must not start with http because BASE_URL is set. BASE_URL: " + base.value));
      }
      var puppetQuery, sanitizedTarget := StripQuery(target, parse);
      if !Truthy(parse(sanitizedTarget).hostname) {
        return Failure(InvalidUrl(target));
      }
      currentTarget := sanitizedTarget;
      return Success(Resolved(sanitizedTarget, puppetQuery));
    }

    /** `endWithCache(res, code, contentType, body, cacheMaxAge)` */
    method EndWithCache(res: ServerResponse, code: int, contentType: string, body: string, maxAge: nat)
      modifies res
      ensures res.Shows(CacheEnding(code, contentType, body, maxAge), old(res.headers))
    {
      res.statusCode := code;
      res.SetHeader("Content-Type", contentType);
      res.SetHeader("Cache-Control", CacheControl(maxAge));
      res.End(body);
    }

    /** `endWithError(res, err)` */
    method EndWithError(res: ServerResponse, err: ErrorInfo)
      modifies res
      ensures res.Shows(ErrorEnding(err), old(res.headers))
    {
      var e := ErrorEnding(err);
      res.statusCode := e.status;
      res.SetHeader("Content-Type", "text/plain");
      res.End(e.body);
    }
  }

  /** The module's export: `require('lib/util')(handlerName)`. An absent or
      empty handler name throws; otherwise a util whose `_target` is
      '<target not set>'. */
  method MakeUtil(handlerName: Option<string>) returns (r: Result<Util, string>)
    ensures r.Failure? <==> !Truthy(handlerName)
    ensures r.Failure? ==> r.error == EMPTY_HANDLER_NAME
    ensures r.Success? ==> fresh(r.value) && r.value.handlerName == handlerName.value
                           && r.value.currentTarget == TARGET_NOT_SET
  {
    if !Truthy(handlerName) {
      return Failure(EMPTY_HANDLER_NAME);
    }
    var u := new Util(handlerName.value);
    return Success(u);
  }

  // ---------------------------------------------------------------------

  /** `puppetQuery` holds exactly the `_pq_` keys of the query, each under
      its key with the prefix removed: `k` is in it iff `_pq_k` is a query
      key, and then `(_pq_k, puppetQuery[k])` is an entry of the query. */
  lemma {:induction false} PuppetQueryKeys(q: seq<Pair>)
    ensures forall k :: k in PuppetQuery(q) <==> HasKey(q, PUPPET_QUERY_PREFIX + k)
    ensures forall k :: k in PuppetQuery(q) ==> (PUPPET_QUERY_PREFIX + k, PuppetQuery(q)[k]) in q
    decreases |q|
  {
    if q != [] {
      var init, last := q[..|q| - 1], q[|q| - 1];
      assert q == init + [last];
      PuppetQueryKeys(init);
      var m := PuppetQuery(init);
      forall k ensures k in PuppetQuery(q) <==> HasKey(q, PUPPET_QUERY_PREFIX + k) {
        if HasKey(q, PUPPET_QUERY_PREFIX + k) {
          var i :| 0 <= i < |q| && q[i].0 == PUPPET_QUERY_PREFIX + k;
          if i < |init| {
            assert init[i] == q[i];
          } else {
            assert (PUPPET_QUERY_PREFIX + k)[|PUPPET_QUERY_PREFIX|..] == k;
          }
        }
        if k in PuppetQuery(q) && k !in m {
          assert last.0[|PUPPET_QUERY_PREFIX|..] == k;
          assert PUPPET_QUERY_PREFIX + k == last.0;
          assert q[|q| - 1].0 == PUPPET_QUERY_PREFIX + k;
        }
        if k in m {
          var i :| 0 <= i < |init| && init[i].0 == PUPPET_QUERY_PREFIX + k;
          assert q[i] == init[i];
        }
      }
      forall k | k in PuppetQuery(q) ensures (PUPPET_QUERY_PREFIX + k, PuppetQuery(q)[k]) in q {
        if StartsWith(last.0, PUPPET_QUERY_PREFIX) && k == last.0[|PUPPET_QUERY_PREFIX|..] {
          assert PUPPET_QUERY_PREFIX + k == last.0;
        }
      }
    }
  }

  /** Every `_pq_` entry of a query object reaches `puppetQuery` with its
      value unchanged, under its key without the prefix. */
  lemma PuppetQueryValues(q: Query)
    ensures forall i :: 0 <= i < |q| && StartsWith(q[i].0, PUPPET_QUERY_PREFIX)
              ==> q[i].0[|PUPPET_QUERY_PREFIX|..] in PuppetQuery(q)
                  && PuppetQuery(q)[q[i].0[|PUPPET_QUERY_PREFIX|..]] == q[i].1
  {
    PuppetQueryKeys(q);
    var m := PuppetQuery(q);
    forall i | 0 <= i < |q| && StartsWith(q[i].0, PUPPET_QUERY_PREFIX)
      ensures q[i].0[|PUPPET_QUERY_PREFIX|..] in m && m[q[i].0[|PUPPET_QUERY_PREFIX|..]] == q[i].1
    {
      var k := q[i].0[|PUPPET_QUERY_PREFIX|..];
      assert PUPPET_QUERY_PREFIX + k == q[i].0;
      assert HasKey(q, PUPPET_QUERY_PREFIX + k);
      var j :| 0 <= j < |q| && q[j] == (PUPPET_QUERY_PREFIX + k, m[k]);
      assert j == i;
    }
  }

  /** A successful resolution: the composed URL starts with `http`; the
      target is `protocol//host` of that URL, with `?rest` only when query
      entries other than `_pq_` ones remain, and those are exactly the
      non-`_pq_` entries; the options are exactly the `_pq_` keys with the
      prefix removed; and the target has a hostname. */
  lemma ResolvedTarget(req: Request, baseUrl: Option<string>, parse: UrlParser)
    requires Resolve(req, baseUrl, parse).Success?
    ensures var r := Resolve(req, baseUrl, parse).value;
            var t := Composed(req, baseUrl, parse).value;
            var p := parse(t);
            var rest := Unprefixed(p.query, PUPPET_QUERY_PREFIX);
            && Composed(req, baseUrl, parse).Success?
            && StartsWith(t, "http")
            && r.target == ShowNull(p.protocol) + "//" + ShowNull(p.host)
                           + (if rest == [] then "" else "?" + Stringify(rest))
            && (forall e :: e in rest <==> e in p.query && !StartsWith(e.0, PUPPET_QUERY_PREFIX))
            && (forall k :: k in r.options <==> HasKey(p.query, PUPPET_QUERY_PREFIX + k))
            && (forall k :: k in r.options ==> (PUPPET_QUERY_PREFIX + k, r.options[k]) in p.query)
            && Truthy(parse(r.target).hostname)
  {
    ComposedStartsWithHttp(req, baseUrl, parse);
    var t := Composed(req, baseUrl, parse).value;
    PuppetQueryKeys(parse(t).query);
    UnprefixedMembers(parse(t).query, PUPPET_QUERY_PREFIX);
  }

  /** Every error of `parseTarget` that carries no code (a bad BASE_URL, or
      BASE_URL together with a target that starts with `http`) is one of
      the configuration errors of the composition; the remaining errors are
      the two 400s. */
  lemma ErrorCodes(req: Request, baseUrl: Option<string>, parse: UrlParser)
    requires Resolve(req, baseUrl, parse).Failure?
    ensures var e := Resolve(req, baseUrl, parse).error;
            (e.code == None <==> Composed(req, baseUrl, parse) == Failure(e) && e != RECURSIVE_URL)
            && (e.code != None ==> e.code == Some(400))
  {
  }

  /** The hostname check: once the URL is composed, the 400 'could not
      construct valid url' naming the composed URL is returned exactly when
      the sanitized target has no hostname. */
  lemma InvalidUrlRejected(req: Request, baseUrl: Option<string>, parse: UrlParser)
    requires Composed(req, baseUrl, parse).Success?
    ensures var t := Composed(req, baseUrl, parse).value;
            var p := parse(t);
            Resolve(req, baseUrl, parse) == Failure(InvalidUrl(t))
            <==> !Truthy(parse(Rebuild(p.protocol, p.host, Unprefixed(p.query, PUPPET_QUERY_PREFIX))).hostname)
  {
  }

  /** The recursion guard comes first: a target containing the host header
      is refused with the 400 'recursive url is not allowed' whatever
      BASE_URL and the parser say, and no other input gives that error. */
  lemma RecursiveTargetRejected(req: Request, baseUrl: Option<string>, parse: UrlParser)
    ensures Resolve(req, baseUrl, parse) == Failure(RECURSIVE_URL)
            <==> IsRecursive(TargetPath(req.url), req.host)
  {
    RecursiveFirst(req, baseUrl, parse);
    var c := Composed(req, baseUrl, parse);
    if c.Success? {
      var m := "could not construct valid url: " + c.value;
      assert m[0] == 'c';
      assert RECURSIVE_URL.message.value[0] == 'r';
    }
  }

  /** A relative target with a path, a plain query entry and one control
      option. */
  const EXAMPLE_TARGET := "example.com/path?q=1&_pq_quality=50"

  /** `/screenshot/example.com/path?q=1&_pq_quality=50`, with no BASE_URL
      and a parser that reads the URL the usual way, resolves to
      `http://example.com?q=1` (the path is dropped) with the option
      `quality` = "50". */
  lemma ExampleControlOption(parse: UrlParser)
    requires parse("http://" + EXAMPLE_TARGET)
             == ParsedUrl(Some("http:"), Some("example.com"), Some("example.com"), [("q", "1"), ("_pq_quality", "50")])
    requires parse("http://example.com?q=1").hostname == Some("example.com")
    ensures Resolve(Request("/screenshot/" + EXAMPLE_TARGET, Some("localhost:3000")), None, parse)
            == Success(Resolved("http://example.com?q=1", map["quality" := "50"]))
  {
    ExampleComposed(parse);
    ExampleStrip();
  }

  lemma ExampleComposed(parse: UrlParser)
    ensures Composed(Request("/screenshot/" + EXAMPLE_TARGET, Some("localhost:3000")), None, parse)
            == Success("http://" + EXAMPLE_TARGET)
  {
    ScreenshotPath(EXAMPLE_TARGET);
    ExampleNotRecursive();
    assert !StartsWith(EXAMPLE_TARGET, "http") by {
      assert EXAMPLE_TARGET[0] == 'e';
      assert |EXAMPLE_TARGET| >= 4 ==> EXAMPLE_TARGET[..4][0] == 'e';
    }
    ComposeRule(EXAMPLE_TARGET, None);
  }

  /** The target of a `/screenshot/...` request is what follows the prefix. */
  lemma ScreenshotPath(target: string)
    ensures TargetPath("/screenshot/" + target) == target
  {
    assert "/screenshot/" + target == "" + "/" + "screenshot" + "/" + target;
    TargetPathAfterHandler("", "screenshot", target);
  }

  lemma ExampleNotRecursive()
    ensures !IsRecursive(EXAMPLE_TARGET, Some("localhost:3000"))
  {
    assert ':' !in EXAMPLE_TARGET;
    NoColonNotRecursive(EXAMPLE_TARGET, "localhost:3000");
  }

  /** A target without a colon cannot contain a host header with a port. */
  lemma NoColonNotRecursive(target: string, host: string)
    requires ':' !in target && ':' in host
    ensures !IsRecursive(target, Some(host))
  {
    var c :| 0 <= c < |host| && host[c] == ':';
    forall j | 0 <= j ensures !OccursAt(target, host, j) {
      if j + |host| <= |target| {
        assert target[j..j + |host|][c] == target[j + c];
      }
    }
  }

  lemma ExampleStrip()
    ensures var q: seq<Pair> := [("q", "1"), ("_pq_quality", "50")];
            Rebuild(Some("http:"), Some("example.com"), Unprefixed(q, PUPPET_QUERY_PREFIX)) == "http://example.com?q=1"
            && PuppetQuery(q) == map["quality" := "50"]
  {
    ExampleUnprefixed();
    ExampleRebuild();
    ExamplePuppetQuery();
  }

  lemma ExampleUnprefixed()
    ensures Unprefixed([("q", "1"), ("_pq_quality", "50")], PUPPET_QUERY_PREFIX) == [("q", "1")]
  {
    var q: seq<Pair> := [("q", "1"), ("_pq_quality", "50")];
    assert StartsWith("_pq_quality", PUPPET_QUERY_PREFIX);
    assert !StartsWith("q", PUPPET_QUERY_PREFIX);
    assert q[..1] == [("q", "1")] && q[..1][..0] == [];
  }

  lemma ExampleRebuild()
    ensures Rebuild(Some("http:"), Some("example.com"), [("q", "1")]) == "http://example.com?q=1"
  {
    assert Stringify([("q", "1")]) == "q=1";
  }

  lemma ExamplePuppetQuery()
    ensures PuppetQuery([("q", "1"), ("_pq_quality", "50")]) == map["quality" := "50"]
  {
    var q: seq<Pair> := [("q", "1"), ("_pq_quality", "50")];
    assert StartsWith("_pq_quality", PUPPET_QUERY_PREFIX);
    assert !StartsWith("q", PUPPET_QUERY_PREFIX);
    assert q[..1] == [("q", "1")] && q[..1][..0] == [];
    assert "_pq_quality"[4..] == "quality";
  }

  /** With no BASE_URL and no control option, an absolute target that the
      parser reads back as itself resolves to itself with no options:
      `/screenshot/http://a.com` gives `http://a.com`. */
  lemma ExampleRoundTrip(parse: UrlParser)
    requires parse("http://a.com") == ParsedUrl(Some("http:"), Some("a.com"), Some("a.com"), [])
    ensures Resolve(Request("/screenshot/http://a.com", Some("localhost:3000")), None, parse)
            == Success(Resolved("http://a.com", map[]))
  {
    var target := "http://a.com";
    var req := Request("/screenshot/http://a.com", Some("localhost:3000"));
    RoundTripSteps();
    assert Composed(req, None, parse) == Success(target);
  }

  lemma RoundTripSteps()
    ensures TargetPath("/screenshot/http://a.com") == "http://a.com"
    ensures !IsRecursive("http://a.com", Some("localhost:3000"))
    ensures StartsWith("http://a.com", "http") && Rebuild(Some("http:"), Some("a.com"), []) == "http://a.com"
  {
    RoundTripPath();
    RoundTripRebuild();
    var target := "http://a.com";
    assert IndexOf(target, "localhost:3000") == -1;
    assert target[..4] == "http";
  }

  lemma RoundTripPath()
    ensures TargetPath("/screenshot/http://a.com") == "http://a.com"
  {
    var target := "http://a.com";
    ScreenshotPath(target);
    assert "/screenshot/" + target == "/screenshot/http://a.com";
  }

  lemma RoundTripRebuild()
    ensures Rebuild(Some("http:"), Some("a.com"), []) == "http://a.com"
  {
    assert Stringify([]) == "";
    assert "http:" + "//" + "a.com" + "" == "http://a.com";
  }
}
