/** util.js: the older, module-level copy of the resolver used by the render
    handler. Its control prefix is `_ssr_`, and its `_stripQuery` differs
    from the lib/util.js one in two ways: each control entry is stored under
    its VALUE with the prefix removed, not under its key; and when any other
    query entry remains it returns a bare URL string instead of
    `{ ssrQuery, sanitizedTarget }`. `parseTarget` then destructures a string,
    gets `undefined` for `sanitizedTarget`, and Node's `url.parse(undefined)`
    throws a TypeError. */
module SsrUtil {
  import opened Js
  import opened Url
  import opened Finish
  import opened Target

  const SSR_PREFIX := "_ssr_"

  /** What `url.parse(undefined)` throws, as the error shows itself. */
  const URL_NOT_A_STRING := "TypeError [ERR_INVALID_ARG_TYPE]: The \"url\" argument must be of type string. Received undefined"

  /** The two shapes `_stripQuery` returns. */
  datatype Stripped = Bare(url: string) | Record(ssrQuery: map<string, string>, sanitizedTarget: string)

  /** What `parseTarget` does: return a value, or throw. */
  datatype Attempt = Returned(result: Result<Resolved, ErrorInfo>) | Threw(error: string)

  /** The `ssrQuery` map as util.js builds it: each control entry's value,
      with the first occurrence of the prefix removed, maps to that value. */
  function SsrQuery(q: seq<Pair>, prefix: string): map<string, string> {
    if q == [] then map[]
    else
      var m := SsrQuery(q[..|q| - 1], prefix);
      var last := q[|q| - 1];
      if StartsWith(last.0, prefix) then m[ReplaceFirst(last.1, prefix, "") := last.1] else m
  }

  /** What `_stripQuery` returns for a parsed URL: a bare string when entries
      other than control ones remain, the record otherwise. */
  function StripResult(p: ParsedUrl, prefix: string): Stripped {
    var rest := Unprefixed(p.query, prefix);
    if rest != [] then Bare(Rebuild(p.protocol, p.host, rest))
    else Record(SsrQuery(p.query, prefix), Rebuild(p.protocol, p.host, []))
  }

  /** What `parseTarget(req)` does, with `process.env.BASE_URL` as `baseUrl`. */
  function Resolve(req: Request, baseUrl: Option<string>, parse: UrlParser): Attempt {
    match Composed(req, baseUrl, parse)
    case Failure(e) => Returned(Failure(e))
    case Success(target) =>
      match StripResult(parse(target), SSR_PREFIX)
      case Bare(_) => Threw(URL_NOT_A_STRING)
      case Record(ssrQuery, sanitized) =>
        if !Truthy(parse(sanitized).hostname) then Returned(Failure(InvalidUrl(target)))
        else Returned(Success(Resolved(sanitized, ssrQuery)))
  }

  /** `_stripQuery(targetURL, prefix)` */
  method StripQuery(targetUrl: string, parse: UrlParser, prefix: string) returns (r: Stripped)
    ensures r == StripResult(parse(targetUrl), prefix)
  {
    var p := parse(targetUrl);
    var ssrQuery, query := MoveControlEntries(p.query, prefix);
    var newQuery := Stringify(query);
    if |newQuery| > 0 {
      return Bare(ShowNull(p.protocol) + "//" + ShowNull(p.host) + "?" + newQuery);
    }
    return Record(ssrQuery, ShowNull(p.protocol) + "//" + ShowNull(p.host));
  }

  /** The `forEach` of `_stripQuery`: each key of the query object that
      starts with the prefix has `ssrQuery[query[k].replace(prefix, '')]`
      set to its value and is deleted from the query. */
  method MoveControlEntries(keys: Query, prefix: string) returns (ssrQuery: map<string, string>, query: seq<Pair>)
    ensures ssrQuery == SsrQuery(keys, prefix)
    ensures query == Unprefixed(keys, prefix)
  {
    query := keys;
    ssrQuery := map[];
    var i := 0;
    while i < |keys|
      invariant 0 <= i <= |keys|
      invariant ssrQuery == SsrQuery(keys[..i], prefix)
      invariant query == Unprefixed(keys[..i], prefix) + keys[i..]
    {
      var k := keys[i].0;
      UnprefixedStep(keys, i, prefix);
      SsrQueryStep(keys, i, prefix);
      if StartsWith(k, prefix) {
        var value := Get(query, k);
        ssrQuery := ssrQuery[ReplaceFirst(value, prefix, "") := value];
        query := Delete(query, k);
      }
      i := i + 1;
    }
    assert keys[..i] == keys;
  }

  /** `parseTarget(req)`: the same steps as lib/util.js up to the composed
      URL, then the `_ssr_` stripping and the hostname check. There is no
      state to update. */
  method ParseTarget(req: Request, baseUrl: Option<string>, parse: UrlParser) returns (r: Attempt)
    ensures r == Resolve(req, baseUrl, parse)
  {
    var target := TargetPath(req.url);
    if IsRecursive(target, req.host) {
      return Returned(Failure(RECURSIVE_URL));
    }
    var base := baseUrl;
    if Truthy(base) && !StartsWith(base.value, "http") {
      base := Some("http://" + base.value);
      if !Truthy(parse(base.value).hostname) {
        return Returned(Failure(Uncoded("could not construct valid BASE_URL: " + base.value)));
      }
    }
    var hasHttpPrefix := StartsWith(target, "http");
    if !Truthy(base) && !hasHttpPrefix {
      target := "http://" + target;
    } else if Truthy(base) && !hasHttpPrefix {
      target := base.value + "/" + target;
    } else if Truthy(base) && StartsWith(target, "http") {
      return Returned(Failure(Uncoded("target URL must not start with http because BASE_URL is set. BASE_URL: " + base.value)));
    }
    var stripped := StripQuery(target, parse, SSR_PREFIX);
    if stripped.Bare? {
      // `const { sanitizedTarget, ssrQuery } = <string>` leaves both undefined
      return Threw(URL_NOT_A_STRING);
    }
    if !Truthy(parse(stripped.sanitizedTarget).hostname) {
      return Returned(Failure(InvalidUrl(target)));
    }
    return Returned(Success(Resolved(stripped.sanitizedTarget, stripped.ssrQuery)));
  }

  /** `endWithError(res, err)` */
  method EndWithError(res: ServerResponse, err: ErrorInfo)
    modifies res
    ensures res.Shows(ErrorEnding(err), old(res.headers))
  {
    var e := ErrorEnding(err);
    res.statusCode := e.status;
    res.SetHeader("Content-Type", "text/plain");
    res.End(e.body);
  }

  /** `endWithCache(res, code, contentType, body, cacheMaxAge)` */
  method EndWithCache(res: ServerResponse, code: int, contentType: string, body: string, maxAge: nat)
    modifies res
    ensures res.Shows(CacheEnding(code, contentType, body, maxAge), old(res.headers))
  {
    res.statusCode := code;
    res.SetHeader("Content-Type", contentType);
    res.SetHeader("Cache-Control", CacheControl(maxAge));
    res.End(body);
  }

  // ---------------------------------------------------------------------

  /** One more entry of the query is written last. */
  lemma SsrQueryStep(q: seq<Pair>, i: nat, prefix: string)
    requires i < |q|
    ensures SsrQuery(q[..i + 1], prefix) == if StartsWith(q[i].0, prefix)
                                             then SsrQuery(q[..i], prefix)[ReplaceFirst(q[i].1, prefix, "") := q[i].1]
                                             else SsrQuery(q[..i], prefix)
  {
    assert q[..i + 1][..i] == q[..i];
  }

  /** The values of a query's control entries. */
  function ControlValues(q: seq<Pair>, prefix: string): set<string> {
    set e | e in q && StartsWith(e.0, prefix) :: e.1
  }

  /** `ssrQuery` is keyed by values: every key of it is the value stored
      under it with the prefix removed, and that value is the value of a
      control entry; every control entry's value, prefix removed, is a key. */
  lemma {:induction false} SsrQueryKeyedByValue(q: seq<Pair>, prefix: string)
    ensures var m := SsrQuery(q, prefix);
            && (forall key :: key in m ==> ReplaceFirst(m[key], prefix, "") == key && m[key] in ControlValues(q, prefix))
            && (forall v :: v in ControlValues(q, prefix) ==> ReplaceFirst(v, prefix, "") in m)
    decreases |q|
  {
    if q != [] {
      var init, last := q[..|q| - 1], q[|q| - 1];
      assert q == init + [last];
      SsrQueryKeyedByValue(init, prefix);
      var c0, c := ControlValues(init, prefix), ControlValues(q, prefix);
      assert c == c0 + (if StartsWith(last.0, prefix) then {last.1} else {}) by {
        forall v ensures v in c <==> v in c0 + (if StartsWith(last.0, prefix) then {last.1} else {}) {
          if v in c {
            var e :| e in q && StartsWith(e.0, prefix) && e.1 == v;
            if e != last {
              assert e in init;
            }
          }
          if v in c0 {
            var e :| e in init && StartsWith(e.0, prefix) && e.1 == v;
            assert e in q;
          }
        }
      }
    }
  }

  /** The `_ssr_type=jpeg` control option ends up under "jpeg", not "type". */
  lemma StripKeyedByValue()
    ensures SsrQuery([("_ssr_type", "jpeg")], SSR_PREFIX) == map["jpeg" := "jpeg"]
  {
    var q: seq<Pair> := [("_ssr_type", "jpeg")];
    assert q[..0] == [];
    assert StartsWith("_ssr_type", SSR_PREFIX);
    assert IndexOf("jpeg", SSR_PREFIX) == -1;
  }

  /** `_stripQuery` returns the bare string exactly when some entry other
      than a control one remains; and then `parseTarget` throws. */
  lemma ThrowsWhenQueryRemains(req: Request, baseUrl: Option<string>, parse: UrlParser)
    requires Composed(req, baseUrl, parse).Success?
    ensures var t := Composed(req, baseUrl, parse).value;
            Resolve(req, baseUrl, parse).Threw?
            <==> exists e :: e in parse(t).query && !StartsWith(e.0, SSR_PREFIX)
  {
    var t := Composed(req, baseUrl, parse).value;
    var q := parse(t).query;
    UnprefixedMembers(q, SSR_PREFIX);
    if Unprefixed(q, SSR_PREFIX) != [] {
      assert Unprefixed(q, SSR_PREFIX)[0] in Unprefixed(q, SSR_PREFIX);
    }
  }

  /** When only control entries (or none) are in the query, `parseTarget`
      returns normally, and on success the target is `protocol//host` of
      the composed URL, with neither path nor query. */
  lemma SanitizedWhenNoQueryRemains(req: Request, baseUrl: Option<string>, parse: UrlParser)
    requires Composed(req, baseUrl, parse).Success?
    requires var t := Composed(req, baseUrl, parse).value;
             forall e :: e in parse(t).query ==> StartsWith(e.0, SSR_PREFIX)
    ensures Resolve(req, baseUrl, parse).Returned?
    ensures var t := Composed(req, baseUrl, parse).value;
            var r := Resolve(req, baseUrl, parse).result;
            r.Success? ==> r.value.target == ShowNull(parse(t).protocol) + "//" + ShowNull(parse(t).host)
                           && r.value.options == SsrQuery(parse(t).query, SSR_PREFIX)
  {
    var t := Composed(req, baseUrl, parse).value;
    var q := parse(t).query;
    UnprefixedMembers(q, SSR_PREFIX);
    var u := Unprefixed(q, SSR_PREFIX);
    assert forall i | 0 <= i < |u| :: u[i] in u;
  }

  /** The recursion guard runs first here too: a target containing the host
      header gives the 400 'recursive url is not allowed' whatever BASE_URL
      and the parser say, and no other input gives it. */
  lemma RecursiveTargetRejected(req: Request, baseUrl: Option<string>, parse: UrlParser)
    ensures Resolve(req, baseUrl, parse) == Returned(Failure(RECURSIVE_URL))
            <==> IsRecursive(TargetPath(req.url), req.host)
  {
    RecursiveFirst(req, baseUrl, parse);
    var c := Composed(req, baseUrl, parse);
    if c.Success? {
      var m := "could not construct valid url: " + c.value;
      assert m[0] == 'c';
      assert RECURSIVE_URL.message.value[0] == 'r';
    }
  }

  /** The hostname check: once the URL is composed and `_stripQuery`
      returned the record, the 400 'could not construct valid url' naming the
      composed URL is returned exactly when `protocol//host` has no hostname. */
  lemma InvalidUrlRejected(req: Request, baseUrl: Option<string>, parse: UrlParser)
    requires Composed(req, baseUrl, parse).Success?
    requires StripResult(parse(Composed(req, baseUrl, parse).value), SSR_PREFIX).Record?
    ensures var t := Composed(req, baseUrl, parse).value;
            var p := parse(t);
            Resolve(req, baseUrl, parse) == Returned(Failure(InvalidUrl(t)))
            <==> !Truthy(parse(ShowNull(p.protocol) + "//" + ShowNull(p.host)).hostname)
  {
    var t := Composed(req, baseUrl, parse).value;
    var p := parse(t);
    assert Rebuild(p.protocol, p.host, []) == ShowNull(p.protocol) + "//" + ShowNull(p.host);
  }

  /** BASE_URL together with a target that starts with `http` is an error
      with no code, before the query is looked at. */
  lemma BaseUrlWithAbsoluteTarget(req: Request, baseUrl: Option<string>, parse: UrlParser)
    requires !IsRecursive(TargetPath(req.url), req.host)
    requires Truthy(baseUrl) && NormalizeBase(baseUrl, parse).Success?
    requires StartsWith(TargetPath(req.url), "http")
    ensures Resolve(req, baseUrl, parse).Returned?
    ensures Resolve(req, baseUrl, parse).result.Failure?
    ensures Resolve(req, baseUrl, parse).result.error.code == None
  {
  }
}
