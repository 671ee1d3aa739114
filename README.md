# now-puppet: the target resolver and the two handlers

now-puppet serves two HTTP handlers that drive a headless browser. One renders a
page and returns its HTML. The other returns a screenshot of the page.
Both take the destination from the request path: `/<handler>/<target>`. This project
models the part of the service that is logic rather than browser calls:

- **`lib/util.js`** (module `LibUtil`) is the resolver factory the screenshot handler uses.
  - The factory refuses an empty handler name.
  - The util object keeps `_target`: the last target it resolved. It is a `class Util` with that field.
  - `parseTarget` does these steps:
    - takes the target out of the path;
    - refuses a target that contains the `Host` header;
    - normalises `BASE_URL` and composes an absolute URL;
    - moves every `_pq_` query option into `puppetQuery`, in a loop;
    - rebuilds the target as `protocol//host[?rest]` and checks that it has a hostname.
  - `getInt`, `endWithError` and `endWithCache` shape the numeric option and the response.
- **`util.js`** (module `SsrUtil`) is the older copy the render handler uses. Its prefix is `_ssr_`, and its `_stripQuery` is reproduced as written:
  - each control entry is stored under its value, not its key;
  - when other query entries remain, it returns a bare URL string. `parseTarget` then reads `sanitizedTarget` from that string, gets `undefined`, and `url.parse(undefined)` throws a TypeError.
- **`handler/screenshot.js`** (module `Screenshot`) covers:
  - the `type`, `quality` and `fullPage` option rules;
  - `getScreenshot`;
  - how the handler maps each outcome to the response.
- **`handler/render.js`** (module `Render`) covers:
  - the rewrite that inserts `<base href="protocol//hostname"/>` after the first `<head>`;
  - how the handler maps outcomes to the response, including the promise that rejects when `parseTarget` throws outside the `try`.

Supporting modules:

| module | contents |
|---|---|
| `Js` | the JavaScript string operations the code relies on: `startsWith`, `indexOf`/`includes`, `replace` with a string pattern, `split`/`join`, and how template literals show `null` and `undefined` |
| `Number` | `parseInt` and `getInt` |
| `Url` | the parsed-URL record and the query-object operations |
| `Target` | the steps both resolver copies share word for word |
| `Finish` | the response object (`class ServerResponse`) and the error descriptors |
| `Chromium` | the browser as an oracle that logs the URLs it visits |

External inputs are explicit parameters:

- `process.env.BASE_URL` is `baseUrl: Option<string>`.
- The `Host` header is a field of `Request`.
- Node's `url.parse` is a parameter `parse: UrlParser`. It gives the protocol, host, hostname and the query entries in the query object's key order.
- The browser's answers are fixed functions held by a `Browser` object.

Two details of the code's output are worth stating plainly:

- The target is rebuilt from protocol, host and query only, so its path is dropped: `/screenshot/example.com/path?q=1&_pq_quality=50` resolves to `http://example.com?q=1` (`LibUtil.ExampleControlOption`).
- The render handler inserts `<base href="http://example.org"/>`: no slash after the host, and a self-closing tag (`Render.BaseTagExample`).

## Model

| member | source | states |
|---|---|---|
| LibUtil.MakeUtil | lib/util.js:9-16 | An absent or empty handler name fails with 'handlerName argument must not be empty'. Any other name gives a fresh util with that name and `_target` set to '<target not set>'. |
| LibUtil.Util.constructor | lib/util.js:14-16 | A new util holds the handler name, and its `_target` is '<target not set>'. |
| Number.GetInt | lib/util.js:18-20 | `getInt(s)` is undefined exactly when the text of `s` contains no decimal digit. A missing value is tested as the text "undefined". |
| Number.GetIntOfDigits | util.js:4-6 | On a non-empty string of decimal digits, `getInt` gives its decimal value. The util.js copy is the same function. |
| Number.ParseInt | lib/util.js:19 | `parseInt` of a string is never undefined: it is a number or NaN. |
| Number.SignedDigits | lib/util.js:19 | `parseInt` of an optional minus sign followed by decimal digits is that signed decimal value. |
| Number.GetIntOfIntToString | handler/screenshot.js:29-35 | `getInt` of a number's decimal text gives that number back. So the number shown in the quality error is the one parsed. |
| Number.GetIntZeroIsFalsy | handler/screenshot.js:29-30 | `getInt("0")` is 0, and 0 is falsy. |
| Number.NatToStringValue | lib/util.js:123 | The decimal text of `cacheMaxAge` is a non-empty digit string whose value is the number. |
| Js.IndexFrom | lib/util.js:56 | `indexOf` returns the first occurrence at or after the start index, or -1 exactly when there is none. |
| Js.Split | lib/util.js:51 | `split('/')` returns at least one piece, and no piece contains the separator. |
| Js.JoinSplit | lib/util.js:51-53 | Joining the pieces of a split with the same separator gives back the original string. |
| Js.SplitJoin | lib/util.js:51-53 | Splitting a join of separator-free pieces gives back the pieces. |
| Js.ReplacePrefix | lib/util.js:30 | `k.replace('_pq_', '')` on a key that starts with `_pq_` drops exactly that prefix. |
| Js.ReplaceFirstOccurrence | handler/render.js:14 | `replace` with a string pattern replaces the first occurrence only, and leaves the text before and after it unchanged. |
| Js.ReplaceFirstAbsent | handler/render.js:14 | `replace` leaves a string without the pattern unchanged. |
| Url.Stringify | lib/util.js:36-37 | `qs.stringify` of the remaining query is empty exactly when no entry remains. |
| Url.Delete | lib/util.js:32 | `delete query[k]` keeps exactly the entries whose key is not `k`. |
| Url.GetFirst | lib/util.js:31 | `query[k]` is the value of the entry with key `k`. |
| Url.DeleteOnly | lib/util.js:32 | Deleting a key that occurs once removes that entry and keeps the others in order. |
| Url.UnprefixedMembers | lib/util.js:28-34 | After the loop, the query holds exactly the entries whose key does not start with the prefix. |
| Url.UnprefixedStep | lib/util.js:29-33 | Each turn of the loop reads the value of a prefixed key and deletes exactly that entry. A key that is not prefixed stays. |
| Url.UnprefixedKeys | lib/util.js:36-41 | Every key that remains in the rebuilt query was a key of the original query and is not prefixed. |
| LibUtil.MovePuppetKeys | lib/util.js:27-34 | The loop produces `puppetQuery` equal to `PuppetQuery(keys)` and a remaining query equal to the `_pq_`-free entries in their original order. |
| LibUtil.StripQuery | lib/util.js:23-47 | `_stripQuery` returns that map, and `protocol//host`, with `?rest` only when entries remain. |
| LibUtil.PuppetQueryKeys | lib/util.js:28-33 | `k` is a key of `puppetQuery` exactly when `_pq_k` is a query key. Its value is the value of that entry. |
| LibUtil.PuppetQueryValues | lib/util.js:29-32 | Every `_pq_` entry of the query reaches `puppetQuery` under its key without the prefix, with its value unchanged. |
| LibUtil.Util.ParseTarget | lib/util.js:49-118 | `parseTarget` returns what the resolver specification gives. On success `_target` becomes the sanitized target; on every error it is unchanged. |
| LibUtil.ResolvedTarget | lib/util.js:95-117 | On success: the composed URL starts with `http`, and the target is `protocol//host` of it with the path dropped. `?rest` is present only when non-`_pq_` entries remain, and those entries are exactly the non-`_pq_` ones. The options are exactly the `_pq_` keys without the prefix. The target has a hostname. |
| LibUtil.InvalidUrlRejected | lib/util.js:97-106 | Once the URL is composed, the 400 'could not construct valid url' naming the composed URL is returned exactly when the sanitized target has no hostname. |
| LibUtil.ErrorCodes | lib/util.js:56-106 | An error without a code comes from the BASE_URL or composition step. Every other error is a 400. |
| LibUtil.RecursiveTargetRejected | lib/util.js:55-64 | The 400 'recursive url is not allowed' is returned exactly when the target contains the host header, whatever BASE_URL and the parser give. |
| LibUtil.ExampleControlOption | lib/util.js:23-47 | `/screenshot/example.com/path?q=1&_pq_quality=50` resolves to `http://example.com?q=1` with options `{quality: "50"}`. |
| LibUtil.ExampleRoundTrip | lib/util.js:81-117 | `/screenshot/http://a.com` with no BASE_URL resolves to `http://a.com` with no options. |
| LibUtil.Util.EndWithCache | lib/util.js:120-127 | The response gets the given status, the Content-Type, `Cache-Control: s-maxage=N, stale-while-revalidate` and the body. Other headers are kept. |
| LibUtil.Util.EndWithError | lib/util.js:129-141 | Missing fields become 500, '500 internal error' and 'uncaught exception'. The response gets Content-Type `text/plain` and the body `type: message`. |
| Finish.UncodedIsInternalError | lib/util.js:129-138 | An error with only a message is a 500 whose body is '500 internal error: ' followed by the message. |
| Finish.BadRequestEnding | lib/util.js:129-138 | A bad-request error is a 400 whose body is '400 bad request: ' followed by the message. |
| Finish.FailedForEnding | handler/screenshot.js:49-53 | An exception becomes a 500 whose body is "500 internal error: screenshot failed for target '<target>'.". |
| Target.TargetPathAfterHandler | lib/util.js:51-53 | The target is everything after the handler segment, its own slashes included. |
| Target.TargetPathHandlerOnly | lib/util.js:51-53 | A path with no second `/` gives the empty target. |
| Target.NormalizeBaseRule | lib/util.js:67-79 | An unset or empty BASE_URL, or one that starts with `http`, is used unchecked. Any other BASE_URL gets `http://` and must then have a hostname; otherwise there is an error with no code. |
| Target.ComposeRule | lib/util.js:81-93 | The four-row composition table on "starts with `http`". |
| Target.ComposedStartsWithHttp | lib/util.js:82-93 | Every composed URL starts with `http`. |
| Target.RecursiveFirst | util.js:38-47 | The recursion guard runs before composition, and no later step gives its error. |
| SsrUtil.MoveControlEntries | util.js:13-19 | The `forEach` builds `ssrQuery` equal to `SsrQuery(keys)`, keyed by value. It leaves exactly the entries without the `_ssr_` prefix, in order. |
| SsrUtil.StripQuery | util.js:9-30 | `_stripQuery` returns a bare `protocol//host?rest` string when entries remain. Otherwise it returns the record with `protocol//host`. |
| SsrUtil.ParseTarget | util.js:32-93 | `parseTarget` returns the resolver's result, or throws the TypeError of `url.parse(undefined)` when `_stripQuery` returned a string. |
| SsrUtil.SsrQueryKeyedByValue | util.js:14-18 | Each key of `ssrQuery` is its own stored value with the prefix removed, and that value is the value of a control entry. Each control entry's value, with the prefix removed, is a key. |
| SsrUtil.StripKeyedByValue | util.js:16 | `_ssr_type=jpeg` is stored as `{jpeg: "jpeg"}`, not as `{type: "jpeg"}`. |
| SsrUtil.ThrowsWhenQueryRemains | util.js:21-30 | Once composition succeeds, `parseTarget` throws exactly when some query entry is not an `_ssr_` control option. |
| SsrUtil.SanitizedWhenNoQueryRemains | util.js:26-29 | When only control entries are present, `parseTarget` returns. On success the target is `protocol//host` and the options are the by-value map. |
| SsrUtil.RecursiveTargetRejected | util.js:38-47 | The 400 'recursive url is not allowed' is returned exactly when the target contains the host header. |
| SsrUtil.InvalidUrlRejected | util.js:80-89 | Once the URL is composed and no non-control entry remains, the 400 'could not construct valid url' naming the composed URL is returned exactly when `protocol//host` has no hostname. |
| SsrUtil.BaseUrlWithAbsoluteTarget | util.js:64-76 | A truthy BASE_URL, with or without its own `http`, together with a target that starts with `http` is an error with no code, returned before the query is examined. |
| SsrUtil.EndWithError | util.js:95-105 | The same defaults and body as the lib copy: 500, '500 internal error', 'uncaught exception', and `type: message` as text/plain. |
| SsrUtil.EndWithCache | util.js:107-112 | Status, Content-Type, `Cache-Control: s-maxage=N, stale-while-revalidate` and body. |
| Chromium.Browser.Visit | chromium.js:8-37 | A visit answers what the browser does for that URL and records the URL. |
| Chromium.Browser.Content | handler/render.js:9 | `page.content()` is the HTML of the opened page. |
| Chromium.Browser.Screenshot | handler/screenshot.js:15 | `page.screenshot(options)` answers for that page and those options. |
| Screenshot.QualityRule | handler/screenshot.js:27-41 | Refused exactly when the parsed quality is truthy and outside 0..100, with a 400 that names it. An accepted truthy quality lies in 1..100 and forces jpeg. A falsy one keeps the given type, or `png` by default. |
| Screenshot.QualityForcesJpeg | handler/screenshot.js:29-41 | A quality of N in 1..100 gives a jpeg of quality N, whatever type was asked for. |
| Screenshot.QualityOutOfRangeRefused | handler/screenshot.js:31-37 | A quality of N outside 0..100 is refused with 'quality must be between 0 and 100 (inclusive). got N instead.'. |
| Screenshot.ZeroQualityKeepsType | handler/screenshot.js:27-30 | Quality "0" is passed on as 0 and does not force jpeg. |
| Screenshot.FullPageDefault | handler/screenshot.js:11-13 | `fullPage` is true exactly when it was not given. A given value is passed through as it is. |
| Screenshot.GetScreenshot | handler/screenshot.js:5-18 | A visit that returns an error is forwarded, and one that throws becomes a rejection. Otherwise the capture is taken with the defaulted `fullPage`. Exactly one visit is made. |
| Screenshot.Handle | handler/screenshot.js:20-55 | The response and the visits are those of the handler's specification. `_target` follows `parseTarget`. |
| Screenshot.VisitsOnlyWhenPlanned | handler/screenshot.js:21-43 | The browser is visited once, on the sanitized target, exactly when the target resolved and the quality was accepted. A resolver error is answered with no visit. |
| Screenshot.ErrorsForwarded | handler/screenshot.js:20-46 | A resolver error and a refused quality reach `endWithError` unchanged with no visit. An error a visit returns reaches it unchanged after that one visit. |
| Screenshot.ImageOnlyOnSuccess | handler/screenshot.js:43-48 | The answer is a cached 200 `image/<type>` exactly when the visit and the capture succeed. Every other answer is a plain-text error. |
| Screenshot.ThrowIsReportedAsFailure | handler/screenshot.js:49-53 | `getScreenshot` throws exactly when the visit throws, or the page opened and the capture throws. The handler then answers the 500 'screenshot failed for target' with the sanitized target, after that one visit. |
| Render.RenderTarget | handler/render.js:5-16 | `render` visits the target once. It answers the page's HTML with the base tag of the target's protocol and hostname, or rejects when no page opened. |
| Render.Handle | handler/render.js:18-35 | When `parseTarget` throws, the promise rejects with nothing visited and `res` unchanged. Otherwise `res` holds the specified answer. |
| Render.HeadGetsBase | handler/render.js:14 | Only the first `<head>` gets the base tag. The text before it and everything after it, including later `<head>`s, are unchanged. |
| Render.NoHeadUnchanged | handler/render.js:14 | HTML without a literal `<head>` (for example `<head lang="en">`) is returned as it was. |
| Render.BaseTagExample | handler/render.js:12-14 | For `http://example.org` the inserted text is `<head><base href="http://example.org"/>`. |
| Render.RejectsWhenQueryRemains | handler/render.js:18-22 | Once composition succeeds, the handler rejects exactly when a query entry other than an `_ssr_` option remains. It rejects with the TypeError. |
| Render.RejectsOnlyOnThrow | handler/render.js:18-22 | Only a throw from `parseTarget` rejects. A resolver error is answered by `endWithError` with no visit. |
| Render.HtmlOnlyOnSuccess | handler/render.js:24-34 | A resolved target is visited once. The answer is cached 200 `text/html` with the rewritten HTML exactly when the page opened; otherwise it is the 500 'screenshot failed for target'. |

## Left out

- The browser is not modelled. This covers Puppeteer and Chromium launch, the executable checks, navigation timeouts, and `page.screenshot`, `page.content` and `browser.close`. Visiting, reading the content and capturing are fixed functions of the URL and the options (`Chromium.Browser`).
- A failure of `browser.close()` is counted as a failed capture.
- Nothing is said about releasing the browser.
- Node's `url.parse` and `querystring` are not reimplemented; `url.parse` is a parameter. This leaves out:
  - percent-encoding and decoding;
  - host and port splitting;
  - array values for repeated query keys (`?a=1&a=2`);
  - the order `Object.keys` gives integer-like keys. The parser's entry order stands for it.
- Number.GetInt: `parseInt` is modelled on unbounded integers. This misses JavaScript number precision above 2^53 and the exponent form in which `${quality}` shows very large numbers.
- Js.ReplaceFirst: the special `$` patterns of a `replace` replacement string are not modelled. The render handler's replacement would only contain one if the protocol or hostname did.
- Error descriptors: `null` fields, and the `errorObject` property the screenshot handler attaches, are not modelled. A field is either present or undefined, and the defaults apply only to undefined fields.
- `console.log` diagnostics are left out.
- Asynchrony is modelled as a result: a rejected handler promise is the handler method's return value.
- Assignments to undeclared variables (`sanitizedTarget`, `hasHttpPrefix`) in sloppy mode create properties of the global object. Each `parseTarget` writes and then reads them with no `await` in between, so no other request can observe or change them meanwhile. They are modelled as locals, and requests are modelled one at a time.
- The image returned by a screenshot is a `string`, not a byte buffer.

## Findings

Both defects are in util.js, the copy the render handler loads. lib/util.js, the copy the screenshot handler loads, already behaves as evidently intended. The corrected members below are the ones about that copy. The render handler keeps the as-written behaviour, because that is the deployed code.

| source | as written | input that shows it | evidently intended | confidence | as-written member | corrected member |
|---|---|---|---|---|---|---|
| util.js:16 | Each control entry is stored under its value with the prefix removed. | The query `_ssr_type=jpeg` gives `{jpeg: "jpeg"}`. | Store it under the key without the prefix: `{type: "jpeg"}`. | not executed | SsrUtil.StripKeyedByValue | LibUtil.PuppetQueryKeys |
| util.js:22-24 | When a non-control entry remains, a bare string is returned. `parseTarget` then calls `url.parse(undefined)`, which throws outside the handler's `try`. | `/render/example.com?q=1` makes the handler's promise reject, and no response is written. | Return the record with `protocol//host?rest` as the sanitized target. | not executed | SsrUtil.ThrowsWhenQueryRemains | LibUtil.ResolvedTarget |
