/** The headless browser both handlers drive, seen only from outside: what
    visiting a URL does, the HTML of the loaded page, and the image a
    screenshot gives. Puppeteer and Chromium are not modelled; their answers
    are fixed functions of the URL and the options, and the browser keeps the
    list of URLs it was asked to visit. */
module Chromium {
  import opened Number
  import opened Finish

  /** What `chromium.visit(url)` does: it opens the page, it resolves to an
      object with a truthy `err`, or it throws. */
  datatype Visit = Opened | VisitError(err: ErrorInfo) | VisitThrew

  /** The `fullPage` option: `true` by default, otherwise the string the
      query gave. */
  datatype FullPage = FullPageTrue | FullPageGiven(text: string)

  /** The options object `{ type, quality, fullPage }` given to
      `page.screenshot`. */
  datatype ShotOptions = ShotOptions(imageType: string, quality: IntValue, fullPage: FullPage)

  /** What `page.screenshot(options)` (followed by `browser.close()`) does:
      it gives the image, or it throws. */
  datatype Capture = Captured(file: string) | CaptureThrew

  class Browser {
    /** What a visit of each URL does. */
    const pages: string -> Visit
    /** `page.content()` of each URL once opened. */
    const content: string -> string
    /** What a screenshot of each URL with each options object does. */
    const shots: (string, ShotOptions) -> Capture
    /** Every URL visited so far, in order. */
    var visited: seq<string>

    constructor (pages: string -> Visit, content: string -> string, shots: (string, ShotOptions) -> Capture)
      ensures this.pages == pages && this.content == content && this.shots == shots
      ensures visited == []
    {
      this.pages := pages;
      this.content := content;
      this.shots := shots;
      visited := [];
    }

    /** `chromium.visit(url)` */
    method Visit(url: string) returns (v: Visit)
      modifies this
      ensures v == pages(url)
      ensures visited == old(visited) + [url]
    {
      v := pages(url);
      visited := visited + [url];
    }

    /** `page.content()` on the page a visit of `url` opened. */
    method Content(url: string) returns (html: string)
      requires pages(url).Opened?
      ensures html == content(url)
    {
      html := content(url);
    }

    /** `page.screenshot(options)` on the page a visit of `url` opened. */
    method Screenshot(url: string, options: ShotOptions) returns (c: Capture)
      requires pages(url).Opened?
      ensures c == shots(url, options)
    {
      c := shots(url, options);
    }
  }
}
