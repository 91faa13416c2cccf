/**
 * The development server's single-page fallback (vite.config.ts): a request
 * that is neither for the API nor for a file (its URL has no ".") is served
 * the application's index page, so the client router can take the path.
 */
module DevServer {
  import opened Text

  const IndexPage: string := "/index.html"

  /** The fallback applies to a URL outside "/api" with no "." in it. */
  predicate ShouldRewrite(url: string) {
    !StartsWith(url, "/api") && !Includes(url, '.')
  }

  /** The URL the following middlewares see. */
  function Rewritten(url: string): (r: string)
    ensures ShouldRewrite(url) ==> r == IndexPage
    ensures !ShouldRewrite(url) ==> r == url
    ensures StartsWith(r, "/api") || Includes(r, '.')
  {
    if ShouldRewrite(url) then
      assert IndexPage[6] == '.';
      IndexPage
    else url
  }

  /** Rewriting twice is rewriting once: the index page itself contains a ".". */
  lemma RewriteIdempotent(url: string)
    ensures Rewritten(Rewritten(url)) == Rewritten(url)
  {
  }

  /** API requests and dotted asset paths reach the next middleware unchanged. */
  lemma ApiAndAssetsUntouched(url: string)
    requires StartsWith(url, "/api") || Includes(url, '.')
    ensures Rewritten(url) == url
  {
  }

  /** A client route such as "/leads" is served the index page. */
  lemma ClientRouteServesIndex()
    ensures Rewritten("/leads") == IndexPage
    ensures Rewritten("/api/leads") == "/api/leads"
    ensures Rewritten("/assets/app.js") == "/assets/app.js"
  {
    assert !StartsWith("/leads", "/api") by {
      assert "/leads"[..4] != "/api" by { assert "/leads"[1] == 'l'; }
    }
    assert '.' !in "/leads";
    assert "/api/leads"[..4] == "/api";
    assert "/assets/app.js"[11] == '.';
  }

  /** The incoming request; the middleware overwrites its `url`. */
  class Request {
    var url: string

    constructor (url: string)
      ensures this.url == url
    {
      this.url := url;
    }
  }

  /** The catch-all middleware: rewrite when it applies, then always hand on with `next()`. */
  method Fallback(req: Request) returns (nextCalled: bool)
    modifies req
    ensures req.url == Rewritten(old(req.url))
    ensures nextCalled
  {
    if !StartsWith(req.url, "/api") && !Includes(req.url, '.') {
      req.url := IndexPage;
    }
    nextCalled := true;
  }
}
