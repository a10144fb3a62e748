/** The decisions of client/src/services/api.js: the base URL of the axios
    instance, the request interceptor that attaches the session token, and
    the response interceptor that ends the session on a 401. The browser's
    `localStorage` and `window.location` are the fields of `Browser`. */
module Api {
  import opened JsValues

  const ApiSuffix := "/api"

  /** `import.meta.env.VITE_API_URL || ''`. */
  function BaseUrl(env: Option<string>): (r: string)
    ensures Truthy(env) ==> r == env.value
    ensures !Truthy(env) ==> r == ""
  {
    OrElse(env, "")
  }

  /** `API_URL`: the base as it is when it already ends with `/api`,
      otherwise with `/api` appended. */
  function ApiUrl(base: string): (r: string)
    ensures EndsWith(r, ApiSuffix)
    ensures r == base <==> EndsWith(base, ApiSuffix)
    ensures !EndsWith(base, ApiSuffix) ==> r == base + ApiSuffix
  {
    if EndsWith(base, ApiSuffix) then base
    else
      assert (base + ApiSuffix)[|base|..] == ApiSuffix;
      base + ApiSuffix
  }

  /** Normalising twice is normalising once. */
  lemma ApiUrlIdempotent(base: string)
    ensures ApiUrl(ApiUrl(base)) == ApiUrl(base)
  {
  }

  /** Without `VITE_API_URL` (or with it empty) requests go to `/api` on the
      page's own origin. */
  lemma EmptyBaseIsApi(env: Option<string>)
    requires !Truthy(env)
    ensures ApiUrl(BaseUrl(env)) == "/api"
  {
    assert !EndsWith("", ApiSuffix);
  }

  /** The `Authorization` header the request interceptor sets for the stored
      token (`localStorage.getItem` gives null for a missing key), if any. */
  function Authorization(token: Option<string>): (r: Option<string>)
    ensures r.Some? <==> Truthy(token)
    ensures r.Some? ==> |r.value| > 7 && r.value[..7] == "Bearer " && r.value[7..] == token.value
  {
    if Truthy(token) then Some("Bearer " + token.value) else None
  }

  /** The stored value under `key`, null when absent. */
  function GetItem(storage: map<string, string>, key: string): Option<string> {
    if key in storage then Some(storage[key]) else None
  }

  /** The 401 handler redirects unless the page is already an auth page. */
  predicate ShouldRedirect(pathname: string): (r: bool)
    ensures r <==> forall k :: !OccursAt(pathname, "/login", k) && !OccursAt(pathname, "/register", k)
  {
    ContainsAt(pathname, "/login");
    ContainsAt(pathname, "/register");
    !Contains(pathname, "/login") && !Contains(pathname, "/register")
  }

  /** `sub` occurs in `s` at position `k`. */
  predicate OccursAt(s: string, sub: string, k: int) {
    0 <= k <= |s| - |sub| && s[k..k + |sub|] == sub
  }

  lemma ShiftOccurs(s: string, sub: string, k: nat)
    requires s != []
    ensures OccursAt(s[1..], sub, k) <==> OccursAt(s, sub, k + 1)
  {
    if k + |sub| <= |s| - 1 {
      assert s[1..][k..k + |sub|] == s[k + 1..k + 1 + |sub|];
    }
  }

  /** `s.includes(sub)` holds exactly when `sub` occurs at some position. */
  lemma {:induction false} ContainsAt(s: string, sub: string)
    ensures Contains(s, sub) <==> exists k :: OccursAt(s, sub, k)
    decreases |s|
  {
    if s == [] {
      if Contains(s, sub) {
        assert OccursAt(s, sub, 0);
      }
    } else {
      ContainsAt(s[1..], sub);
      if IsPrefix(sub, s) {
        assert OccursAt(s, sub, 0);
      } else if Contains(s[1..], sub) {
        var k :| OccursAt(s[1..], sub, k);
        ShiftOccurs(s, sub, k);
      }
      if exists k :: OccursAt(s, sub, k) {
        var k :| OccursAt(s, sub, k);
        if k == 0 {
          assert IsPrefix(sub, s);
        } else {
          ShiftOccurs(s, sub, k - 1);
        }
      }
    }
  }

  /** The error a request rejects with; `status` is `error.response?.status`,
      undefined when no response arrived. */
  datatype ApiError = ApiError(status: Option<nat>, message: string)

  /** What the interceptors can see of the browser. */
  class Browser {
    var storage: map<string, string>
    var pathname: string
    var href: string

    constructor (storage: map<string, string>, pathname: string, href: string)
      ensures this.storage == storage && this.pathname == pathname && this.href == href
    {
      this.storage, this.pathname, this.href := storage, pathname, href;
    }
  }

  /** The request config the interceptor receives and returns. */
  class RequestConfig {
    var headers: map<string, string>

    constructor (headers: map<string, string>)
      ensures this.headers == headers
    {
      this.headers := headers;
    }
  }

  /** The request interceptor: a truthy stored token becomes the bearer
      `Authorization` header; otherwise the headers stay as they are. */
  method OnRequest(config: RequestConfig, browser: Browser) returns (r: RequestConfig)
    modifies config
    ensures r == config
    ensures match Authorization(GetItem(browser.storage, "token"))
      case Some(h) => config.headers == old(config.headers)["Authorization" := h]
      case None => config.headers == old(config.headers)
  {
    var token := GetItem(browser.storage, "token");
    if token.Some? && token.value != "" {
      config.headers := config.headers["Authorization" := "Bearer " + token.value];
    }
    r := config;
  }

  /** The response interceptor's error branch: a 401 removes the session and,
      away from the auth pages, sends the browser to `/login`; whatever the
      status, the same error is rejected again. */
  method OnResponseError(browser: Browser, error: ApiError) returns (rejected: ApiError)
    modifies browser
    ensures rejected == error && browser.pathname == old(browser.pathname)
    ensures error.status != Some(401) ==> browser.storage == old(browser.storage) && browser.href == old(browser.href)
    ensures error.status == Some(401) ==>
      && browser.storage == old(browser.storage) - {"token", "user"}
      && browser.href == (if ShouldRedirect(old(browser.pathname)) then "/login" else old(browser.href))
  {
    if error.status == Some(401) {
      browser.storage := browser.storage - {"token"};
      browser.storage := browser.storage - {"user"};
      if !Contains(browser.pathname, "/login") && !Contains(browser.pathname, "/register") {
        browser.href := "/login";
      }
    }
    rejected := error;
  }
}
