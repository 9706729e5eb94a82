/** The locale middleware (middleware.ts): requests whose path lacks a locale
    prefix are redirected to "/<locale>/..." and the chosen locale is stored in
    the NEXT_LOCALE cookie. */
module Middleware {
  import opened Wrappers
  import opened JsString

  const Locales: seq<string> := ["en", "zh"]
  const DefaultLocale := "en"

  /** A locale the site serves. */
  type Locale = s: string | s == "en" || s == "zh" witness "en"

  /** The browser tags `languageMap` sends to "zh". */
  const ChineseVariants: seq<string> := ["zh-CN", "zh-SG", "zh-TW", "zh-HK", "zh-MO"]

  /** `languageMap[lang] || lang` */
  function MapLanguage(lang: string): (r: string)
    ensures lang in ChineseVariants ==> r == "zh"
    ensures lang !in ChineseVariants ==> r == lang
  {
    if lang in ChineseVariants then "zh" else lang
  }

  /** `languages.map(...)` with MapLanguage. */
  function MapLanguages(langs: seq<string>): (r: seq<string>)
    ensures |r| == |langs| && forall i :: 0 <= i < |r| ==> r[i] == MapLanguage(langs[i])
  {
    if langs == [] then [] else [MapLanguage(langs[0])] + MapLanguages(langs[1..])
  }

  /** What `matchLocale(requested, locales, defaultLocale)` did: chose one of
      the available locales (or the default), or threw. */
  datatype MatchOutcome = Matched(locale: Locale) | MatchThrew

  /** `getLocale(request)`. The NEXT_LOCALE cookie (absent is ""), the
      Accept-Language header (absent is ""), Negotiator's ordering of the header
      and the matcher are parameters. */
  function GetLocale(cookie: string, acceptLanguage: string,
                     negotiate: string -> seq<string>, matcher: seq<string> -> MatchOutcome): (r: Locale)
    ensures r in Locales
    ensures cookie in Locales ==> r == cookie
    ensures cookie !in Locales && acceptLanguage == "" ==> r == DefaultLocale
    ensures cookie !in Locales && acceptLanguage != "" ==>
      r == match matcher(MapLanguages(negotiate(acceptLanguage)))
           case Matched(l) => l
           case MatchThrew => DefaultLocale
  {
    if cookie != "" && cookie in Locales then cookie
    else if acceptLanguage != "" then
      match matcher(MapLanguages(negotiate(acceptLanguage)))
      case Matched(l) => l
      case MatchThrew => DefaultLocale
    else DefaultLocale
  }

  /** A supported cookie wins over any Accept-Language header. */
  lemma CookieTakesPrecedence(cookie: string, h1: string, h2: string,
                              negotiate: string -> seq<string>, matcher: seq<string> -> MatchOutcome)
    requires cookie in Locales
    ensures GetLocale(cookie, h1, negotiate, matcher) == GetLocale(cookie, h2, negotiate, matcher)
  {
  }

  /** `locales.every(locale => !pathname.startsWith(`/${locale}/`) && pathname !== `/${locale}`)` */
  predicate PathIsMissingLocale(pathname: string) {
    forall i :: 0 <= i < |Locales| ==>
      !StartsWith(pathname, "/" + Locales[i] + "/") && pathname != "/" + Locales[i]
  }

  /** The redirect target: the locale in front of the path, with a '/' between
      them when the path has none. */
  function RedirectPath(locale: Locale, pathname: string): (r: string)
    ensures StartsWith(r, "/" + locale + "/")
    ensures EndsWith(r, pathname)
  {
    var sep := if StartsWith(pathname, "/") then "" else "/";
    var r := "/" + locale + sep + pathname;
    assert r[..|locale| + 2] == "/" + locale + "/" by {
      if sep == "" {
        assert r == ("/" + locale) + pathname;
      }
    }
    assert r[|r| - |pathname|..] == pathname;
    r
  }

  /** The redirect target already carries a locale: it is never redirected again. */
  lemma NoRedirectLoop(locale: Locale, pathname: string)
    ensures !PathIsMissingLocale(RedirectPath(locale, pathname))
  {
    var k := if locale == "en" then 0 else 1;
    assert Locales[k] == locale;
  }

  /** An absolute path only gets the locale segment in front of it. */
  lemma RedirectKeepsPath(locale: Locale, pathname: string)
    requires StartsWith(pathname, "/")
    ensures RedirectPath(locale, pathname) == "/" + locale + pathname
  {
  }

  const CookieName := "NEXT_LOCALE"
  const OneYear := 60 * 60 * 24 * 365

  datatype CookieOptions = CookieOptions(maxAge: nat, httpOnly: bool, secure: bool, sameSite: string)
  datatype Cookie = Cookie(value: string, options: CookieOptions)

  /** `NextResponse.redirect(url)`: a redirect with a cookie jar set through
      `response.cookies.set`. */
  class RedirectResponse {
    const location: string
    var cookies: map<string, Cookie>

    constructor (location: string)
      ensures this.location == location && cookies == map[]
    {
      this.location := location;
      cookies := map[];
    }

    method SetCookie(name: string, value: string, options: CookieOptions)
      modifies this
      ensures cookies == old(cookies)[name := Cookie(value, options)]
    {
      cookies := cookies[name := Cookie(value, options)];
    }
  }

  /** The negative lookahead of the exported matcher
      `/((?!api|_next/static|_next/image|favicon.ico).*)`, applied to the path
      after its leading '/'. The '.' of "favicon.ico" is the regular-expression
      wildcard, so it stands for any one character. */
  predicate MatcherExcludes(rest: string) {
    || StartsWith(rest, "api")
    || StartsWith(rest, "_next/static")
    || StartsWith(rest, "_next/image")
    || (|rest| >= 11 && rest[..7] == "favicon" && rest[8..11] == "ico")
  }

  /** The framework runs the middleware only on a path the matcher accepts. */
  predicate MatcherRuns(pathname: string) {
    StartsWith(pathname, "/") && !MatcherExcludes(pathname[1..])
  }

  /** API routes, the framework's static assets and the icon are never
      redirected, whatever locale they lack. */
  lemma {:induction false} ExcludedPathsPassThrough(pathname: string)
    requires StartsWith(pathname, "/api") || StartsWith(pathname, "/_next/static")
          || StartsWith(pathname, "/_next/image") || StartsWith(pathname, "/favicon.ico")
    ensures !MatcherRuns(pathname)
  {
    var rest := pathname[1..];
    if StartsWith(pathname, "/api") {
      DropSlashPrefix(pathname, "api");
      assert StartsWith(rest, "api");
    } else if StartsWith(pathname, "/_next/static") {
      DropSlashPrefix(pathname, "_next/static");
      assert StartsWith(rest, "_next/static");
    } else if StartsWith(pathname, "/_next/image") {
      DropSlashPrefix(pathname, "_next/image");
      assert StartsWith(rest, "_next/image");
    } else {
      DropSlashPrefix(pathname, "favicon.ico");
      assert rest[..11] == "favicon.ico";
      assert rest[..7] == rest[..11][..7] && rest[8..11] == rest[..11][8..11];
    }
  }

  /** A path starting with "/" + p has p at the front once its '/' is dropped. */
  lemma DropSlashPrefix(pathname: string, p: string)
    requires StartsWith(pathname, "/" + p)
    ensures StartsWith(pathname[1..], p)
  {
    assert pathname[1..][..|p|] == pathname[..|p| + 1][1..];
  }

  /** `middleware(request)`: a redirect carrying the locale cookie when the path
      lacks a locale, and no response (pass through) otherwise, nor for a path
      outside the matcher, on which the framework does not run it. `production` is
      `process.env.NODE_ENV === 'production'`. */
  method HandleRequest(pathname: string, cookie: string, acceptLanguage: string,
                       negotiate: string -> seq<string>, matcher: seq<string> -> MatchOutcome,
                       production: bool)
    returns (response: RedirectResponse?)
    ensures response != null <==> MatcherRuns(pathname) && PathIsMissingLocale(pathname)
    ensures response != null ==>
      var locale := GetLocale(cookie, acceptLanguage, negotiate, matcher);
      && fresh(response)
      && response.location == RedirectPath(locale, pathname)
      && response.cookies == map[CookieName := Cookie(locale, CookieOptions(OneYear, false, production, "lax"))]
  {
    var missing := !StartsWith(pathname, "/en/") && pathname != "/en"
                && !StartsWith(pathname, "/zh/") && pathname != "/zh";
    assert missing <==> PathIsMissingLocale(pathname) by {
      assert "/" + Locales[0] + "/" == "/en/" && "/" + Locales[0] == "/en";
      assert "/" + Locales[1] + "/" == "/zh/" && "/" + Locales[1] == "/zh";
    }
    if !MatcherRuns(pathname) || !missing {
      return null;
    }
    var locale := GetLocale(cookie, acceptLanguage, negotiate, matcher);
    response := new RedirectResponse(RedirectPath(locale, pathname));
    response.SetCookie(CookieName, locale, CookieOptions(OneYear, false, production, "lax"));
  }
}
