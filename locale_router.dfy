/**
 * The locale router of the site (src/bitsquid-app.tsx): the top-level route
 * table, the LanguageWrapper that accepts or redirects the `:lang` segment,
 * and the route table nested under a locale.
 *
 * A pathname is a string; the regular expression /^\/[^/]+/ that the wrapper
 * rewrites with is modelled by `Split`, which cuts a pathname into its first
 * segment and the tail that follows it.
 */
module LocaleRouter {
  import opened Common

  /** The languages the wrapper accepts, compared case-sensitively. */
  const SupportedLanguages: seq<string> := ["en", "es", "fr"]

  /** The language every redirect falls back to. */
  const DefaultLanguage: string := "en"

  /**
   * The prefix the router is mounted under (`<Router basename>`). The paths
   * this module routes are the ones after it: `<Link>` and `navigate` add it,
   * a `window.location.href` assignment does not.
   */
  const Basename: string := "/bitsquid-website"

  predicate IsSupported(lang: string)
  {
    lang in SupportedLanguages
  }

  /** A navigation request; `replace` is React Router's `{ replace: true }` (no new history entry). */
  datatype Navigation = Navigation(to: string, replace: bool)

  /** The pages routed under a locale. */
  datatype Page =
    | Home
    | Products
    | Lunts
    | LuntsPrivacyPolicy
    | LuntsTermsAndConditions
    | Jobs
    | Contact

  /** What the router does with a pathname: render a page under a language, or navigate elsewhere. */
  datatype Outcome = Show(lang: string, page: Page) | Navigate(nav: Navigation)

  /** The wrapper's verdict on the `:lang` parameter. */
  datatype Decision = Accept(lang: string) | Redirect(nav: Navigation)

  /** A non-empty run of characters other than '/': what `[^/]+` matches. */
  predicate IsSegment(seg: string)
  {
    seg != [] && forall i :: 0 <= i < |seg| ==> seg[i] != '/'
  }

  /** What may follow a first segment: nothing, or the rest of the path from the next '/'. */
  predicate IsTail(tail: string)
  {
    tail == [] || tail[0] == '/'
  }

  /** How far the greedy class `[^/]*` reaches into `s`: it stops at the first '/' or at the end. */
  function SegmentLength(s: string): (k: nat)
    ensures k <= |s|
    ensures forall i :: 0 <= i < k ==> s[i] != '/'
    ensures k == |s| || s[k] == '/'
  {
    if s == [] || s[0] == '/' then 0 else 1 + SegmentLength(s[1..])
  }

  /**
   * Matches /^\/[^/]+/ against a pathname: the first segment and the tail after
   * it, or None when the pattern does not match (no leading '/', or an empty
   * first segment, as in "", "/" and "//x").
   */
  function Split(path: string): (r: Option<(string, string)>)
    ensures r.Some? ==> IsSegment(r.value.0) && IsTail(r.value.1) && path == "/" + r.value.0 + r.value.1
  {
    if |path| >= 2 && path[0] == '/' && path[1] != '/' then
      var k := 1 + SegmentLength(path[1..]);
      Some((path[1..k], path[k..]))
    else
      None
  }

  /**
   * `path.replace(/^\/[^/]+/, "/" + replacement)`: a matched path keeps its
   * tail and gets the replacement as its first segment; a path the pattern
   * does not match is returned as is.
   */
  function ReplaceFirstSegment(path: string, replacement: string): (r: string)
    ensures Split(path).Some? && IsSegment(replacement) ==> Split(r) == Some((replacement, Split(path).value.1))
    ensures Split(path).None? ==> r == path
  {
    match Split(path)
    case Some((_, tail)) =>
      var r := "/" + replacement + tail;
      if IsSegment(replacement) then SplitJoin(replacement, tail); r else r
    case None => path
  }

  /**
   * The decision of LanguageWrapper's effect: accept a supported `lang`
   * (a missing or empty parameter is falsy and is not accepted), otherwise
   * redirect, replace-style, to the pathname with its first segment replaced
   * by the default language.
   */
  function LanguageWrapper(lang: Option<string>, pathname: string): (d: Decision)
    ensures d.Accept? <==> lang.Some? && IsSupported(lang.value)
    ensures d.Accept? ==> d.lang == lang.value
    ensures d.Redirect? ==> d.nav.replace && d.nav.to == ReplaceFirstSegment(pathname, DefaultLanguage)
  {
    if lang.Some? && lang.value != "" && IsSupported(lang.value) then
      Accept(lang.value)
    else
      Redirect(Navigation(ReplaceFirstSegment(pathname, DefaultLanguage), true))
  }

  /** The tails of the routes declared under a language segment, in declaration order. */
  const RoutedTails: seq<string> := [
    "/", "/products", "/products/lunts", "/products/lunts/privacy-policy",
    "/products/lunts/terms-and-conditions", "/jobs", "/contact"]

  /**
   * The nested route table: the page a tail selects, or None for the
   * catch-all route. An empty tail (the pathname is just "/" + lang) is the
   * index route "/".
   */
  function NestedRoute(tail: string): (r: Option<Page>)
    ensures r.None? <==> tail != "" && tail !in RoutedTails
  {
    if tail == "" || tail == "/" then Some(Home)
    else if tail == "/products" then Some(Products)
    else if tail == "/products/lunts" then Some(Lunts)
    else if tail == "/products/lunts/privacy-policy" then Some(LuntsPrivacyPolicy)
    else if tail == "/products/lunts/terms-and-conditions" then Some(LuntsTermsAndConditions)
    else if tail == "/jobs" then Some(Jobs)
    else if tail == "/contact" then Some(Contact)
    else None
  }

  /**
   * The whole router: the root route and the top-level catch-all navigate to
   * "/en"; a path matching the pattern "/:lang/ *" goes through LanguageWrapper, whose
   * redirect takes precedence over whatever the nested routes would do; under
   * an accepted language the nested table picks the page, and its catch-all
   * navigates to the absolute path "/". Every navigation is replace-style.
   */
  function Resolve(path: string): (o: Outcome)
    ensures o.Navigate? ==> o.nav.replace
    ensures o.Show? ==> IsSupported(o.lang) && exists tail :: path == "/" + o.lang + tail && NestedRoute(tail) == Some(o.page)
  {
    match Split(path)
    case None => Navigate(Navigation("/" + DefaultLanguage, true))
    case Some((seg, tail)) =>
      match LanguageWrapper(Some(seg), path)
      case Redirect(nav) => Navigate(nav)
      case Accept(lang) =>
        match NestedRoute(tail)
        case Some(page) => Show(lang, page)
        case None => Navigate(Navigation("/", true))
  }

  /**
   * Follows the router's navigations for at most `fuel` steps: the language
   * and page finally shown, if any. A page shown at once is the result, and
   * whatever is shown in the end is under a supported language.
   */
  function Settle(path: string, fuel: nat): (r: Option<(string, Page)>)
    ensures Resolve(path).Show? ==> r == Some((Resolve(path).lang, Resolve(path).page))
    ensures r.Some? ==> IsSupported(r.value.0)
    decreases fuel
  {
    match Resolve(path)
    case Show(lang, page) => Some((lang, page))
    case Navigate(nav) => if fuel == 0 then None else Settle(nav.to, fuel - 1)
  }

  /** The match of `[^/]+` is determined by the path: a segment followed by a tail splits back into exactly those parts. */
  lemma SplitJoin(seg: string, tail: string)
    requires IsSegment(seg) && IsTail(tail)
    ensures Split("/" + seg + tail) == Some((seg, tail))
  {
    var path := "/" + seg + tail;
    assert path[1..] == seg + tail;
    var k := SegmentLength(seg + tail);
    assert forall i :: 0 <= i < |seg| ==> (seg + tail)[i] == seg[i];
    assert |tail| > 0 ==> (seg + tail)[|seg|] == tail[0];
    assert k == |seg|;
    assert path[1..1 + k] == seg;
    assert path[1 + k..] == tail;
  }

  /** A path the pattern does not match is left unchanged by the replacement. */
  lemma ReplaceFirstSegmentUnmatched(path: string, replacement: string)
    requires |path| < 2 || path[0] != '/' || path[1] == '/'
    ensures ReplaceFirstSegment(path, replacement) == path
  {
  }

  /**
   * Idempotence of the wrapper: the target of its redirect has first segment
   * exactly "en" and the same tail, so the wrapper accepts it.
   */
  lemma RedirectTargetAccepted(lang: Option<string>, path: string)
    requires Split(path).Some?
    requires LanguageWrapper(lang, path).Redirect?
    ensures var target := LanguageWrapper(lang, path).nav.to;
      && Split(target) == Some((DefaultLanguage, Split(path).value.1))
      && LanguageWrapper(Some(Split(target).value.0), target) == Accept(DefaultLanguage)
  {
    assert IsSegment(DefaultLanguage);
  }

  /** Any first segment outside the supported set, including "EN" or "de", is redirected to "/en" with the tail kept. */
  lemma UnsupportedLanguageRedirects(seg: string, tail: string)
    requires IsSegment(seg) && IsTail(tail) && !IsSupported(seg)
    ensures Resolve("/" + seg + tail) == Navigate(Navigation("/en" + tail, true))
  {
    SplitJoin(seg, tail);
  }

  /** Under a supported language the nested table decides alone: a routed tail shows its page, any other navigates to "/". */
  lemma SupportedLanguageRoutes(lang: string, tail: string)
    requires IsSupported(lang) && IsTail(tail)
    ensures NestedRoute(tail).Some? ==> Resolve("/" + lang + tail) == Show(lang, NestedRoute(tail).value)
    ensures NestedRoute(tail).None? ==> Resolve("/" + lang + tail) == Navigate(Navigation("/", true))
  {
    SplitJoin(lang, tail);
  }

  /** A path with no first segment, the root "/" among them, navigates to "/en". */
  lemma NoSegmentGoesToDefault(path: string)
    requires Split(path).None?
    ensures Resolve(path) == Navigate(Navigation("/en", true))
  {
  }

  /** The seven routed tails select seven different pages. */
  lemma RoutedTailsDistinctPages(i: nat, j: nat)
    requires i < |RoutedTails| && j < |RoutedTails| && i != j
    ensures NestedRoute(RoutedTails[i]).Some? && NestedRoute(RoutedTails[j]).Some?
    ensures NestedRoute(RoutedTails[i]) != NestedRoute(RoutedTails[j])
  {
  }

  /** The bare "/" + lang of a supported language is its home page. */
  lemma LanguageRootShowsHome(lang: string)
    requires IsSupported(lang)
    ensures Resolve("/" + lang) == Show(lang, Home)
  {
    assert "/" + lang + "" == "/" + lang;
    SupportedLanguageRoutes(lang, "");
  }

  /**
   * No redirect loop: every pathname shows a page after at most three
   * navigations (an unsupported language with an unrouted tail takes all
   * three: to "/en" + tail, then to "/", then to "/en"), always under a
   * supported language.
   */
  lemma {:induction false} SettlesWithinThreeNavigations(path: string)
    ensures Settle(path, 3).Some? && IsSupported(Settle(path, 3).value.0)
  {
    LanguageRootShowsHome("en");
    assert "/" + DefaultLanguage == "/en";
    assert Settle("/en", 0) == Some(("en", Home));
    assert Resolve("/") == Navigate(Navigation("/en", true));
    match Split(path)
    case None =>
    case Some((seg, tail)) =>
      if IsSupported(seg) {
        SupportedLanguageRoutes(seg, tail);
      } else {
        UnsupportedLanguageRedirects(seg, tail);
        SupportedLanguageRoutes("en", tail);
        assert "/" + "en" + tail == "/en" + tail;
      }
  }

  /** The bound of three is reached: "/de/xyz" is still navigating after two steps. */
  lemma ThreeNavigationsCanBeNeeded()
    ensures Settle("/de/xyz", 2).None?
    ensures Settle("/de/xyz", 3) == Some(("en", Home))
  {
    assert "/de/xyz" == "/" + "de" + "/xyz";
    assert !IsSupported("de");
    UnsupportedLanguageRedirects("de", "/xyz");
    assert "/en/xyz" == "/" + "en" + "/xyz";
    SupportedLanguageRoutes("en", "/xyz");
    LanguageRootShowsHome("en");
    assert "/" + "en" == "/en";
    assert Settle("/en", 0) == Some(("en", Home));
    assert Settle("/", 1) == Some(("en", Home));
    assert Settle("/", 0) == None;
  }

  /** The unrouted tail loses the language: "/fr/xyz" ends on the English home page. */
  lemma UnroutedTailFallsBackToEnglish()
    ensures Settle("/fr/xyz", 3) == Some(("en", Home))
  {
    assert "/fr/xyz" == "/" + "fr" + "/xyz";
    SupportedLanguageRoutes("fr", "/xyz");
    LanguageRootShowsHome("en");
    assert "/" + "en" == "/en";
    assert Settle("/en", 0) == Some(("en", Home));
    assert Settle("/", 1) == Some(("en", Home));
  }

  /** A link built from an unbound parameter, "/undefined" + tail, is redirected to "/en" + tail like any unsupported language. */
  lemma UnboundParameterRedirects(tail: string)
    requires IsTail(tail)
    ensures Resolve("/" + Interpolate(None) + tail) == Navigate(Navigation("/en" + tail, true))
  {
    assert IsSegment(Interpolate(None)) && !IsSupported(Interpolate(None));
    UnsupportedLanguageRedirects(Interpolate(None), tail);
  }

  /** A routed tail starts with '/' or is empty. */
  lemma RoutedTailIsTail(tail: string)
    requires NestedRoute(tail).Some?
    ensures IsTail(tail)
  {
  }

  /** The pathname of a page the router shows splits into its language and a routed tail. */
  lemma ShownPathShape(path: string) returns (tail: string)
    requires Resolve(path).Show?
    ensures path == "/" + Resolve(path).lang + tail
    ensures IsTail(tail) && NestedRoute(tail) == Some(Resolve(path).page)
  {
    tail :| path == "/" + Resolve(path).lang + tail && NestedRoute(tail) == Some(Resolve(path).page);
    RoutedTailIsTail(tail);
  }

  /** The active language of i18next, which the wrapper's effect keeps in step with the URL. */
  class I18n {
    var language: string

    constructor (initial: string)
      ensures language == initial
    {
      language := initial;
    }

    /** Switches the language only when it differs; `changed` says whether `changeLanguage` was called. */
    method Sync(lang: string) returns (changed: bool)
      modifies this
      ensures language == lang
      ensures changed <==> old(language) != lang
    {
      changed := language != lang;
      if changed {
        language := lang;
      }
    }
  }

  /**
   * LanguageWrapper's effect: on acceptance, sync the active language and
   * navigate nowhere; on redirect, leave the language alone and return the
   * navigation to perform. `changed` says whether `changeLanguage` was called.
   */
  method LanguageWrapperEffect(i18n: I18n, lang: Option<string>, pathname: string) returns (nav: Option<Navigation>, changed: bool)
    modifies i18n
    ensures (match LanguageWrapper(lang, pathname)
      case Accept(l) => nav.None? && i18n.language == l && (changed <==> old(i18n.language) != l)
      case Redirect(n) => nav == Some(n) && i18n.language == old(i18n.language) && !changed)
  {
    var decision := LanguageWrapper(lang, pathname);
    match decision
    case Accept(l) =>
      changed := i18n.Sync(l);
      nav := None;
    case Redirect(n) =>
      nav := Some(n);
      changed := false;
  }

  /**
   * Running the effect a second time for the same parameter and pathname
   * changes nothing: it returns the same navigation, calls `changeLanguage`
   * no more, and leaves the language where the first run put it.
   */
  method RerunEffectIsNoOp(i18n: I18n, lang: Option<string>, pathname: string)
      returns (first: Option<Navigation>, again: Option<Navigation>, changedAgain: bool)
    modifies i18n
    ensures again == first && !changedAgain
    ensures LanguageWrapper(lang, pathname).Accept? ==> i18n.language == lang.value
    ensures LanguageWrapper(lang, pathname).Redirect? ==> i18n.language == old(i18n.language)
  {
    var changedFirst;
    first, changedFirst := LanguageWrapperEffect(i18n, lang, pathname);
    again, changedAgain := LanguageWrapperEffect(i18n, lang, pathname);
  }
}
