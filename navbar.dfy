/**
 * The navigation bar (src/components/layout/navbar.tsx): the language switch
 * that rewrites the current pathname, the highlighting of the active link,
 * the label of the language button, and the four menu flags its handlers
 * toggle and reset.
 */
module Navbar {
  import opened Common
  import opened LocaleRouter

  predicate IsLowerAscii(c: char)
  {
    'a' <= c <= 'z'
  }

  /** The pattern /^\/[a-z]{2}/ matches: a leading '/' followed by two lower-case ASCII letters. */
  predicate HasTwoLetterPrefix(pathname: string)
  {
    |pathname| >= 3 && pathname[0] == '/' && IsLowerAscii(pathname[1]) && IsLowerAscii(pathname[2])
  }

  /** `pathname.replace(/^\/[a-z]{2}/, '')`: drops exactly those three characters when they are there, and nothing otherwise. */
  function StripLanguagePrefix(pathname: string): (rest: string)
    ensures HasTwoLetterPrefix(pathname) ==> pathname == pathname[..3] + rest
    ensures !HasTwoLetterPrefix(pathname) ==> rest == pathname
  {
    if HasTwoLetterPrefix(pathname) then pathname[3..] else pathname
  }

  /**
   * `changeLanguage(newLang)`: a replace-style navigation to "/" + newLang +
   * the stripped pathname. The two letters after the leading '/' are
   * replaced by the new code; a pathname without them is kept whole behind it.
   */
  function ChangeLanguage(pathname: string, newLang: string): (nav: Navigation)
    ensures nav.replace
    ensures HasTwoLetterPrefix(pathname) ==> nav.to == "/" + newLang + pathname[3..]
    ensures !HasTwoLetterPrefix(pathname) ==> nav.to == "/" + newLang + pathname
  {
    Navigation("/" + newLang + StripLanguagePrefix(pathname), true)
  }

  /**
   * `isActiveRoute(route)`: the stripped pathname is the route, or it is
   * empty and the route is "/". After a two-letter code that compares the
   * rest of the pathname with the route; otherwise the whole pathname.
   */
  predicate IsActiveRoute(pathname: string, route: string): (active: bool)
    ensures HasTwoLetterPrefix(pathname) ==> (active <==> pathname[3..] == route || (route == "/" && |pathname| == 3))
    ensures !HasTwoLetterPrefix(pathname) ==> (active <==> pathname == route || (route == "/" && pathname == ""))
  {
    var current := StripLanguagePrefix(pathname);
    current == route || (route == "/" && current == "")
  }

  /** The translation keys of the three language names (language.english, language.spanish, language.french). */
  datatype LanguageName = English | Spanish | French

  /** `getLanguageName(code)`: its own name for "es" and "fr", the English name for "en" and for every other code. */
  function LanguageNameOf(code: string): (name: LanguageName)
    ensures name == Spanish <==> code == "es"
    ensures name == French <==> code == "fr"
    ensures name == English <==> code != "es" && code != "fr"
  {
    match code
    case "en" => English
    case "es" => Spanish
    case "fr" => French
    case _ => English
  }

  /** The language button's label, `getLanguageName(lang || 'en')`: a missing or empty parameter counts as "en". */
  function LanguageButtonLabel(lang: Option<string>): (name: LanguageName)
    ensures name == English <==> lang != Some("es") && lang != Some("fr")
    ensures lang.Some? && lang.value in SupportedLanguages ==> name == LanguageNameOf(lang.value)
  {
    match lang
    case Some(code) => if code == "" then LanguageNameOf("en") else LanguageNameOf(code)
    case None => LanguageNameOf("en")
  }

  /**
   * The targets of the bar's links, in order: home, products, the Lunts
   * dropdown entry, jobs, contact. One per page in `LinkPages`, each under
   * the `${lang}` segment, and only the Lunts entry is a Lunts path.
   */
  function LinkTargets(lang: Option<string>): (targets: seq<string>)
    ensures |targets| == |LinkPages|
    ensures forall i | 0 <= i < |targets| :: StartsWith(targets[i], "/" + Interpolate(lang))
    ensures IsLuntsPage(targets[2])
  {
    var l := Interpolate(lang);
    assert "/" + l + "/products/lunts" == "/" + l + LuntsSection + "";
    ContainsAfterPrefix("/" + l, LuntsSection, "");
    ["/" + l, "/" + l + "/products", "/" + l + "/products/lunts", "/" + l + "/jobs", "/" + l + "/contact"]
  }

  /** The pages those links lead to, in the same order. */
  const LinkPages: seq<Page> := [Home, Products, Lunts, Jobs, Contact]

  /** Every supported code is two lower-case letters, so the strip removes exactly the language segment. */
  lemma SupportedCodesHaveTwoLetters(lang: string)
    requires IsSupported(lang)
    ensures |lang| == 2 && IsLowerAscii(lang[0]) && IsLowerAscii(lang[1])
  {
  }

  /** After any two lower-case letters the switch keeps the rest of the path verbatim and puts the new code in front. */
  lemma ChangeLanguageKeepsTail(code: string, tail: string, newLang: string)
    requires |code| == 2 && IsLowerAscii(code[0]) && IsLowerAscii(code[1])
    ensures ChangeLanguage("/" + code + tail, newLang) == Navigation("/" + newLang + tail, true)
  {
    assert ("/" + code + tail)[3..] == tail;
  }

  /**
   * Switching language on a page the router shows lands on the same page
   * under the new language, and choosing the current language returns the
   * same pathname.
   */
  lemma ChangeLanguageOnShownPage(path: string, newLang: string)
    requires Resolve(path).Show? && IsSupported(newLang)
    ensures Resolve(ChangeLanguage(path, newLang).to) == Show(newLang, Resolve(path).page)
    ensures newLang == Resolve(path).lang ==> ChangeLanguage(path, newLang).to == path
  {
    var tail := ShownPathShape(path);
    SupportedCodesHaveTwoLetters(Resolve(path).lang);
    ChangeLanguageKeepsTail(Resolve(path).lang, tail, newLang);
    SupportedLanguageRoutes(newLang, tail);
  }

  /**
   * The strip is not segment-aware: it removes the first two letters of any
   * segment, supported or not, whatever follows them.
   */
  lemma StripIsNotSegmentAware()
    ensures ChangeLanguage("/de/jobs", "fr").to == "/fr/jobs"
    ensures ChangeLanguage("/english/jobs", "fr").to == "/frglish/jobs"
    ensures ChangeLanguage("/EN/jobs", "fr").to == "/fr/EN/jobs"
  {
    assert HasTwoLetterPrefix("/english/jobs");
    assert !HasTwoLetterPrefix("/EN/jobs");
  }

  /**
   * On a page the router shows, a link of the bar is highlighted exactly
   * when it leads to that page; the products link is not highlighted on the
   * Lunts pages.
   */
  lemma ActiveLinkMatchesShownPage(path: string)
    requires Resolve(path).Show?
    ensures IsActiveRoute(path, "/") <==> Resolve(path).page == Home
    ensures IsActiveRoute(path, "/products") <==> Resolve(path).page == Products
    ensures IsActiveRoute(path, "/jobs") <==> Resolve(path).page == Jobs
    ensures IsActiveRoute(path, "/contact") <==> Resolve(path).page == Contact
  {
    var tail := ShownPathShape(path);
    SupportedCodesHaveTwoLetters(Resolve(path).lang);
    assert StripLanguagePrefix(path) == tail by {
      assert path[3..] == tail;
    }
  }

  /** Under a supported language every link of the bar leads to its page, without a redirect. */
  lemma LinksReachTheirPages(lang: string, i: nat)
    requires IsSupported(lang) && i < |LinkPages|
    ensures Resolve(LinkTargets(Some(lang))[i]) == Show(lang, LinkPages[i])
  {
    var tails := ["", "/products", "/products/lunts", "/jobs", "/contact"];
    assert LinkTargets(Some(lang))[i] == "/" + lang + tails[i];
    SupportedLanguageRoutes(lang, tails[i]);
  }

  /** The four flags of the bar's menus. */
  class Menus {
    var mobileMenuOpen: bool
    var mobileProductsExpanded: bool
    var productsDropdownOpen: bool
    var languageDropdownOpen: bool

    /** Every menu starts closed. */
    constructor ()
      ensures !mobileMenuOpen && !mobileProductsExpanded && !productsDropdownOpen && !languageDropdownOpen
    {
      mobileMenuOpen := false;
      mobileProductsExpanded := false;
      productsDropdownOpen := false;
      languageDropdownOpen := false;
    }

    /** `handleMobileMenuToggle`: flips the mobile menu only. */
    method ToggleMobileMenu()
      modifies this
      ensures mobileMenuOpen == !old(mobileMenuOpen)
      ensures mobileProductsExpanded == old(mobileProductsExpanded)
      ensures productsDropdownOpen == old(productsDropdownOpen)
      ensures languageDropdownOpen == old(languageDropdownOpen)
    {
      mobileMenuOpen := !mobileMenuOpen;
    }

    /**
     * `handleMobileMenuClose`, also run by the overlay and by every link of
     * the bar: closes the mobile menu and collapses its products section.
     */
    method CloseMobileMenu()
      modifies this
      ensures !mobileMenuOpen && !mobileProductsExpanded
      ensures productsDropdownOpen == old(productsDropdownOpen)
      ensures languageDropdownOpen == old(languageDropdownOpen)
    {
      mobileMenuOpen := false;
      mobileProductsExpanded := false;
    }

    /** `handleMobileProductsToggle`: flips the mobile products section only. */
    method ToggleMobileProducts()
      modifies this
      ensures mobileProductsExpanded == !old(mobileProductsExpanded)
      ensures mobileMenuOpen == old(mobileMenuOpen)
      ensures productsDropdownOpen == old(productsDropdownOpen)
      ensures languageDropdownOpen == old(languageDropdownOpen)
    {
      mobileProductsExpanded := !mobileProductsExpanded;
    }

    /** The products dropdown's mouse handlers: entering opens it, leaving closes it. */
    method HoverProducts(inside: bool)
      modifies this
      ensures productsDropdownOpen == inside
      ensures mobileMenuOpen == old(mobileMenuOpen)
      ensures mobileProductsExpanded == old(mobileProductsExpanded)
      ensures languageDropdownOpen == old(languageDropdownOpen)
    {
      productsDropdownOpen := inside;
    }

    /** The language button: flips the language dropdown only. */
    method ToggleLanguageDropdown()
      modifies this
      ensures languageDropdownOpen == !old(languageDropdownOpen)
      ensures mobileMenuOpen == old(mobileMenuOpen)
      ensures mobileProductsExpanded == old(mobileProductsExpanded)
      ensures productsDropdownOpen == old(productsDropdownOpen)
    {
      languageDropdownOpen := !languageDropdownOpen;
    }

    /**
     * A language option: switches the language, then closes the language
     * dropdown and the mobile menu; the returned navigation is the switch.
     */
    method PickLanguage(pathname: string, newLang: string) returns (nav: Navigation)
      modifies this
      ensures nav == ChangeLanguage(pathname, newLang)
      ensures !languageDropdownOpen && !mobileMenuOpen && !mobileProductsExpanded
      ensures productsDropdownOpen == old(productsDropdownOpen)
    {
      nav := ChangeLanguage(pathname, newLang);
      languageDropdownOpen := false;
      CloseMobileMenu();
    }
  }
}
