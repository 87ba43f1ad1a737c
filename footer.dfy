/**
 * The footer (src/components/layout/footer.tsx): which brand it shows, chosen
 * by the Lunts substring test on the pathname, and the targets of its links.
 */
module Footer {
  import opened Common
  import LocaleRouter

  /** What the footer prints that depends on the brand. */
  datatype FooterView = FooterView(heading: string, email: string, showsNit: bool, copyrightBrand: string)

  const NitLine: string := "NIT: 901713594"

  /**
   * The brand-dependent parts of the footer: the Lunts heading, address and
   * copyright on Lunts pages, the Bitsquid ones with the NIT line elsewhere.
   */
  function View(pathname: string): (v: FooterView)
    ensures v.heading == v.copyrightBrand
    ensures v.heading == "Lunts" <==> IsLuntsPage(pathname)
    ensures v.heading == "Bitsquid" <==> !IsLuntsPage(pathname)
    ensures v.email == "lunts.info@gmail.com" <==> IsLuntsPage(pathname)
    ensures v.email == "bitsquidcorp@gmail.com" <==> !IsLuntsPage(pathname)
    ensures v.showsNit <==> !IsLuntsPage(pathname)
  {
    var lunts := IsLuntsPage(pathname);
    var brand := if lunts then "Lunts" else "Bitsquid";
    FooterView(brand, if lunts then "lunts.info@gmail.com" else "bitsquidcorp@gmail.com", !lunts, brand)
  }

  /**
   * The footer's links in the order they appear: the products section
   * (product page, privacy policy, terms) and the legal section (privacy
   * policy, terms).
   */
  function Links(lang: Option<string>): (links: seq<string>)
    ensures |links| == |LinkPages|
    ensures links[3] == links[1] && links[4] == links[2]
    ensures forall i | 0 <= i < 3 :: StartsWith(links[i], "/" + Interpolate(lang)) && IsLuntsPage(links[i])
  {
    var l := Interpolate(lang);
    var product := "/" + l + "/products/lunts";
    var privacy := "/" + l + "/products/lunts/privacy-policy";
    var terms := "/" + l + "/products/lunts/terms-and-conditions";
    LuntsLinkUnder(l, "/products/lunts");
    LuntsLinkUnder(l, "/products/lunts/privacy-policy");
    LuntsLinkUnder(l, "/products/lunts/terms-and-conditions");
    [product, privacy, terms, privacy, terms]
  }

  /** A link to the Lunts section, or to a page below it, under the `${lang}` segment is a Lunts path under that segment. */
  lemma LuntsLinkUnder(l: string, tail: string)
    requires StartsWith(tail, LuntsSection)
    ensures StartsWith("/" + l + tail, "/" + l) && IsLuntsPage("/" + l + tail)
  {
    var rest := tail[|LuntsSection|..];
    assert tail == LuntsSection + rest;
    assert "/" + l + tail == "/" + l + LuntsSection + rest;
    LuntsPathUnder("/" + l, rest);
  }

  /** The pages those links lead to, in the same order. */
  const LinkPages: seq<LocaleRouter.Page> := [
    LocaleRouter.Lunts, LocaleRouter.LuntsPrivacyPolicy, LocaleRouter.LuntsTermsAndConditions,
    LocaleRouter.LuntsPrivacyPolicy, LocaleRouter.LuntsTermsAndConditions]

  /** Under a supported language every footer link is routed, without a redirect, to its Lunts page, where the footer shows the Lunts brand. */
  lemma LinksReachLuntsPages(lang: string, i: nat)
    requires LocaleRouter.IsSupported(lang) && i < |LinkPages|
    ensures LocaleRouter.Resolve(Links(Some(lang))[i]) == LocaleRouter.Show(lang, LinkPages[i])
    ensures View(Links(Some(lang))[i]).heading == "Lunts"
  {
    var tails := ["/products/lunts", "/products/lunts/privacy-policy", "/products/lunts/terms-and-conditions",
                  "/products/lunts/privacy-policy", "/products/lunts/terms-and-conditions"];
    assert Links(Some(lang))[i] == "/" + lang + tails[i];
    LocaleRouter.SupportedLanguageRoutes(lang, tails[i]);
  }

  /** On a page the router shows, the footer carries the Lunts brand exactly on the three Lunts pages. */
  lemma BrandFollowsShownPage(path: string)
    requires LocaleRouter.Resolve(path).Show?
    ensures View(path).heading == "Lunts" <==>
      LocaleRouter.Resolve(path).page in {LocaleRouter.Lunts, LocaleRouter.LuntsPrivacyPolicy, LocaleRouter.LuntsTermsAndConditions}
    ensures View(path).showsNit <==>
      LocaleRouter.Resolve(path).page in {LocaleRouter.Home, LocaleRouter.Products, LocaleRouter.Jobs, LocaleRouter.Contact}
  {
    LuntsBrandExactlyOnLuntsPages(path);
  }

  /**
   * On a page the router shows, the Lunts test of the footer and the bar
   * holds exactly on the three Lunts pages: the product page and its two
   * legal pages.
   */
  lemma {:induction false} LuntsBrandExactlyOnLuntsPages(path: string)
    requires LocaleRouter.Resolve(path).Show?
    ensures IsLuntsPage(path) <==>
      LocaleRouter.Resolve(path).page in {LocaleRouter.Lunts, LocaleRouter.LuntsPrivacyPolicy, LocaleRouter.LuntsTermsAndConditions}
  {
    var tail := LocaleRouter.ShownPathShape(path);
    LuntsSectionUnderLanguage(LocaleRouter.Resolve(path).lang, tail);
  }

  /** Under a two-letter language, a routed tail contains the Lunts section exactly when it routes to a Lunts page. */
  lemma LuntsSectionUnderLanguage(lang: string, tail: string)
    requires |lang| == 2 && LocaleRouter.NestedRoute(tail).Some?
    ensures IsLuntsPage("/" + lang + tail) <==>
      LocaleRouter.NestedRoute(tail).value in {LocaleRouter.Lunts, LocaleRouter.LuntsPrivacyPolicy, LocaleRouter.LuntsTermsAndConditions}
  {
    var prefix := "/" + lang;
    var path := prefix + tail;
    if LocaleRouter.NestedRoute(tail).value in {LocaleRouter.Lunts, LocaleRouter.LuntsPrivacyPolicy, LocaleRouter.LuntsTermsAndConditions} {
      var rest := tail[|LuntsSection|..];
      assert tail == LuntsSection + rest;
      assert "/" + lang + tail == prefix + LuntsSection + rest;
      ContainsAfterPrefix(prefix, LuntsSection, rest);
    } else {
      assert |tail| <= 9;
      ShorterDoesNotContain(path, LuntsSection);
    }
  }
}
