/**
 * The Lunts product page (src/pages/lunts/lunts-page.tsx): the demo video
 * chosen by language and the targets of its two legal links.
 */
module LuntsPage {
  import opened Common
  import LocaleRouter

  const EmbedBase: string := "https://www.youtube.com/embed/"
  const EmbedQuery: string := "?autoplay=1&rel=0"

  /**
   * `getVideoEmbedUrl()`: the Spanish and French videos for "es" and "fr",
   * the English one for anything else. Each URL is written as the embed base,
   * the video id and the player query.
   */
  function EmbedUrl(lang: Option<string>): (url: string)
    ensures StartsWith(url, EmbedBase) && EndsWith(url, EmbedQuery)
  {
    if lang == Some("es") then EmbedBase + "8kgAXmBIuTY" + EmbedQuery
    else if lang == Some("fr") then EmbedBase + "eLoWZNH3YSc" + EmbedQuery
    else EmbedBase + "0jSEvBaDDZ8" + EmbedQuery
  }

  /** The three languages get three different videos; a missing or unknown language gets the English one. */
  lemma EmbedUrlsPerLanguage(other: Option<string>)
    requires other != Some("es") && other != Some("fr")
    ensures EmbedUrl(Some("en")) != EmbedUrl(Some("es"))
    ensures EmbedUrl(Some("en")) != EmbedUrl(Some("fr"))
    ensures EmbedUrl(Some("es")) != EmbedUrl(Some("fr"))
    ensures EmbedUrl(other) == EmbedUrl(Some("en"))
  {
    assert EmbedUrl(Some("en"))[30] == '0';
    assert EmbedUrl(Some("es"))[30] == '8';
    assert EmbedUrl(Some("fr"))[30] == 'e';
  }

  /** The privacy policy and terms links of the legal section. */
  function LegalLinks(lang: Option<string>): (links: seq<string>)
    ensures |links| == 2
    ensures forall i | 0 <= i < |links| :: StartsWith(links[i], "/" + Interpolate(lang)) && IsLuntsPage(links[i])
  {
    var l := Interpolate(lang);
    assert "/" + l + "/products/lunts/privacy-policy" == "/" + l + LuntsSection + "/privacy-policy";
    assert "/" + l + "/products/lunts/terms-and-conditions" == "/" + l + LuntsSection + "/terms-and-conditions";
    ContainsAfterPrefix("/" + l, LuntsSection, "/privacy-policy");
    ContainsAfterPrefix("/" + l, LuntsSection, "/terms-and-conditions");
    ["/" + l + "/products/lunts/privacy-policy", "/" + l + "/products/lunts/terms-and-conditions"]
  }

  /** Under a supported language the legal links are routed, without a redirect, to the two legal pages. */
  lemma LegalLinksReachLegalPages(lang: string)
    requires LocaleRouter.IsSupported(lang)
    ensures LocaleRouter.Resolve(LegalLinks(Some(lang))[0]) == LocaleRouter.Show(lang, LocaleRouter.LuntsPrivacyPolicy)
    ensures LocaleRouter.Resolve(LegalLinks(Some(lang))[1]) == LocaleRouter.Show(lang, LocaleRouter.LuntsTermsAndConditions)
  {
    LocaleRouter.SupportedLanguageRoutes(lang, "/products/lunts/privacy-policy");
    LocaleRouter.SupportedLanguageRoutes(lang, "/products/lunts/terms-and-conditions");
  }
}
