/**
 * The products page (src/pages/products.tsx): the demo video it opens,
 * chosen by language, and the target of the Lunts button.
 */
module ProductsPage {
  import opened Common
  import LocaleRouter
  import LuntsPage

  const WatchBase: string := "https://www.youtube.com/watch?v="

  /**
   * `getVideoUrl()`: the Spanish and French videos for "es" and "fr", the
   * English one for anything else. Each URL is written as the watch base
   * followed by the video id.
   */
  function WatchUrl(lang: Option<string>): (url: string)
    ensures StartsWith(url, WatchBase)
  {
    if lang == Some("es") then WatchBase + "8kgAXmBIuTY"
    else if lang == Some("fr") then WatchBase + "eLoWZNH3YSc"
    else WatchBase + "0jSEvBaDDZ8"
  }

  /** For every language value the products page and the Lunts page show the same video. */
  lemma SameVideoAsLuntsPage(lang: Option<string>)
    ensures exists id :: (WatchUrl(lang) == WatchBase + id
      && LuntsPage.EmbedUrl(lang) == LuntsPage.EmbedBase + id + LuntsPage.EmbedQuery)
  {
    var id := if lang == Some("es") then "8kgAXmBIuTY" else if lang == Some("fr") then "eLoWZNH3YSc" else "0jSEvBaDDZ8";
    assert WatchUrl(lang) == WatchBase + id;
    assert LuntsPage.EmbedUrl(lang) == LuntsPage.EmbedBase + id + LuntsPage.EmbedQuery;
  }

  /** The three languages get three different videos; a missing or unknown language gets the English one. */
  lemma WatchUrlsPerLanguage(other: Option<string>)
    requires other != Some("es") && other != Some("fr")
    ensures WatchUrl(Some("en")) != WatchUrl(Some("es"))
    ensures WatchUrl(Some("en")) != WatchUrl(Some("fr"))
    ensures WatchUrl(Some("es")) != WatchUrl(Some("fr"))
    ensures WatchUrl(other) == WatchUrl(Some("en"))
  {
    assert WatchUrl(Some("en"))[32] == '0';
    assert WatchUrl(Some("es"))[32] == '8';
    assert WatchUrl(Some("fr"))[32] == 'e';
  }

  /**
   * The Lunts button's target, "/" + lang + "/products/lunts", which it loads
   * by assigning `window.location.href`: a Lunts path under the `${lang}`
   * segment.
   */
  function LuntsButtonTarget(lang: Option<string>): (url: string)
    ensures StartsWith(url, "/" + Interpolate(lang)) && IsLuntsPage(url)
  {
    var l := Interpolate(lang);
    assert "/" + l + "/products/lunts" == "/" + l + LuntsSection + "";
    ContainsAfterPrefix("/" + l, LuntsSection, "");
    "/" + l + "/products/lunts"
  }

  /**
   * Under a supported language the button's target is the Lunts section
   * under that language, but it lacks the router's basename: unlike the
   * `<Link>` targets, the full-page load is not prefixed with it.
   */
  lemma LuntsButtonBypassesBasename(lang: string)
    requires LocaleRouter.IsSupported(lang)
    ensures LuntsButtonTarget(Some(lang)) == "/" + lang + LuntsSection
    ensures !StartsWith(LuntsButtonTarget(Some(lang)), LocaleRouter.Basename)
  {
    assert LuntsButtonTarget(Some(lang))[1] == lang[0];
    assert LocaleRouter.Basename[1] == 'b';
  }
}
