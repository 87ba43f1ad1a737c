# Bitsquid / Lunts site: locale routing, navigation and widget state in Dafny

This project models the logic of a two-brand marketing site (Bitsquid and its
product Lunts) written in React with React Router and i18next. Almost all of
the site is styled layout. The part that can be stated precisely is:

- **Locale router** (`LocaleRouter`, from `src/bitsquid-app.tsx`). The root
  route and the top-level catch-all navigate to `/en`. A path of the form
  `/:lang/*` goes through `LanguageWrapper`. The wrapper accepts `en`, `es` or
  `fr` and keeps the i18next language in step (class `I18n`, method `Sync`).
  Any other segment is replaced by `en` with the regular expression
  `/^\/[^/]+/`, and the wrapper redirects there, replace-style. Under an
  accepted language, seven tails select pages, and any other tail navigates to
  `/`. `Split` models the regular expression: it cuts a pathname into its first
  segment and the tail after it. `Resolve` is the whole router. `Settle`
  follows its navigations.
- **Navigation bar** (`Navbar`, from `src/components/layout/navbar.tsx`). It
  holds the language switch, which strips `/^\/[a-z]{2}/` and prepends the new
  code. It also holds active-link highlighting, the language button's label,
  the Lunts substring test and the four menu flags (class `Menus`).
- **Carousel** (`Carousel`, from `src/components/ui/carousel.tsx`). The slide
  index is a class with the invariant `0 <= currentIndex < slideCount`. The
  steps `(i + 1) % n` and `(i - 1 + n) % n` are functions, with lemmas about
  how they wrap around.
- **Contact form** (`Contact`, from `src/pages/contact.tsx`). The three fields,
  the loading flag and the status form a class. `handleChange` and the two
  halves of the asynchronous `handleSubmit` are its methods.
- **Brand and locale selectors** (`Footer`, `LuntsPage`, `ProductsPage`). The
  footer picks its brand by the Lunts substring test. The two pages pick their
  demo video by language. Every `<Link>` target is checked against the route
  table. The products page's Lunts button is a full-page load whose URL lacks
  the router's basename (`LuntsButtonBypassesBasename`).

`Common` holds `Option`, the substring test `Contains`, the `${lang}` template
(`Interpolate`: an unbound parameter prints as `undefined`) and `IsLuntsPage`.

In three places the model follows the code where a reader might expect otherwise:

- The language switch strips any two lower-case letters after the leading `/`,
  not only supported codes, and it does not need a `/` after them.
- Under an accepted language, an unrouted tail navigates to the absolute `/`.
  So `/fr/xyz` ends on the English home page (`UnroutedTailFallsBackToEnglish`).
  A path can take three navigations to settle (`ThreeNavigationsCanBeNeeded`).
- The root `/` is handled by its own route, not by the wrapper.

## Model

| member | source | states |
|---|---|---|
| LocaleRouter.SegmentLength | src/bitsquid-app.tsx:50 | greedy `[^/]*` stops at the first `/` or at the end: every character before it is not `/` |
| LocaleRouter.Split | src/bitsquid-app.tsx:50 | a match of `^\/[^/]+` yields a non-empty slash-free segment and a tail that is empty or starts with `/`, and they rebuild the path |
| LocaleRouter.SplitJoin | src/bitsquid-app.tsx:50 | the match is unique: a segment followed by a tail splits back into exactly those parts |
| LocaleRouter.ReplaceFirstSegment | src/bitsquid-app.tsx:50 | on a matched path the first segment becomes the replacement and everything from the next `/` on is unchanged; an unmatched path is returned as is |
| LocaleRouter.ReplaceFirstSegmentUnmatched | src/bitsquid-app.tsx:50 | a path with no leading `/` or an empty first segment is returned unchanged |
| LocaleRouter.LanguageWrapper | src/bitsquid-app.tsx:42-52 | accepts exactly a present, supported `lang` (case-sensitive) and keeps it; otherwise redirects replace-style to the first-segment replacement by `en` |
| LocaleRouter.RedirectTargetAccepted | src/bitsquid-app.tsx:44-51 | idempotence: the redirect target has first segment exactly `en` and the same tail, and the wrapper accepts it |
| LocaleRouter.NestedRoute | src/bitsquid-app.tsx:76-86 | no page exactly when the tail is non-empty and not one of the seven routed tails |
| LocaleRouter.RoutedTailsDistinctPages | src/bitsquid-app.tsx:77-83 | the seven routed tails select seven distinct pages |
| LocaleRouter.Resolve | src/bitsquid-app.tsx:64-95 | every navigation is replace-style; a shown page has a supported language as first segment, followed by a tail that routes to that page |
| LocaleRouter.UnsupportedLanguageRedirects | src/bitsquid-app.tsx:48-51 | any unsupported segment, `EN` or `de` included, redirects to `/en` + the same tail; it is never accepted |
| LocaleRouter.SupportedLanguageRoutes | src/bitsquid-app.tsx:77-85 | under a supported language a routed tail shows its page, and any other tail navigates to `/` |
| LocaleRouter.NoSegmentGoesToDefault | src/bitsquid-app.tsx:66-95 | the root and every path not matching `/:lang/*` navigate to `/en` |
| LocaleRouter.LanguageRootShowsHome | src/bitsquid-app.tsx:77 | `/` + a supported language shows the home page |
| LocaleRouter.Settle | src/bitsquid-app.tsx:64-95 | a page the router shows at once is the result, and any page finally shown is under a supported language |
| LocaleRouter.UnboundParameterRedirects | src/bitsquid-app.tsx:44-51 | a link built from an unbound parameter, `/undefined` + tail, is redirected to `/en` + the same tail |
| LocaleRouter.SettlesWithinThreeNavigations | src/bitsquid-app.tsx:42-95 | no redirect loop: every path shows a page under a supported language after at most three navigations |
| LocaleRouter.ThreeNavigationsCanBeNeeded | src/bitsquid-app.tsx:48-85 | the bound is tight: `/de/xyz` is still navigating after two steps and shows English home after three |
| LocaleRouter.UnroutedTailFallsBackToEnglish | src/bitsquid-app.tsx:85 | the nested catch-all goes to the absolute `/`, so `/fr/xyz` ends on the English home page |
| LocaleRouter.RoutedTailIsTail | src/bitsquid-app.tsx:77-83 | every routed tail is empty or starts with `/` |
| LocaleRouter.ShownPathShape | src/bitsquid-app.tsx:70-83 | a shown path is `/` + its language + a routed tail for its page |
| LocaleRouter.I18n.constructor | src/bitsquid-app.tsx:36 | the active language starts as the one given |
| LocaleRouter.I18n.Sync | src/bitsquid-app.tsx:45-47 | the language becomes `lang`, and `changeLanguage` is called exactly when it differed |
| LocaleRouter.LanguageWrapperEffect | src/bitsquid-app.tsx:41-53 | on acceptance the language is synced, `changeLanguage` runs exactly when it differed, and nothing navigates; on redirect the language is untouched, `changeLanguage` does not run and the redirect is returned |
| LocaleRouter.RerunEffectIsNoOp | src/bitsquid-app.tsx:41-53 | a second run of the effect for the same parameter and pathname returns the same navigation, does not call `changeLanguage`, and leaves the language where the first run put it |
| Common.Interpolate | src/components/layout/footer.tsx:287 | the `${lang}` template prints the bound parameter, and `undefined` when none is bound |
| Common.IsLuntsPage | src/components/layout/footer.tsx:227 | a path shorter than `/products/lunts` never passes the Lunts test; one with it right after a two-letter language always does |
| Footer.LuntsBrandExactlyOnLuntsPages | src/components/layout/navbar.tsx:433 | on a shown page the Lunts test holds exactly for the product page and its privacy and terms pages |
| Footer.LuntsSectionUnderLanguage | src/components/layout/footer.tsx:227 | under a two-letter language, a routed tail contains `/products/lunts` exactly when it routes to a Lunts page |
| Navbar.LanguageNameOf | src/components/layout/navbar.tsx:449-456 | Spanish exactly for `es`, French exactly for `fr`, English for every other code |
| Navbar.LanguageButtonLabel | src/components/layout/navbar.tsx:610 | English unless the parameter is `es` or `fr`; a missing or empty parameter counts as `en` |
| Navbar.StripLanguagePrefix | src/components/layout/navbar.tsx:445 | with `/` and two lower-case letters in front, exactly those three characters are removed; otherwise nothing is |
| Navbar.ChangeLanguage | src/components/layout/navbar.tsx:444-447 | a replace-style navigation: the two letters after the leading `/` become the new code, and a path without them is kept whole behind `/` + the new code |
| Navbar.IsActiveRoute | src/components/layout/navbar.tsx:458-461 | after a two-letter code the rest of the path is compared with the route (empty counts as `/`); otherwise the whole path is |
| Navbar.LinkTargets | src/components/layout/navbar.tsx:522-594 | one target per page of the bar, each under the `${lang}` segment, the Lunts entry a Lunts path |
| Navbar.SupportedCodesHaveTwoLetters | src/components/layout/navbar.tsx:445 | every supported code matches `[a-z]{2}`, so the strip removes exactly the language segment |
| Navbar.ChangeLanguageKeepsTail | src/components/layout/navbar.tsx:444-447 | after `/` and two lower-case letters, the switch keeps the rest verbatim and prepends `/` + the new code, replace-style |
| Navbar.ChangeLanguageOnShownPage | src/components/layout/navbar.tsx:444-447 | on a shown page, switching to a supported language shows the same page in that language; the current language gives back the same path |
| Navbar.StripIsNotSegmentAware | src/components/layout/navbar.tsx:445 | `/de/jobs` becomes `/fr/jobs`, `/english/jobs` becomes `/frglish/jobs`, and `/EN/jobs` keeps its segment |
| Navbar.ActiveLinkMatchesShownPage | src/components/layout/navbar.tsx:458-461 | on a shown page each of home, products, jobs and contact is active exactly on its own page; products is not active on the Lunts pages |
| Navbar.LinksReachTheirPages | src/components/layout/navbar.tsx:522-594 | under a supported language each link of the bar shows its page without a redirect |
| Navbar.Menus.constructor | src/components/layout/navbar.tsx:427-430 | all four menu flags start closed |
| Navbar.Menus.ToggleMobileMenu | src/components/layout/navbar.tsx:463-465 | flips the mobile menu and no other flag |
| Navbar.Menus.CloseMobileMenu | src/components/layout/navbar.tsx:467-470 | closes the mobile menu and its products section; the dropdown flags are unchanged |
| Navbar.Menus.ToggleMobileProducts | src/components/layout/navbar.tsx:472-474 | flips the mobile products section and no other flag |
| Navbar.Menus.HoverProducts | src/components/layout/navbar.tsx:534-535 | entering opens and leaving closes the products dropdown, nothing else |
| Navbar.Menus.ToggleLanguageDropdown | src/components/layout/navbar.tsx:607 | flips the language dropdown and no other flag |
| Navbar.Menus.PickLanguage | src/components/layout/navbar.tsx:613-642 | returns the language switch and closes the language dropdown and the mobile menu; the products dropdown is unchanged |
| Carousel.Next | src/components/ui/carousel.tsx:250-252 | stays in `[0, n)`, wraps `n - 1` to 0 and otherwise adds one |
| Carousel.Previous | src/components/ui/carousel.tsx:246-248 | stays in `[0, n)`, wraps 0 to `n - 1` and otherwise subtracts one |
| Carousel.Steps | src/components/ui/carousel.tsx:239-241 | any number of forward steps stays in `[0, n)` |
| Carousel.PreviousUndoesNext | src/components/ui/carousel.tsx:246-252 | previous after next, and next after previous, restore the index |
| Carousel.StepsAdd | src/components/ui/carousel.tsx:250-252 | a + b forward steps are a steps followed by b steps |
| Carousel.StepsWithoutWrap | src/components/ui/carousel.tsx:250-252 | before the last slide is passed, k steps add k |
| Carousel.StepsToFirst | src/components/ui/carousel.tsx:250-252 | from index i, n - i steps land on slide 0 |
| Carousel.FullCycle | src/components/ui/carousel.tsx:239-252 | n consecutive forward steps or ticks return to the starting slide |
| Carousel.Indicators | src/components/ui/carousel.tsx:286-289 | one dot per slide |
| Carousel.CountActivePrefix | src/components/ui/carousel.tsx:289 | among the first m dots, one is active if the current index is below m, none otherwise |
| Carousel.ExactlyOneIndicatorActive | src/components/ui/carousel.tsx:286-291 | exactly one dot is active, the current one |
| Carousel.CarouselState.constructor | src/components/ui/carousel.tsx:234 | the index starts at 0 |
| Carousel.CarouselState.GoToNext | src/components/ui/carousel.tsx:250-252 | the index becomes `Next` of the old one and stays valid |
| Carousel.CarouselState.GoToPrevious | src/components/ui/carousel.tsx:246-248 | the index becomes `Previous` of the old one and stays valid |
| Carousel.CarouselState.GoToSlide | src/components/ui/carousel.tsx:254-256 | the index becomes exactly the dot's index |
| Carousel.CarouselState.Tick | src/components/ui/carousel.tsx:236-244 | with autoplay the tick is the `goToNext` step; without it nothing changes |
| Carousel.CarouselState.ActiveDots | src/components/ui/carousel.tsx:286-291 | the rendered dots: one per slide, the current one active, exactly one active |
| Contact.FormData.With | src/pages/contact.tsx:203-209 | the named field gets the value and the other two are unchanged |
| Contact.StatusKind.MessageKey | src/pages/contact.tsx:236-246 | the success status carries exactly `contact.form.success` and the error status exactly `contact.form.error` |
| Contact.ContactForm.constructor | src/pages/contact.tsx:195-201 | fields empty, not loading, no status |
| Contact.ContactForm.HandleChange | src/pages/contact.tsx:203-209 | only the named field changes; loading and status are untouched |
| Contact.ContactForm.BeginSubmit | src/pages/contact.tsx:211-214 | only when not loading: loading set, status cleared, fields kept |
| Contact.ContactForm.FinishSubmit | src/pages/contact.tsx:236-249 | success sets status Success and empties the fields; failure sets Error and keeps them; loading ends false |
| Footer.View | src/components/layout/footer.tsx:227-331 | heading and copyright are `Lunts` and the email is `lunts.info@gmail.com` exactly on Lunts pages; otherwise `Bitsquid`, `bitsquidcorp@gmail.com` and the NIT line |
| Footer.Links | src/components/layout/footer.tsx:287-322 | five links, the legal section repeating the product section's privacy and terms links, each under the `${lang}` segment and a Lunts path |
| Footer.LinksReachLuntsPages | src/components/layout/footer.tsx:287-322 | under a supported language all five links show their Lunts page without a redirect, where the footer shows the Lunts brand |
| Footer.BrandFollowsShownPage | src/components/layout/footer.tsx:227-311 | on a shown page the Lunts brand appears exactly on the three Lunts pages, and the NIT line exactly on the other four |
| LuntsPage.EmbedUrl | src/pages/lunts/lunts-page.tsx:342-351 | every URL is a YouTube embed URL ending in `?autoplay=1&rel=0` |
| LuntsPage.EmbedUrlsPerLanguage | src/pages/lunts/lunts-page.tsx:343-350 | `en`, `es` and `fr` get pairwise distinct videos; every other value, missing included, gets the English one |
| LuntsPage.LegalLinks | src/pages/lunts/lunts-page.tsx:516-519 | two links, each under the `${lang}` segment and a Lunts path |
| LuntsPage.LegalLinksReachLegalPages | src/pages/lunts/lunts-page.tsx:516-519 | under a supported language the two legal links show the privacy and terms pages |
| ProductsPage.WatchUrl | src/pages/products.tsx:263-272 | every URL is a YouTube watch URL |
| ProductsPage.SameVideoAsLuntsPage | src/pages/products.tsx:263-272 | for every language value the watch URL and the Lunts page's embed URL carry the same video id |
| ProductsPage.WatchUrlsPerLanguage | src/pages/products.tsx:264-271 | `en`, `es` and `fr` get pairwise distinct videos; every other value gets the English one |
| ProductsPage.LuntsButtonTarget | src/pages/products.tsx:293 | the target is under the `${lang}` segment and passes the Lunts test |
| ProductsPage.LuntsButtonBypassesBasename | src/pages/products.tsx:293 | under a supported language the target is `/` + lang + `/products/lunts`, and it does not start with the router's basename `/bitsquid-website` |

## Left out

- Styling, media queries, animations and the carousel's `translateX` offset: they are presentation only.
- Translation lookup `t(...)`: the model tracks only which key is chosen (`LanguageName`, `StatusKind.MessageKey`).
- Timers: the autoplay period and the 2-second wait in the submit handler. The tick (`Tick`) and the completion of a send (`FinishSubmit(sent)`) are events, and the send's outcome is a parameter.
- EmailJS: it is commented out in the source.
- Browser APIs: `window.scrollTo`, the scroll listener with its `scrollY > 50` flag, `window.open` and the full-page `window.location.href` assignment.
- React Router's `basename` prefix: the routed paths are the ones after `/bitsquid-website`, which `<Link>` and `navigate` add. URL decoding of `:lang` is not modelled either.
- Case-insensitive matching of static segments and tolerance of a trailing `/`. Nested tails are matched exactly as written, and an empty tail or `/` is the index route.
- Footer.LuntsBrandExactlyOnLuntsPages, Footer.BrandFollowsShownPage, Navbar.ActiveLinkMatchesShownPage: these hold only for the exactly matched tails the model routes. React Router also shows `/en/Products/Lunts` as the Lunts page, where the case-sensitive `includes('/products/lunts')` fails, so the footer and bar show the Bitsquid brand and the NIT line there. It also shows `/en/products/` as the products page, where no link of the bar is active.
- ProductsPage.LuntsButtonBypassesBasename: the model does not say what the button's full-page load shows. Its URL lacks the basename, so it falls outside the router, and on a deployment under `/bitsquid-website` it does not reach the Lunts page.
- React's effect ordering: when the wrapper redirects and the nested catch-all also navigates in the same render, the model keeps the wrapper's redirect (`Resolve`).
- The component lifecycle: re-renders and `useEffect` dependencies, including the render of children before the wrapper's redirect takes effect.
- Carousel.CarouselState.constructor: requires at least one slide. The only caller passes four, and with an empty list `% 0` would give NaN. A change of `items.length` after mounting is not modelled either.
- Carousel.CarouselState.GoToSlide: requires an index in range, because its only callers are the indicator dots `0..n-1`.
- Contact.ContactForm.HandleChange: takes one of the three field names. An input with any other `name` would add a new key to the form data.
- Contact.ContactForm.BeginSubmit: requires that no send is in flight, because the submit button is disabled while loading.
- Static pages with no logic beyond text and `/${lang}/...` templates: home, jobs, the two legal pages and the entry point. Their link targets have the same form as the ones checked in `Navbar`, `Footer` and `ProductsPage`.
