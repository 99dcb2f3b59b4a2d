# News aggregator core, modelled in Dafny

This project models the logic of a small news aggregator: a backend that asks a
third-party article-search API for news in one industry category, and a browser
client that keeps the reader's preferences.

What is modelled:

- **The backend pipeline** (`news_service.dfy`). The category is looked up in a fixed
  keyword table, with 'tmt' as the fallback. A missing `NEWS_API_KEY` is an error.
  The provider's records become `Article`s, with the id `<source id>-<publishedAt>`; a null source id is written as "null".
  Articles whose description mentions "[+]" or "subscription" are dropped as likely
  paywalled. The legacy/new-age weighting then re-selects the list, and the result is
  cut to 25. The HTTP call to the provider is a function parameter (`Provider`).
- **The `GET /news` route** (`news_route.dfy`). `category` defaults to 'tmt'.
  `legacyWeight` is parsed with `parseInt`, defaulted with `|| 50` and clamped to
  [0, 100]. The reply is either the success body or the 500 error body.
  `js_parse_int.dfy` models the radix-10 path of `parseInt` (section 19.2.5 of
  ECMAScript 2022) and the decimal text `String(n)` gives an integer.
- **The preference store** (`preferences.dfy`). A class holds the current
  preferences and a `storage` map that stands for `localStorage`. Its constructor is
  the initial load. It has methods for `setPreferences` and `resetPreferences`.
  `JSON.parse` and `JSON.stringify` are constructor parameters. The class invariant
  `Valid()` says that reloading from storage reproduces the current preferences.
- **The media slider** (`media_slider.dfy`). It covers the label thresholds, the
  "x% Legacy / y% New Age" split and the value the range input writes back.
- Shared helpers: `text.dfy` (ASCII lower-casing and `includes`, with a reference
  definition of "occurs as a substring"), `sequences.dfy` (`filter`, `slice(0, end)`
  with JavaScript's negative-end rule, and subsequence) and `wrappers.dfy`.

Weights are unbounded integers. `Math.round((w / 100) * 25)` is modelled as
round-half-up, `(25 * w + 50) / 100`. `ApplyMediaWeighting` is defined for every
integer weight, with `slice`'s treatment of negative and oversized ends.

Three consequences of the code are worth stating:

- The legacy and new-age groups are not disjoint. Membership in each is a separate
  substring test on the source name. An article matching both lists is taken from
  both groups and can appear twice (`DoubleMatchAppearsTwice`).
- The "other" group never fills a slot. Its slice has length
  `25 - legacySlots - newAgeSlots`, which is 0. Unmatched articles are therefore never
  returned unless the weight is exactly 50 (`OtherSlotsAlwaysZero`, `UnmatchedNeverFill`).
- A parsed `legacyWeight` of 0 becomes 50, because 0 is falsy. Weight 0 can still
  reach the service, through any negative value (`ZeroOnlyFromNegative`).

## Model

| member | source | states |
|---|---|---|
| Text.ContainsIff | backend/src/services/newsService.ts:77-78 | the left-to-right `includes` search succeeds exactly when the pattern occurs at some index of the string |
| Sequences.KeepMembership | backend/src/services/newsService.ts:98-104 | `filter` keeps an element exactly when it is in the input and passes the test |
| Sequences.KeepSubseq | backend/src/services/newsService.ts:75-79 | `filter` output is a subsequence of its input: relative order is kept |
| Sequences.KeepNone | backend/src/services/newsService.ts:98-104 | a test that no element passes yields the empty list |
| NewsService.CategoryQuery | backend/src/services/newsService.ts:49 | a known lower-cased category gets its own query; any other category gets the 'tmt' query |
| NewsService.CategoryQueryIgnoresCase | backend/src/services/newsService.ts:49 | a category and its lower-cased form get the same query |
| NewsService.Request | backend/src/services/newsService.ts:52-60 | the provider is asked for the category's query, in English, newest first, 25 per page, with the configured key |
| NewsService.KeyConfigured | backend/src/services/newsService.ts:44 | the key counts as configured exactly when it is present and not the empty string |
| NewsService.ArticleId | backend/src/services/newsService.ts:63 | the id is the source id (or "null"), then "-", then the publication timestamp |
| NewsService.ToArticle | backend/src/services/newsService.ts:62-72 | every record field is copied to its article field (`urlToImage` to `image`, `source.name` to `source`), with the derived id and the requested category |
| NewsService.MapArticles | backend/src/services/newsService.ts:62-72 | one article per provider record, in the same order, each the mapping of its record |
| NewsService.IdsCollide | backend/src/services/newsService.ts:63 | two records with the same source id and the same timestamp get the same article id |
| NewsService.RemovePaywalled | backend/src/services/newsService.ts:75-79 | every survivor was in the input and mentions neither marker; every article without a description survives; survivors keep their order |
| NewsService.PaywallFilterMembership | backend/src/services/newsService.ts:75-79 | an article survives the filter exactly when it was in the input and its lower-cased description contains neither "[+]" nor "subscription" |
| NewsService.MatchesAny | backend/src/services/newsService.ts:99 | a source name matches a list exactly when its lower-cased form contains the lower-cased form of some list entry |
| NewsService.IsLegacy | backend/src/services/newsService.ts:98-100 | an article is legacy exactly when its lower-cased source name contains a legacy outlet name |
| NewsService.IsNewAge | backend/src/services/newsService.ts:102-104 | an article is new-age exactly when its lower-cased source name contains a new-age outlet name |
| NewsService.LegacySlots | backend/src/services/newsService.ts:112-113 | the legacy slot count is `weight/4` rounded half up in exact arithmetic, and lies in [0, 25] for weights in [0, 100] |
| NewsService.NewAgeSlots | backend/src/services/newsService.ts:114 | legacy and new-age slot counts add up to 25 |
| NewsService.OtherSlotsAlwaysZero | backend/src/services/newsService.ts:120 | the slice taken from unmatched articles always has length 0 |
| NewsService.ApplyMediaWeighting | backend/src/services/newsService.ts:91-124 | weight 50 returns the input unchanged; any other weight returns at most 25 articles, all drawn from the input and all matching a legacy or a new-age source |
| NewsService.WeightedComposition | backend/src/services/newsService.ts:112-123 | for a weight in [0, 100] other than 50, the result is the first legacy-slots legacy articles followed by the first new-age-slots new-age articles, each in input order |
| NewsService.AllLegacyAtHundred | backend/src/services/newsService.ts:113-121 | weight 100 returns only legacy articles, the first 25 of them, so the page is full when there are at least 25 |
| NewsService.AllNewAgeAtZero | backend/src/services/newsService.ts:113-121 | weight 0 returns only new-age articles, the first 25 of them, so the page is full when there are at least 25 |
| NewsService.UnmatchedNeverFill | backend/src/services/newsService.ts:106-121 | when no article matches either list and the weight is not 50, the result is empty |
| NewsService.DoubleMatchAppearsTwice | backend/src/services/newsService.ts:98-119 | an article matching both lists, given alone, comes back twice for weights 2..97 other than 50 |
| NewsService.SourceMatchingBothLists | backend/src/services/newsService.ts:20-38 | the two source lists are not exclusive: the name "cnn wired" matches both |
| NewsService.Process | backend/src/services/newsService.ts:62-84 | the post-fetch pipeline returns at most 25 articles; each is a mapped provider record that is not paywalled and carries the requested category; at weight 50 the result is the first 25 filtered articles in provider order |
| NewsService.ProcessWeighted | backend/src/services/newsService.ts:75-84 | for a weight in [0, 100] other than 50, the page is the first legacy-slots legacy articles followed by the first new-age-slots new-age articles among the mapped, unpaywalled records |
| NewsService.FetchNews | backend/src/services/newsService.ts:40-88 | a missing or empty key fails with "NEWS_API_KEY not configured"; with a key, a provider failure is passed on unchanged and a provider success gives the pipeline applied to what it returned for the category's request; nothing else succeeds |
| NewsService.MissingKeyNeverFetches | backend/src/services/newsService.ts:44-46 | without a key, the outcome does not depend on the provider: it fails before any fetch |
| NewsService.FetchNewsPageBound | backend/src/services/newsService.ts:84 | a successful fetch returns at most 25 articles, for every weight |
| JsParseInt.ParseInt | backend/src/routes/news.ts:11 | the empty string is NaN; a string starting with a digit is read as the decimal value of its leading digit run; a minus sign before a digit negates that value; any other first character that is not white space gives NaN |
| JsParseInt.WhiteSpaceSkipped | backend/src/routes/news.ts:11 | a leading white-space character is skipped: the result is that of the rest of the string |
| JsParseInt.PlusSignAccepted | backend/src/routes/news.ts:11 | a `+` sign before a digit is accepted and the value of the following digit run is returned |
| JsParseInt.LoneSignIsNaN | backend/src/routes/news.ts:11 | a `+` or `-` sign that is not followed by a digit gives NaN |
| JsParseInt.ParseIntRoundTrip | backend/src/routes/news.ts:11 | `parseInt` reads back the integer that `String` wrote |
| NewsRoute.CategoryParam | backend/src/routes/news.ts:8-10 | a missing category is 'tmt'; a given one is passed on as it is |
| NewsRoute.ClampWeight | backend/src/routes/news.ts:11 | the weight lies in [0, 100]; NaN and 0 become 50; negatives become 0; values over 100 become 100; 1..100 pass unchanged |
| NewsRoute.WeightParam | backend/src/routes/news.ts:8-11 | the weight handed to the service always lies in [0, 100] |
| NewsRoute.MissingWeightIsFifty | backend/src/routes/news.ts:8-11 | a missing `legacyWeight` becomes 50 |
| NewsRoute.SentWeightArrives | backend/src/routes/news.ts:11 | a weight 1..100 sent as decimal text reaches the service unchanged; 0 reaches it as 50 |
| NewsRoute.ZeroOnlyFromNegative | backend/src/routes/news.ts:11 | the clamped weight is 0 exactly when the parsed value is negative |
| NewsRoute.MessageOf | backend/src/routes/news.ts:25 | a thrown `Error` contributes its own message; any other thrown value gives "Failed to fetch news" |
| NewsRoute.HandleNews | backend/src/routes/news.ts:6-27 | success gives status 200, `success` true, the fetched articles as `data`, `count` equal to their number, and the timestamp; failure gives status 500, `success` false, and the thrown error's message |
| NewsRoute.ReplyCountBound | backend/src/routes/news.ts:15-20 | a success body's `count` lies in [0, 25] |
| NewsRoute.MissingKeyReply | backend/src/routes/news.ts:21-26 | without a configured key (absent or empty), the reply is 500 with the message "NEWS_API_KEY not configured" |
| Preferences.Merge | frontend/src/context/UserPreferencesContext.tsx:38 | each field present in the partial replaces the old value; each absent field keeps it |
| Preferences.MergeIdempotent | frontend/src/context/UserPreferencesContext.tsx:38 | merging the same partial twice equals merging it once |
| Preferences.MergeNoChange | frontend/src/context/UserPreferencesContext.tsx:38 | an empty partial changes nothing |
| Preferences.MergeWhole | frontend/src/context/UserPreferencesContext.tsx:38 | a partial with every field replaces the whole record |
| Preferences.Saved | frontend/src/context/UserPreferencesContext.tsx:23-24 | a saved text counts only when the key is present with a non-empty value |
| Preferences.Restore | frontend/src/context/UserPreferencesContext.tsx:22-34 | with nothing saved or a text that fails to parse, the preferences are the defaults {tmt, 50}; a text that parses is overlaid on the defaults, so its absent fields keep their default values |
| Preferences.RestoreAfterRemoval | frontend/src/context/UserPreferencesContext.tsx:29-32 | removing a corrupt saved text does not change what a load reads: the defaults |
| Preferences.RestoreAfterWrite | frontend/src/context/UserPreferencesContext.tsx:39 | after the encoding of a record is written, a load reads back exactly that record |
| Preferences.PreferenceStore.Load | frontend/src/context/UserPreferencesContext.tsx:22-34 | initial state is the restored preferences; storage loses the key exactly when its text fails to parse; the invariant holds |
| Preferences.PreferenceStore.SetPreferences | frontend/src/context/UserPreferencesContext.tsx:36-42 | the state becomes the merge of the old state and the partial; the key then holds the encoding of the new state, and other keys are untouched |
| Preferences.PreferenceStore.ResetPreferences | frontend/src/context/UserPreferencesContext.tsx:44-47 | the state becomes the defaults and only the key is removed from storage |
| Preferences.ReloadKeepsPreferences | frontend/src/context/UserPreferencesContext.tsx:22-41 | after a load and a `setPreferences`, a fresh load from the written storage gives the same preferences |
| Preferences.ReloadAfterReset | frontend/src/context/UserPreferencesContext.tsx:22-47 | after a reset, a fresh load gives the defaults |
| MediaSlider.MediaLabel | frontend/src/components/MediaSlider.tsx:7-11 | 'New Age Heavy' exactly below 35, 'Legacy Heavy' exactly above 65, 'Balanced' exactly for 35..65; so every weight gets exactly one label |
| MediaSlider.DisplaySplit | frontend/src/components/MediaSlider.tsx:31 | the displayed legacy share is the weight, and the two shares add up to 100 |
| MediaSlider.SliderValue | frontend/src/components/MediaSlider.tsx:21-24 | the slider only reports values in [0, 100]; positions inside the range are reported as they are |
| MediaSlider.OnChange | frontend/src/components/MediaSlider.tsx:25 | moving the slider stores the reported weight, read back from its decimal text with `parseInt`, keeps the category and persists the new state |

## Left out

- The HTTP request to the provider (backend/src/services/newsService.ts:52-60) is network I/O. It is the `Provider` function parameter, which receives the request record and returns the `articles` array or a thrown value.
- Malformed provider bodies are not modelled. A missing `articles` array would throw inside the `try` and be rethrown. A null source name makes backend/src/services/newsService.ts:99 throw, and `fetchNews` rethrow, when the weight is not 50; at weight 50 the article is returned with a null `source`. Record fields are plain strings, and only `description` and `source.id` may be absent.
- NewsService.LegacySlots: computes round-half-up of 25·w/100 exactly, not `Math.round` on doubles. The two differ at weight 58, which the route can pass. There `(58 / 100) * 25` evaluates to 14.499999999999998, so the program uses 14 legacy and 11 new-age slots. The model uses 15 and 10. At weight 58, `WeightedComposition` and `ProcessWeighted` describe a page one legacy article longer and one new-age article shorter than the program's. Every other weight in [0, 100] gives the same count in both.
- `toLowerCase` folds only the ASCII letters A-Z. Unicode case mapping is not modelled.
- `parseInt` is modelled only on its radix-10 path. A `0x` prefix, which `parseInt` reads as hexadecimal, is read here as the digit 0. The precision loss for values above 2^53 is not modelled; the clamp to 100 hides it.
- `String(n)` is modelled as plain decimal. Its exponent form for magnitudes of 10^21 and above is not modelled.
- Array-valued query parameters (`?legacyWeight=1&legacyWeight=2`) and `String()` of non-strings are not modelled. Each parameter is absent or one string.
- `categoryKeywords` is a plain object, so inherited keys such as "constructor" would return a non-string. The model treats every key outside the eight categories as unknown.
- The "other" group is computed with `includes`, i.e. object identity. The model uses value equality. Nothing depends on this, because that group's slice is always empty.
- The `media_age` field of `Article` is never set by the code and is left out.
- `fetchNews`'s default arguments are unused, because the route always passes both.
- `console.error` logging is left out. `new Date().toISOString()` is the `now` parameter.
- `JSON.parse` and `JSON.stringify` are parameters of the preference store, and a parsed value is a `PartialPrefs` with two optional fields. The store relies on `RoundTrips`: an encoding is never empty and decodes to every field. Saved JSON that is not an object, has extra keys or has ill-typed fields is not modelled.
- React's state machinery is left out: updater functions, batching, re-rendering and `useUserPreferences` outside its provider. Each call is modelled as one sequential state change.
- `SliderValue` treats the browser's range-input sanitisation as a clamp to [0, 100]. Step rounding for non-integer positions is not modelled.
- Glue is left out: server setup, CORS, the health check and the global error handler (backend/src/server.ts). So are the types file, the data-fetching hook (frontend/src/hooks/useNewsData.ts, asynchronous I/O), and the rendering components (ArticleCard, ArticleList, IndustrySelector, ShareButtons, App, main).
- Vote-based ordering and article removal are absent from the code; ArticleList renders articles in the order received. Neither is modelled.
