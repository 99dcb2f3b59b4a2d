/**
 * The backend's article pipeline: category lookup, the API-key guard, the
 * mapping of provider records to articles, the paywall filter, the
 * legacy/new-age weighting and the final truncation to one page.
 * The HTTP call to the provider is a function parameter.
 */
module NewsService {
  import opened Wrappers
  import opened Text
  import opened Sequences

  /** `article.source` of a provider record; `id` is null for many sources. */
  datatype RawSource = RawSource(id: Option<string>, name: string)

  /** One element of the provider's `response.data.articles`. */
  datatype RawArticle = RawArticle(
    source: RawSource,
    title: string,
    description: Option<string>,
    content: string,
    url: string,
    urlToImage: string,
    publishedAt: string)

  /** The backend's `Article` record. */
  datatype Article = Article(
    id: string,
    title: string,
    description: Option<string>,
    content: string,
    url: string,
    image: string,
    source: string,
    publishedAt: string,
    category: string)

  /** What is thrown: an `Error` carries a message; anything else does not. */
  datatype Failure = ErrorObject(message: string) | NonError

  /** The query parameters of the provider's search endpoint. */
  datatype ProviderRequest = ProviderRequest(
    q: string, language: string, sortBy: string, pageSize: int, apiKey: string)

  /** The provider call: the returned `articles` array, or what it throws. */
  type Provider = ProviderRequest -> Result<seq<RawArticle>, Failure>

  const DefaultCategory := "tmt"

  const CategoryKeywords: map<string, string> := map[
    "tmt" := "technology OR telecom OR media",
    "fintech" := "fintech OR banking OR cryptocurrency OR payments",
    "healthcare" := "healthcare OR pharma OR biotech OR medical",
    "manufacturing" := "manufacturing OR industrial OR supply chain",
    "retail" := "retail OR e-commerce OR consumer goods",
    "media" := "media OR entertainment OR publishing",
    "automotive" := "automotive OR electric vehicles OR autonomous",
    "energy" := "energy OR power OR renewable OR oil gas"
  ]

  const LegacySources: seq<string> := [
    "bbc-news", "cnn", "the-times", "financial-times",
    "the-wall-street-journal", "the-washington-post"
  ]

  const NewAgeSources: seq<string> := [
    "techcrunch", "hacker-news", "the-verge", "wired",
    "recode", "ars-technica", "fast-company"
  ]

  const TotalSlots := 25
  const PageSize := 25
  const MissingKeyMessage := "NEWS_API_KEY not configured"

  // ---------------------------------------------------------------- query

  /** The search query for a category; unknown categories use the 'tmt' query. */
  function CategoryQuery(category: string): (q: string)
    ensures Lower(category) in CategoryKeywords ==> q == CategoryKeywords[Lower(category)]
    ensures Lower(category) !in CategoryKeywords ==> q == CategoryKeywords[DefaultCategory]
  {
    var key := Lower(category);
    if key in CategoryKeywords then CategoryKeywords[key] else CategoryKeywords[DefaultCategory]
  }

  /** The lookup ignores ASCII case: a category and its lower-cased form get the same query. */
  lemma CategoryQueryIgnoresCase(category: string)
    ensures CategoryQuery(category) == CategoryQuery(Lower(category))
  {
    LowerIdempotent(category);
  }

  /** The request sent for a category with a configured key. */
  function Request(category: string, apiKey: string): (req: ProviderRequest)
    ensures req.q == CategoryQuery(category) && req.apiKey == apiKey
    ensures req.language == "en" && req.sortBy == "publishedAt" && req.pageSize == PageSize
  {
    ProviderRequest(CategoryQuery(category), "en", "publishedAt", PageSize, apiKey)
  }

  /** `!NEWS_API_KEY` is false: the variable is set and not empty. */
  predicate KeyConfigured(apiKey: Option<string>)
    ensures KeyConfigured(apiKey) ==> apiKey.Some? && |apiKey.value| > 0
    ensures apiKey.Some? && |apiKey.value| > 0 ==> KeyConfigured(apiKey)
  {
    apiKey.Some? && apiKey.value != ""
  }

  // ---------------------------------------------------------------- mapping

  /** The text a template literal gives a possibly-null source id. */
  function IdText(id: Option<string>): string
  {
    match id
    case Some(v) => v
    case None => "null"
  }

  /** `${article.source.id}-${article.publishedAt}`. */
  function ArticleId(raw: RawArticle): (id: string)
    ensures var prefix := IdText(raw.source.id);
      && |id| == |prefix| + 1 + |raw.publishedAt|
      && id[..|prefix|] == prefix
      && id[|prefix|] == '-'
      && id[|prefix| + 1..] == raw.publishedAt
  {
    IdText(raw.source.id) + "-" + raw.publishedAt
  }

  /** Each field of the record is copied across; the id is derived and the category is the requested one. */
  function ToArticle(raw: RawArticle, category: string): (a: Article)
    ensures a.id == ArticleId(raw) && a.category == category
    ensures a.title == raw.title && a.description == raw.description && a.content == raw.content
    ensures a.url == raw.url && a.image == raw.urlToImage
    ensures a.source == raw.source.name && a.publishedAt == raw.publishedAt
  {
    Article(ArticleId(raw), raw.title, raw.description, raw.content, raw.url,
            raw.urlToImage, raw.source.name, raw.publishedAt, category)
  }

  /** `response.data.articles.map(...)`. */
  function MapArticles(raws: seq<RawArticle>, category: string): (r: seq<Article>)
    ensures |r| == |raws|
    ensures forall i :: 0 <= i < |raws| ==> r[i] == ToArticle(raws[i], category)
  {
    seq(|raws|, i requires 0 <= i < |raws| => ToArticle(raws[i], category))
  }

  /** Two records from the same source at the same instant get the same id. */
  lemma IdsCollide(a: RawArticle, b: RawArticle)
    requires a.source.id == b.source.id && a.publishedAt == b.publishedAt
    ensures ArticleId(a) == ArticleId(b)
  {
  }

  // ---------------------------------------------------------------- paywall filter

  /** The paywall heuristic: a description mentioning "[+]" or "subscription", in any case. */
  predicate Paywalled(a: Article)
  {
    a.description.Some? &&
    (Contains(Lower(a.description.value), "[+]") || Contains(Lower(a.description.value), "subscription"))
  }

  predicate NotPaywalled(a: Article)
  {
    !Paywalled(a)
  }

  /** The paywall filter: drops paywalled articles, keeps those without a description, keeps order. */
  function RemovePaywalled(articles: seq<Article>): (r: seq<Article>)
    ensures forall a :: a in r ==> a in articles && !MentionsPaywall(a)
    ensures forall a :: a in articles && a.description.None? ==> a in r
    ensures IsSubseq(r, articles)
  {
    KeepMembership(articles, NotPaywalled);
    KeepSubseq(articles, NotPaywalled);
    forall a | a in articles && a.description.Some?
      ensures Paywalled(a) <==> MentionsPaywall(a)
    {
      ContainsIff(Lower(a.description.value), "[+]");
      ContainsIff(Lower(a.description.value), "subscription");
    }
    Keep(articles, NotPaywalled)
  }

  /** The filter against the reference meaning of "contains". */
  ghost predicate MentionsPaywall(a: Article)
  {
    a.description.Some? &&
    (HasSubstring(Lower(a.description.value), "[+]") || HasSubstring(Lower(a.description.value), "subscription"))
  }

  /** An article survives the filter exactly when it was in the input and its description mentions neither marker. */
  lemma PaywallFilterMembership(articles: seq<Article>, a: Article)
    ensures a in RemovePaywalled(articles) <==> a in articles && !MentionsPaywall(a)
  {
    KeepMembership(articles, NotPaywalled);
    if a.description.Some? {
      ContainsIff(Lower(a.description.value), "[+]");
      ContainsIff(Lower(a.description.value), "subscription");
    }
  }

  // ---------------------------------------------------------------- weighting

  /** `list.some(s => name.toLowerCase().includes(s.toLowerCase()))`. */
  predicate MatchesAny(name: string, list: seq<string>)
    ensures MatchesAny(name, list) <==> exists s :: s in list && HasSubstring(Lower(name), Lower(s))
  {
    forall s | s in list
      ensures Contains(Lower(name), Lower(s)) <==> HasSubstring(Lower(name), Lower(s))
    {
      ContainsIff(Lower(name), Lower(s));
    }
    exists s :: s in list && Contains(Lower(name), Lower(s))
  }

  /** Legacy: the lower-cased source name contains one of the legacy outlet names. */
  predicate IsLegacy(a: Article)
    ensures IsLegacy(a) <==> exists s :: s in LegacySources && HasSubstring(Lower(a.source), Lower(s))
  {
    MatchesAny(a.source, LegacySources)
  }

  /** New age: the lower-cased source name contains one of the new-age outlet names. */
  predicate IsNewAge(a: Article)
    ensures IsNewAge(a) <==> exists s :: s in NewAgeSources && HasSubstring(Lower(a.source), Lower(s))
  {
    MatchesAny(a.source, NewAgeSources)
  }

  /** `Math.round((weight / 100) * 25)`, rounding halves upwards. */
  function LegacySlots(weight: int): (r: int)
    ensures 100 * r - 50 <= TotalSlots * weight < 100 * r + 50
    ensures 0 <= weight <= 100 ==> 0 <= r <= TotalSlots
  {
    (weight * TotalSlots + 50) / 100
  }

  function NewAgeSlots(weight: int): (r: int)
    ensures LegacySlots(weight) + r == TotalSlots
  {
    TotalSlots - LegacySlots(weight)
  }

  /** The length of the slice taken from the unmatched articles. */
  function OtherSlots(weight: int): int
  {
    TotalSlots - LegacySlots(weight) - NewAgeSlots(weight)
  }

  /** The unmatched articles get no slots, whatever the weight. */
  lemma OtherSlotsAlwaysZero(weight: int)
    ensures OtherSlots(weight) == 0
  {
  }

  /** `applyMediaWeighting`. */
  function ApplyMediaWeighting(articles: seq<Article>, weight: int): (r: seq<Article>)
    ensures weight == 50 ==> r == articles
    ensures weight != 50 ==> |r| <= TotalSlots
    ensures forall a :: a in r ==> a in articles
    ensures weight != 50 ==> forall a :: a in r ==> IsLegacy(a) || IsNewAge(a)
  {
    if weight == 50 then articles
    else
      var legacy := Keep(articles, IsLegacy);
      var newAge := Keep(articles, IsNewAge);
      var other := Keep(articles, (a: Article) => a !in legacy && a !in newAge);
      KeepMembership(articles, IsLegacy);
      KeepMembership(articles, IsNewAge);
      KeepMembership(articles, (a: Article) => a !in legacy && a !in newAge);
      var combined := SliceTo(legacy, LegacySlots(weight)) + SliceTo(newAge, NewAgeSlots(weight))
        + SliceTo(other, OtherSlots(weight));
      assert SliceTo(other, OtherSlots(weight)) == [];
      SliceTo(combined, TotalSlots)
  }

  /**
   * For a weight in range other than 50: the first legacy-slots legacy articles,
   * then the first new-age-slots new-age articles, each group in input order.
   */
  lemma WeightedComposition(articles: seq<Article>, weight: int)
    requires 0 <= weight <= 100 && weight != 50
    ensures ApplyMediaWeighting(articles, weight)
      == Prefix(Keep(articles, IsLegacy), LegacySlots(weight))
       + Prefix(Keep(articles, IsNewAge), NewAgeSlots(weight))
  {
    var legacy := Keep(articles, IsLegacy);
    var newAge := Keep(articles, IsNewAge);
    var other := Keep(articles, (a: Article) => a !in legacy && a !in newAge);
    SliceToNonNegative(legacy, LegacySlots(weight));
    SliceToNonNegative(newAge, NewAgeSlots(weight));
    var combined := Prefix(legacy, LegacySlots(weight)) + Prefix(newAge, NewAgeSlots(weight));
    assert combined + SliceTo(other, OtherSlots(weight)) == combined;
    assert |combined| <= TotalSlots;
  }

  /** Weight 100: only legacy articles, and a full page when there are at least 25 of them. */
  lemma AllLegacyAtHundred(articles: seq<Article>)
    ensures var r := ApplyMediaWeighting(articles, 100);
      && r == Prefix(Keep(articles, IsLegacy), TotalSlots)
      && (forall a :: a in r ==> IsLegacy(a))
      && (|Keep(articles, IsLegacy)| >= TotalSlots ==> |r| == TotalSlots)
  {
    WeightedComposition(articles, 100);
    KeepMembership(articles, IsLegacy);
  }

  /** Weight 0: only new-age articles, and a full page when there are at least 25 of them. */
  lemma AllNewAgeAtZero(articles: seq<Article>)
    ensures var r := ApplyMediaWeighting(articles, 0);
      && r == Prefix(Keep(articles, IsNewAge), TotalSlots)
      && (forall a :: a in r ==> IsNewAge(a))
      && (|Keep(articles, IsNewAge)| >= TotalSlots ==> |r| == TotalSlots)
  {
    WeightedComposition(articles, 0);
    KeepMembership(articles, IsNewAge);
  }

  // ---------------------------------------------------------------- pipeline

  /** Everything `fetchNews` does once the provider has answered. */
  function Process(raws: seq<RawArticle>, category: string, weight: int): (r: seq<Article>)
    ensures |r| <= PageSize
    ensures forall a :: a in r ==> a in MapArticles(raws, category) && !MentionsPaywall(a)
    ensures forall a :: a in r ==> a.category == category
    ensures weight == 50 ==> r == Prefix(RemovePaywalled(MapArticles(raws, category)), PageSize)
  {
    var mapped := MapArticles(raws, category);
    var kept := RemovePaywalled(mapped);
    var weighted := ApplyMediaWeighting(kept, weight);
    SliceToNonNegative(weighted, PageSize);
    KeepMembership(mapped, NotPaywalled);
    forall a | a in kept
      ensures a in mapped && !MentionsPaywall(a)
    {
      PaywallFilterMembership(mapped, a);
    }
    SliceTo(weighted, PageSize)
  }

  /**
   * For a weight in [0, 100] other than 50, the page is the first legacy-slots
   * legacy articles and then the first new-age-slots new-age articles among the
   * mapped, unpaywalled provider records.
   */
  lemma ProcessWeighted(raws: seq<RawArticle>, category: string, weight: int)
    requires 0 <= weight <= 100 && weight != 50
    ensures var kept := RemovePaywalled(MapArticles(raws, category));
      Process(raws, category, weight)
        == Prefix(Keep(kept, IsLegacy), LegacySlots(weight)) + Prefix(Keep(kept, IsNewAge), NewAgeSlots(weight))
  {
    var kept := RemovePaywalled(MapArticles(raws, category));
    WeightedComposition(kept, weight);
    SliceToNonNegative(ApplyMediaWeighting(kept, weight), PageSize);
  }

  /** `fetchNews`: the key guard, the provider call and the post-fetch pipeline. */
  function FetchNews(category: string, weight: int, apiKey: Option<string>, provider: Provider)
    : (r: Result<seq<Article>, Failure>)
    ensures !KeyConfigured(apiKey) ==> r == Failure(ErrorObject(MissingKeyMessage))
    ensures KeyConfigured(apiKey) && provider(Request(category, apiKey.value)).Failure? ==>
      r == Failure(provider(Request(category, apiKey.value)).error)
    ensures KeyConfigured(apiKey) && provider(Request(category, apiKey.value)).Success? ==>
      r == Success(Process(provider(Request(category, apiKey.value)).value, category, weight))
    ensures r.Success? ==>
      (&& KeyConfigured(apiKey)
       && provider(Request(category, apiKey.value)).Success?
       && r.value == Process(provider(Request(category, apiKey.value)).value, category, weight))
  {
    if !KeyConfigured(apiKey) then Failure(ErrorObject(MissingKeyMessage))
    else
      match provider(Request(category, apiKey.value))
      case Failure(e) => Failure(e)
      case Success(raws) => Success(Process(raws, category, weight))
  }

  /** A missing key fails before the provider is consulted: the provider cannot change the outcome. */
  lemma MissingKeyNeverFetches(category: string, weight: int, apiKey: Option<string>, p1: Provider, p2: Provider)
    requires !KeyConfigured(apiKey)
    ensures FetchNews(category, weight, apiKey, p1) == FetchNews(category, weight, apiKey, p2)
  {
  }

  /** Every returned page has at most 25 articles, for every weight. */
  lemma FetchNewsPageBound(category: string, weight: int, apiKey: Option<string>, provider: Provider)
    ensures FetchNews(category, weight, apiKey, provider).Success? ==>
      |FetchNews(category, weight, apiKey, provider).value| <= PageSize
  {
  }

  // ---------------------------------------------------------------- consequences of the code

  /** Unmatched articles are never used to fill the page: with none matching, the page is empty. */
  lemma UnmatchedNeverFill(articles: seq<Article>, weight: int)
    requires weight != 50
    requires forall i :: 0 <= i < |articles| ==> !IsLegacy(articles[i]) && !IsNewAge(articles[i])
    ensures ApplyMediaWeighting(articles, weight) == []
  {
    KeepNone(articles, IsLegacy);
    KeepNone(articles, IsNewAge);
  }

  /**
   * An article matching both lists is counted in both groups: whenever each group
   * gets at least one slot, it appears twice.
   */
  lemma DoubleMatchAppearsTwice(a: Article, weight: int)
    requires IsLegacy(a) && IsNewAge(a)
    requires 2 <= weight <= 97 && weight != 50
    ensures ApplyMediaWeighting([a], weight) == [a, a]
  {
    assert Keep([a], IsLegacy) == [a];
    assert Keep([a], IsNewAge) == [a];
    WeightedComposition([a], weight);
  }

  /** Source names that match both lists exist: "cnn wired" contains "cnn" and "wired". */
  lemma SourceMatchingBothLists()
    ensures MatchesAny("cnn wired", LegacySources) && MatchesAny("cnn wired", NewAgeSources)
  {
    var name := Lower("cnn wired");
    assert name == "cnn wired";
    assert Lower("cnn") == "cnn";
    assert Lower("wired") == "wired";
    assert OccursAt(name, "cnn", 0);
    ContainsIff(name, "cnn");
    assert name[4..9] == "wired";
    assert OccursAt(name, "wired", 4);
    ContainsIff(name, "wired");
    assert LegacySources[1] == "cnn";
    assert NewAgeSources[3] == "wired";
  }
}
