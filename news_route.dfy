/**
 * The `GET /news` handler: query-parameter defaults, the weight
 * normalisation, and the shape of the success and error bodies.
 */
module NewsRoute {
  import opened Wrappers
  import opened JsParseInt
  import opened NewsService

  /** `req.query`: each parameter is absent or a single string. */
  datatype NewsQuery = NewsQuery(category: Option<string>, legacyWeight: Option<string>)

  datatype Body =
    | SuccessBody(success: bool, data: seq<Article>, count: int, timestamp: string)
    | ErrorBody(success: bool, error: string)

  datatype Reply = Reply(status: int, body: Body)

  const FallbackMessage := "Failed to fetch news"

  /** `String(category)` after the default 'tmt'. */
  function CategoryParam(q: NewsQuery): (c: string)
    ensures q.category.None? ==> c == DefaultCategory
    ensures q.category.Some? ==> c == q.category.value
  {
    match q.category
    case None => DefaultCategory
    case Some(c) => c
  }

  /** `Math.min(100, Math.max(0, parsed || 50))`, where `NaN` and `0` are both falsy. */
  function ClampWeight(parsed: Option<int>): (w: int)
    ensures 0 <= w <= 100
    ensures parsed.None? ==> w == 50
    ensures parsed == Some(0) ==> w == 50
    ensures parsed.Some? && parsed.value < 0 ==> w == 0
    ensures parsed.Some? && parsed.value > 100 ==> w == 100
    ensures parsed.Some? && 1 <= parsed.value <= 100 ==> w == parsed.value
  {
    var v := match parsed
      case None => 50
      case Some(n) => if n == 0 then 50 else n;
    var lower := if v < 0 then 0 else v;
    if lower > 100 then 100 else lower
  }

  /** The weight the handler passes on: `legacyWeight` defaults to 50 before parsing. */
  function WeightParam(q: NewsQuery): (w: int)
    ensures 0 <= w <= 100
  {
    var text := match q.legacyWeight
      case None => IntToString(50)
      case Some(s) => s;
    ClampWeight(ParseInt(text))
  }

  /** A missing `legacyWeight` becomes 50. */
  lemma MissingWeightIsFifty(category: Option<string>)
    ensures WeightParam(NewsQuery(category, None)) == 50
  {
    ParseIntRoundTrip(50);
  }

  /** A weight sent as its decimal text arrives unchanged when it is 1..100, and 0 arrives as 50. */
  lemma SentWeightArrives(category: Option<string>, n: int)
    ensures 1 <= n <= 100 ==> WeightParam(NewsQuery(category, Some(IntToString(n)))) == n
    ensures n == 0 ==> WeightParam(NewsQuery(category, Some(IntToString(n)))) == 50
  {
    ParseIntRoundTrip(n);
  }

  /** The route yields weight 0 only for a negative parsed value. */
  lemma ZeroOnlyFromNegative(parsed: Option<int>)
    ensures ClampWeight(parsed) == 0 <==> parsed.Some? && parsed.value < 0
  {
  }

  /** The message of a thrown value: an `Error`'s own, otherwise the fallback text. */
  function MessageOf(f: Failure): (m: string)
    ensures f.ErrorObject? ==> m == f.message
    ensures f.NonError? ==> m == FallbackMessage
  {
    match f
    case ErrorObject(m) => m
    case NonError => FallbackMessage
  }

  /** The handler, with `now` standing for `new Date().toISOString()`. */
  function HandleNews(q: NewsQuery, apiKey: Option<string>, provider: Provider, now: string): (r: Reply)
    ensures var fetched := FetchNews(CategoryParam(q), WeightParam(q), apiKey, provider);
      && (r.body.SuccessBody? <==> fetched.Success?)
      && (fetched.Success? ==>
            r.status == 200 && r.body.success && r.body.data == fetched.value
            && r.body.count == |r.body.data| && r.body.timestamp == now)
      && (fetched.Failure? ==>
            r.status == 500 && !r.body.success && r.body.error == MessageOf(fetched.error))
  {
    match FetchNews(CategoryParam(q), WeightParam(q), apiKey, provider)
    case Success(articles) => Reply(200, SuccessBody(true, articles, |articles|, now))
    case Failure(e) => Reply(500, ErrorBody(false, MessageOf(e)))
  }

  /** A successful reply never carries more than one page. */
  lemma ReplyCountBound(q: NewsQuery, apiKey: Option<string>, provider: Provider, now: string)
    ensures HandleNews(q, apiKey, provider, now).body.SuccessBody? ==>
      0 <= HandleNews(q, apiKey, provider, now).body.count <= PageSize
  {
  }

  /** Without a key, absent or empty, the reply is the 500 error naming the missing variable. */
  lemma MissingKeyReply(q: NewsQuery, apiKey: Option<string>, provider: Provider, now: string)
    requires !KeyConfigured(apiKey)
    ensures HandleNews(q, apiKey, provider, now) == Reply(500, ErrorBody(false, MissingKeyMessage))
  {
  }
}
