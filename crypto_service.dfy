/**
 * The remote data gateway: the three request functions against the market-data API.
 * Each builds one URL, issues one request and maps the reply to an outcome: HTTP 429
 * becomes the rate-limit error, any other non-2xx status an endpoint-specific error,
 * and a 2xx status the body. Errors are re-thrown unchanged, never retried.
 */
module CryptoService {
  import opened Optional
  import opened Strings

  const BaseUrl := "https://api.coingecko.com/api/v3"
  const RateLimitMessage := "API rate limit reached - 429"

  /** Default arguments of the fetchers. */
  const DefaultPage := 1
  const DefaultPerPage := 50
  const DefaultDays := 7

  /** One row of the markets list; the fields no logic of the dashboard reads are omitted. */
  datatype CryptoCoin = CryptoCoin(
    id: string,
    symbol: string,
    name: string,
    currentPrice: real,
    marketCapRank: int,
    priceChangePercentage24h: real)

  datatype CoinDetail = CoinDetail(
    id: string,
    symbol: string,
    name: string,
    descriptionEn: string,
    marketCapRank: int)

  /** `(timestamp in ms, price)` pairs. */
  datatype PriceHistory = PriceHistory(prices: seq<(int, real)>)

  datatype Endpoint = Markets | Detail | History

  /** The message each fetcher throws for a non-ok status other than 429. */
  function FailureMessage(e: Endpoint): string {
    match e
    case Markets => "Failed to fetch crypto data"
    case Detail => "Failed to fetch coin detail"
    case History => "Failed to fetch price history"
  }

  /** What `fetch` gives back: a response, or an error it throws itself. */
  datatype Reply<T> = Response(status: int, body: T) | Thrown(message: string)

  /** A fetcher's result: the resolved body, or the message of the error it throws. */
  datatype Outcome<T> = Ok(value: T) | Failed(message: string)

  /** `response.ok`. */
  predicate IsOkStatus(status: int) {
    200 <= status <= 299
  }

  /** The status test of every fetcher: 429 first, then `ok`; thrown errors pass through. */
  function Classify<T>(e: Endpoint, reply: Reply<T>): (r: Outcome<T>)
    ensures r.Ok? <==> reply.Response? && IsOkStatus(reply.status)
    ensures r.Ok? ==> r.value == reply.body
    ensures reply.Response? && reply.status == 429 ==> r == Failed(RateLimitMessage)
    ensures reply.Response? && reply.status != 429 && !IsOkStatus(reply.status) ==>
              r == Failed(FailureMessage(e))
    ensures reply.Thrown? ==> r == Failed(reply.message)
  {
    match reply
    case Thrown(message) => Failed(message)
    case Response(status, body) =>
      if status == 429 then Failed(RateLimitMessage)
      else if !IsOkStatus(status) then Failed(FailureMessage(e))
      else Ok(body)
  }

  // ---------------------------------------------------------------------------
  // Request URLs

  // The query strings of the template literals are written as their `key=value` pieces
  // joined by `&`; the text is the same.

  /** One `key=value` piece of a query string. */
  function Param(key: string, value: string): string {
    key + "=" + value
  }

  function MarketsQuery(page: int, perPage: int): seq<string> {
    [Param("vs_currency", "usd"), Param("order", "market_cap_desc"), Param("per_page", IntToString(perPage)),
     Param("page", IntToString(page)), Param("sparkline", "false")]
  }

  function MarketsUrl(page: int, perPage: int): string {
    BaseUrl + "/coins/markets" + "?" + Join(MarketsQuery(page, perPage), '&')
  }

  function CoinUrl(coinId: string): string {
    BaseUrl + "/coins/" + coinId
  }

  function MarketChartQuery(days: int): seq<string> {
    [Param("vs_currency", "usd"), Param("days", IntToString(days))]
  }

  function MarketChartUrl(coinId: string, days: int): string {
    BaseUrl + "/coins/" + coinId + "/market_chart" + "?" + Join(MarketChartQuery(days), '&')
  }

  /** The part of a URL before its query string. */
  function Path(url: string): string {
    Before(url, '?')
  }

  /** The `key=value` pieces of a URL's query string. */
  function QueryPieces(url: string): seq<string> {
    SplitAll(After(url, '?'), '&')
  }

  /** The value of the first query piece for `key`. */
  function QueryParam(url: string, key: string): Option<string> {
    Lookup(QueryPieces(url), key + "=")
  }

  function Lookup(pieces: seq<string>, prefix: string): Option<string>
    decreases |pieces|
  {
    if pieces == [] then None
    else if IsPrefix(prefix, pieces[0]) then Some(pieces[0][|prefix|..])
    else Lookup(pieces[1..], prefix)
  }

  /** A query parameter read as an integer. */
  function QueryInt(url: string, key: string): Option<int> {
    match QueryParam(url, key)
    case None => None
    case Some(v) => ParseInt(v)
  }

  // ---------------------------------------------------------------------------
  // The three fetchers. `server` stands for the network: the reply to each URL.

  /** The requests one fetcher call issues, and the outcome it resolves or throws. */
  datatype Call<T> = Call(requests: seq<string>, outcome: Outcome<T>)

  function FetchCryptoCoins(page: int, perPage: int, server: string -> Reply<seq<CryptoCoin>>)
    : (r: Call<seq<CryptoCoin>>)
    ensures r.requests == [MarketsUrl(page, perPage)]
    ensures r.outcome == Classify(Markets, server(MarketsUrl(page, perPage)))
  {
    var url := MarketsUrl(page, perPage);
    Call([url], Classify(Markets, server(url)))
  }

  function FetchCoinDetail(coinId: string, server: string -> Reply<CoinDetail>): (r: Call<CoinDetail>)
    ensures r.requests == [CoinUrl(coinId)]
    ensures r.outcome == Classify(Detail, server(CoinUrl(coinId)))
  {
    var url := CoinUrl(coinId);
    Call([url], Classify(Detail, server(url)))
  }

  function FetchPriceHistory(coinId: string, days: int, server: string -> Reply<PriceHistory>)
    : (r: Call<PriceHistory>)
    ensures r.requests == [MarketChartUrl(coinId, days)]
    ensures r.outcome == Classify(History, server(MarketChartUrl(coinId, days)))
  {
    var url := MarketChartUrl(coinId, days);
    Call([url], Classify(History, server(url)))
  }

  // ---------------------------------------------------------------------------
  // What the URLs carry, read back through the query parser.

  lemma NoSeparatorInNumber(i: int)
    ensures '&' !in IntToString(i) && '?' !in IntToString(i)
  {
    IntToStringChars(i, '&');
    IntToStringChars(i, '?');
  }

  /** A URL made of a path, `?` and `&`-joined pieces parses back into that path and those pieces. */
  lemma QueryOf(head: string, pieces: seq<string>)
    requires '?' !in head
    requires |pieces| > 0 && forall i :: 0 <= i < |pieces| ==> '&' !in pieces[i]
    ensures Path(head + "?" + Join(pieces, '&')) == head
    ensures QueryPieces(head + "?" + Join(pieces, '&')) == pieces
  {
    SplitAtFirst(head, '?', Join(pieces, '&'));
    SplitJoin(pieces, '&');
  }

  lemma NotPrefix(p: string, s: string, k: nat)
    requires k < |p| && k < |s| && p[k] != s[k]
    ensures !IsPrefix(p, s)
  {
    assert !IsPrefix(p, s) by {
      if |p| <= |s| {
        assert s[..|p|][k] == s[k];
      }
    }
  }

  lemma ValueAfterPrefix(p: string, v: string)
    ensures IsPrefix(p, p + v) && (p + v)[|p|..] == v
  {
    assert (p + v)[..|p|] == p;
  }

  /** Lookup finds the first piece that starts with the prefix. */
  lemma {:induction false} LookupFinds(pieces: seq<string>, prefix: string, k: nat, v: string)
    requires k < |pieces| && pieces[k] == prefix + v
    requires forall j :: 0 <= j < k ==> !IsPrefix(prefix, pieces[j])
    ensures Lookup(pieces, prefix) == Some(v)
    decreases k
  {
    if k == 0 {
      ValueAfterPrefix(prefix, v);
    } else {
      LookupFinds(pieces[1..], prefix, k - 1, v);
    }
  }

  /** The base URL and the paths hold neither query separator. */
  lemma PathsClean(coinId: string)
    requires '?' !in coinId
    ensures '?' !in BaseUrl + "/coins/markets"
    ensures '?' !in BaseUrl + "/coins/" + coinId + "/market_chart"
  {
    assert '?' !in BaseUrl;
    assert '?' !in "/coins/markets" && '?' !in "/coins/" && '?' !in "/market_chart";
  }

  /** A piece whose key and value lack `&` lacks it too. */
  lemma ParamClean(key: string, value: string)
    requires '&' !in key && '&' !in value
    ensures '&' !in Param(key, value)
  {
  }

  lemma MarketsUrlPieces(page: int, perPage: int)
    ensures Path(MarketsUrl(page, perPage)) == BaseUrl + "/coins/markets"
    ensures QueryPieces(MarketsUrl(page, perPage)) == MarketsQuery(page, perPage)
  {
    NoSeparatorInNumber(perPage);
    NoSeparatorInNumber(page);
    ParamClean("vs_currency", "usd");
    ParamClean("order", "market_cap_desc");
    ParamClean("per_page", IntToString(perPage));
    ParamClean("page", IntToString(page));
    ParamClean("sparkline", "false");
    PathsClean("");
    QueryOf(BaseUrl + "/coins/markets", MarketsQuery(page, perPage));
  }

  lemma MarketsQueryCurrency(page: int, perPage: int)
    ensures Lookup(MarketsQuery(page, perPage), "vs_currency" + "=") == Some("usd")
  {
    LookupFinds(MarketsQuery(page, perPage), "vs_currency" + "=", 0, "usd");
  }

  lemma MarketsQueryOrder(page: int, perPage: int)
    ensures Lookup(MarketsQuery(page, perPage), "order" + "=") == Some("market_cap_desc")
  {
    var pieces := MarketsQuery(page, perPage);
    NotPrefix("order" + "=", pieces[0], 0);
    LookupFinds(pieces, "order" + "=", 1, "market_cap_desc");
  }

  lemma MarketsQuerySparkline(page: int, perPage: int)
    ensures Lookup(MarketsQuery(page, perPage), "sparkline" + "=") == Some("false")
  {
    var pieces := MarketsQuery(page, perPage);
    NotPrefix("sparkline" + "=", pieces[0], 0);
    NotPrefix("sparkline" + "=", pieces[1], 0);
    NotPrefix("sparkline" + "=", pieces[2], 0);
    NotPrefix("sparkline" + "=", pieces[3], 0);
    LookupFinds(pieces, "sparkline" + "=", 4, "false");
  }

  lemma MarketsQueryPerPage(page: int, perPage: int)
    ensures Lookup(MarketsQuery(page, perPage), "per_page" + "=") == Some(IntToString(perPage))
  {
    var pieces := MarketsQuery(page, perPage);
    NotPrefix("per_page" + "=", pieces[0], 0);
    NotPrefix("per_page" + "=", pieces[1], 0);
    LookupFinds(pieces, "per_page" + "=", 2, IntToString(perPage));
  }

  lemma MarketsQueryPage(page: int, perPage: int)
    ensures Lookup(MarketsQuery(page, perPage), "page" + "=") == Some(IntToString(page))
  {
    var pieces := MarketsQuery(page, perPage);
    NotPrefix("page" + "=", pieces[0], 0);
    NotPrefix("page" + "=", pieces[1], 0);
    NotPrefix("page" + "=", pieces[2], 1);
    LookupFinds(pieces, "page" + "=", 3, IntToString(page));
  }

  /** The markets URL asks for USD prices in market-cap order, the given page size and page, no sparkline. */
  lemma MarketsUrlQuery(page: int, perPage: int)
    ensures Path(MarketsUrl(page, perPage)) == BaseUrl + "/coins/markets"
    ensures QueryParam(MarketsUrl(page, perPage), "vs_currency") == Some("usd")
    ensures QueryParam(MarketsUrl(page, perPage), "order") == Some("market_cap_desc")
    ensures QueryInt(MarketsUrl(page, perPage), "per_page") == Some(perPage)
    ensures QueryInt(MarketsUrl(page, perPage), "page") == Some(page)
    ensures QueryParam(MarketsUrl(page, perPage), "sparkline") == Some("false")
  {
    MarketsUrlPieces(page, perPage);
    MarketsQueryCurrency(page, perPage);
    MarketsQueryOrder(page, perPage);
    MarketsQuerySparkline(page, perPage);
    MarketsQueryPerPage(page, perPage);
    MarketsQueryPage(page, perPage);
    IntToStringRoundTrip(perPage);
    IntToStringRoundTrip(page);
  }

  /** The detail URL is the base, `/coins/`, and the identifier, with no query. */
  lemma CoinUrlPath(coinId: string)
    requires '?' !in coinId
    ensures Path(CoinUrl(coinId)) == CoinUrl(coinId)
    ensures IsPrefix(BaseUrl + "/coins/", CoinUrl(coinId))
    ensures CoinUrl(coinId)[|BaseUrl + "/coins/"|..] == coinId
  {
    assert '?' !in BaseUrl + "/coins/";
    ValueAfterPrefix(BaseUrl + "/coins/", coinId);
  }

  lemma MarketChartUrlPieces(coinId: string, days: int)
    requires '?' !in coinId
    ensures Path(MarketChartUrl(coinId, days)) == BaseUrl + "/coins/" + coinId + "/market_chart"
    ensures QueryPieces(MarketChartUrl(coinId, days)) == MarketChartQuery(days)
  {
    NoSeparatorInNumber(days);
    ParamClean("vs_currency", "usd");
    ParamClean("days", IntToString(days));
    PathsClean(coinId);
    QueryOf(BaseUrl + "/coins/" + coinId + "/market_chart", MarketChartQuery(days));
  }

  lemma MarketChartQueryCurrency(days: int)
    ensures Lookup(MarketChartQuery(days), "vs_currency" + "=") == Some("usd")
  {
    LookupFinds(MarketChartQuery(days), "vs_currency" + "=", 0, "usd");
  }

  lemma MarketChartQueryDays(days: int)
    ensures Lookup(MarketChartQuery(days), "days" + "=") == Some(IntToString(days))
  {
    var pieces := MarketChartQuery(days);
    NotPrefix("days" + "=", pieces[0], 0);
    LookupFinds(pieces, "days" + "=", 1, IntToString(days));
  }

  /** The history URL names the coin's market chart, in USD, over `days` days. */
  lemma MarketChartUrlQuery(coinId: string, days: int)
    requires '?' !in coinId
    ensures Path(MarketChartUrl(coinId, days)) == BaseUrl + "/coins/" + coinId + "/market_chart"
    ensures QueryParam(MarketChartUrl(coinId, days), "vs_currency") == Some("usd")
    ensures QueryInt(MarketChartUrl(coinId, days), "days") == Some(days)
  {
    MarketChartUrlPieces(coinId, days);
    MarketChartQueryCurrency(days);
    MarketChartQueryDays(days);
    IntToStringRoundTrip(days);
  }
}
