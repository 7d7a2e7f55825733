/**
 * The dashboard: the list transform (search filter, copy-then-sort, favourites
 * projection), the panels it selects, and the view state its handlers update.
 */
module Dashboard {
  import opened Optional
  import opened Sequences
  import opened Strings
  import opened CryptoService
  import opened SortControls

  /** The polling settings handed to the query library, in milliseconds. */
  const RefetchIntervalMs := 120000
  const StaleTimeMs := 60000

  /** The query function: one request for the first page of fifty coins. */
  function LoadCoins(server: string -> Reply<seq<CryptoCoin>>): (r: Call<seq<CryptoCoin>>)
    ensures r.requests == [MarketsUrl(DefaultPage, DefaultPerPage)]
    ensures QueryInt(r.requests[0], "page") == Some(DefaultPage)
    ensures QueryInt(r.requests[0], "per_page") == Some(DefaultPerPage)
    ensures r.outcome == Classify(Markets, server(r.requests[0]))
  {
    MarketsUrlQuery(DefaultPage, DefaultPerPage);
    FetchCryptoCoins(DefaultPage, DefaultPerPage, server)
  }

  // ---------------------------------------------------------------- search filter

  /** A coin matches when its lower-cased name or symbol contains the lower-cased term. */
  predicate Matches(c: CryptoCoin, term: string) {
    Contains(ToLower(c.name), ToLower(term)) || Contains(ToLower(c.symbol), ToLower(term))
  }

  function MatchesSearch(term: string): CryptoCoin -> bool {
    (c: CryptoCoin) => Matches(c, term)
  }

  /** `filteredCoins`: the matching coins in fetch order; no data yet gives the empty list. */
  function FilteredCoins(coins: Option<seq<CryptoCoin>>, term: string): (r: seq<CryptoCoin>)
    ensures coins.None? ==> r == []
    ensures coins.Some? ==> IsSubsequence(r, coins.value)
    ensures forall c :: c in r <==> coins.Some? && c in coins.value && Matches(c, term)
    ensures coins.Some? ==> forall c :: multiset(r)[c] == if Matches(c, term) then multiset(coins.value)[c] else 0
  {
    match coins
    case None => []
    case Some(cs) =>
      FilterIsSubsequence(cs, MatchesSearch(term));
      FilterMembers(cs, MatchesSearch(term));
      FilterCounts(cs, MatchesSearch(term));
      Filter(cs, MatchesSearch(term))
  }

  /** An empty search keeps every coin, in the original order. */
  lemma EmptySearchKeepsAll(coins: seq<CryptoCoin>)
    ensures FilteredCoins(Some(coins), "") == coins
  {
    forall c | c in coins
      ensures MatchesSearch("")(c)
    {
      ContainsEmpty(ToLower(c.name));
    }
    FilterKeepsAll(coins, MatchesSearch(""));
  }

  // ---------------------------------------------------------- favourites projection

  function IsFavoriteOf(favorites: seq<string>): CryptoCoin -> bool {
    (c: CryptoCoin) => c.id in favorites
  }

  /**
   * `favoriteCoins`: the fetched coins whose id is a favourite, in fetch order. It reads
   * neither the search term nor the sort, so neither changes it.
   */
  function FavoriteCoins(coins: Option<seq<CryptoCoin>>, favorites: seq<string>): (r: seq<CryptoCoin>)
    ensures coins.None? ==> r == []
    ensures coins.Some? ==> IsSubsequence(r, coins.value)
    ensures forall c :: c in r <==> coins.Some? && c in coins.value && c.id in favorites
    ensures coins.Some? ==> forall c :: multiset(r)[c] == if c.id in favorites then multiset(coins.value)[c] else 0
  {
    match coins
    case None => []
    case Some(cs) =>
      FilterIsSubsequence(cs, IsFavoriteOf(favorites));
      FilterMembers(cs, IsFavoriteOf(favorites));
      FilterCounts(cs, IsFavoriteOf(favorites));
      Filter(cs, IsFavoriteOf(favorites))
  }

  // -------------------------------------------------------------------- comparator

  /** The numeric sort key; `market_cap` sorts by the rank, not by the market value. */
  function Key(key: SortOption, c: CryptoCoin): real
    requires key != Name
  {
    match key
    case MarketCap => c.marketCapRank as real
    case Price => c.currentPrice
    case Change24h => c.priceChangePercentage24h
  }

  /**
   * The comparator handed to `sort`: a negative value puts `a` first. Names use the
   * string comparator, swapped for a descending sort; numbers use the difference.
   */
  function Compare(key: SortOption, order: SortOrder, a: CryptoCoin, b: CryptoCoin): real {
    if key == Name then
      (if order == Asc then LocaleCompare(a.name, b.name) else LocaleCompare(b.name, a.name)) as real
    else if order == Asc then Key(key, a) - Key(key, b)
    else Key(key, b) - Key(key, a)
  }

  /** Two coins tie under a key when the compared fields are equal. */
  predicate Tie(key: SortOption, a: CryptoCoin, b: CryptoCoin) {
    if key == Name then a.name == b.name else Key(key, a) == Key(key, b)
  }

  function TiesWith(key: SortOption, k: CryptoCoin): CryptoCoin -> bool {
    (c: CryptoCoin) => Tie(key, k, c)
  }

  lemma CompareAntisymmetric(key: SortOption, order: SortOrder, a: CryptoCoin, b: CryptoCoin)
    ensures Compare(key, order, a, b) == -Compare(key, order, b, a)
    ensures Compare(key, order, a, b) == 0.0 <==> Tie(key, a, b)
  {
    if key == Name {
      LocaleCompareAntisymmetric(a.name, b.name);
    }
  }

  lemma CompareTransitive(key: SortOption, order: SortOrder, a: CryptoCoin, b: CryptoCoin, c: CryptoCoin)
    requires Compare(key, order, a, b) <= 0.0 && Compare(key, order, b, c) <= 0.0
    ensures Compare(key, order, a, c) <= 0.0
  {
    if key == Name {
      if order == Asc {
        LocaleCompareTransitive(a.name, b.name, c.name);
      } else {
        LocaleCompareTransitive(c.name, b.name, a.name);
      }
    }
  }

  // -------------------------------------------------------------------------- sort

  /** Puts `x` in front of the first element it does not follow. */
  function Insert(key: SortOption, order: SortOrder, x: CryptoCoin, s: seq<CryptoCoin>): (r: seq<CryptoCoin>)
    ensures |r| == |s| + 1
  {
    if s == [] then [x]
    else if Compare(key, order, x, s[0]) <= 0.0 then [x] + s
    else [s[0]] + Insert(key, order, x, s[1..])
  }

  lemma {:induction false} InsertPermutes(key: SortOption, order: SortOrder, x: CryptoCoin, s: seq<CryptoCoin>)
    ensures multiset(Insert(key, order, x, s)) == multiset(s) + multiset{x}
    decreases |s|
  {
    if s != [] && Compare(key, order, x, s[0]) > 0.0 {
      InsertPermutes(key, order, x, s[1..]);
      assert s == [s[0]] + s[1..];
    }
  }

  /**
   * `getSortedCoins`: a sorted copy of the list. The result is a new sequence, so the
   * list it was made from is left as it was. The sort is stable, as `Array.prototype.sort`
   * is.
   */
  function SortCoins(key: SortOption, order: SortOrder, s: seq<CryptoCoin>): (r: seq<CryptoCoin>)
    ensures |r| == |s|
  {
    if s == [] then [] else Insert(key, order, s[0], SortCoins(key, order, s[1..]))
  }

  /** The sorted copy is a permutation of the list. */
  lemma {:induction false} SortPermutes(key: SortOption, order: SortOrder, s: seq<CryptoCoin>)
    ensures multiset(SortCoins(key, order, s)) == multiset(s)
    decreases |s|
  {
    if s != [] {
      SortPermutes(key, order, s[1..]);
      InsertPermutes(key, order, s[0], SortCoins(key, order, s[1..]));
      assert s == [s[0]] + s[1..];
    }
  }

  predicate Sorted(key: SortOption, order: SortOrder, s: seq<CryptoCoin>) {
    forall i, j :: 0 <= i < j < |s| ==> Compare(key, order, s[i], s[j]) <= 0.0
  }

  /** Every element of `s` comes no earlier than `h`. */
  predicate NoneBefore(key: SortOption, order: SortOrder, h: CryptoCoin, s: seq<CryptoCoin>) {
    forall j :: 0 <= j < |s| ==> Compare(key, order, h, s[j]) <= 0.0
  }

  /** An element no later than the head of a sorted list is no later than any of it. */
  lemma FirstBeforeAll(key: SortOption, order: SortOrder, x: CryptoCoin, t: seq<CryptoCoin>)
    requires t != [] && Sorted(key, order, t) && Compare(key, order, x, t[0]) <= 0.0
    ensures NoneBefore(key, order, x, t)
  {
    forall j | 0 <= j < |t|
      ensures Compare(key, order, x, t[j]) <= 0.0
    {
      if j > 0 {
        CompareTransitive(key, order, x, t[0], t[j]);
      }
    }
  }

  /** A sorted list stays sorted behind an element that comes no later than all of it. */
  lemma SortedCons(key: SortOption, order: SortOrder, h: CryptoCoin, t: seq<CryptoCoin>)
    requires NoneBefore(key, order, h, t) && Sorted(key, order, t)
    ensures Sorted(key, order, [h] + t)
  {
    var r := [h] + t;
    forall i, j | 0 <= i < j < |r|
      ensures Compare(key, order, r[i], r[j]) <= 0.0
    {
      assert r[j] == t[j - 1];
      if i > 0 {
        assert r[i] == t[i - 1];
      }
    }
  }

  /** Inserting an element no earlier than `h` keeps every element no earlier than `h`. */
  lemma {:induction false} InsertNoneBefore(key: SortOption, order: SortOrder, h: CryptoCoin, x: CryptoCoin, t: seq<CryptoCoin>)
    requires NoneBefore(key, order, h, t) && Compare(key, order, h, x) <= 0.0
    ensures NoneBefore(key, order, h, Insert(key, order, x, t))
    decreases |t|
  {
    if t != [] && Compare(key, order, x, t[0]) > 0.0 {
      InsertNoneBefore(key, order, h, x, t[1..]);
      assert Insert(key, order, x, t) == [t[0]] + Insert(key, order, x, t[1..]);
    }
  }

  lemma {:induction false} InsertSorted(key: SortOption, order: SortOrder, x: CryptoCoin, t: seq<CryptoCoin>)
    requires Sorted(key, order, t)
    ensures Sorted(key, order, Insert(key, order, x, t))
    decreases |t|
  {
    if t == [] {
    } else if Compare(key, order, x, t[0]) <= 0.0 {
      FirstBeforeAll(key, order, x, t);
      SortedCons(key, order, x, t);
    } else {
      var rest := Insert(key, order, x, t[1..]);
      assert Insert(key, order, x, t) == [t[0]] + rest;
      assert Sorted(key, order, t[1..]);
      InsertSorted(key, order, x, t[1..]);
      CompareAntisymmetric(key, order, x, t[0]);
      assert NoneBefore(key, order, t[0], t[1..]);
      InsertNoneBefore(key, order, t[0], x, t[1..]);
      SortedCons(key, order, t[0], rest);
    }
  }

  /** The result of the sort is in comparator order. */
  lemma {:induction false} SortSorted(key: SortOption, order: SortOrder, s: seq<CryptoCoin>)
    ensures Sorted(key, order, SortCoins(key, order, s))
    decreases |s|
  {
    if s != [] {
      SortSorted(key, order, s[1..]);
      InsertSorted(key, order, s[0], SortCoins(key, order, s[1..]));
    }
  }

  /** Coins the comparator separates cannot both tie with a third. */
  lemma NotBothTie(key: SortOption, order: SortOrder, x: CryptoCoin, y: CryptoCoin, k: CryptoCoin)
    requires Compare(key, order, x, y) != 0.0
    ensures !(TiesWith(key, k)(x) && TiesWith(key, k)(y))
  {
    CompareAntisymmetric(key, order, x, y);
  }

  /**
   * Inserting never moves `x` past an element of its own class, for any class the
   * comparator never strictly separates.
   */
  lemma {:induction false} InsertKeepsClass(key: SortOption, order: SortOrder, x: CryptoCoin, t: seq<CryptoCoin>,
                                            p: CryptoCoin -> bool)
    requires forall y :: Compare(key, order, x, y) > 0.0 ==> !(p(x) && p(y))
    ensures Filter(Insert(key, order, x, t), p) == Filter([x] + t, p)
    decreases |t|
  {
    if t != [] && Compare(key, order, x, t[0]) > 0.0 {
      var rest := Insert(key, order, x, t[1..]);
      assert Insert(key, order, x, t) == [t[0]] + rest;
      InsertKeepsClass(key, order, x, t[1..], p);
      FilterSwap(t[0], x, rest, t[1..], p);
      assert [x, t[0]] + t[1..] == [x] + t;
    }
  }

  /** The comparator strictly separates no two coins that tie under the key. */
  lemma TiesNeverSeparated(key: SortOption, order: SortOrder, x: CryptoCoin, k: CryptoCoin)
    ensures forall y :: Compare(key, order, x, y) > 0.0 ==> !(TiesWith(key, k)(x) && TiesWith(key, k)(y))
  {
    forall y | Compare(key, order, x, y) > 0.0
      ensures !(TiesWith(key, k)(x) && TiesWith(key, k)(y))
    {
      NotBothTie(key, order, x, y, k);
    }
  }

  /** Stability: coins that tie under the key keep their input order. */
  lemma {:induction false} SortStable(key: SortOption, order: SortOrder, s: seq<CryptoCoin>, k: CryptoCoin)
    ensures Filter(SortCoins(key, order, s), TiesWith(key, k)) == Filter(s, TiesWith(key, k))
    decreases |s|
  {
    if s != [] {
      var p := TiesWith(key, k);
      var sorted := SortCoins(key, order, s[1..]);
      assert SortCoins(key, order, s) == Insert(key, order, s[0], sorted);
      SortStable(key, order, s[1..], k);
      TiesNeverSeparated(key, order, s[0], k);
      InsertKeepsClass(key, order, s[0], sorted, p);
      FilterCons(s[0], sorted, p);
      FilterCons(s[0], s[1..], p);
      assert [s[0]] + s[1..] == s;
    }
  }

  /** A list already in order comes back unchanged; in particular sorting twice changes nothing. */
  lemma {:induction false} SortOfSorted(key: SortOption, order: SortOrder, s: seq<CryptoCoin>)
    requires Sorted(key, order, s)
    ensures SortCoins(key, order, s) == s
  {
    if s != [] {
      assert Sorted(key, order, s[1..]);
      SortOfSorted(key, order, s[1..]);
      assert [s[0]] + s[1..] == s;
    }
  }

  /** The order each key and direction promises, stated on the coin fields. */
  predicate InOrder(key: SortOption, order: SortOrder, a: CryptoCoin, b: CryptoCoin) {
    match key
    case MarketCap => if order == Asc then a.marketCapRank <= b.marketCapRank else a.marketCapRank >= b.marketCapRank
    case Price => if order == Asc then a.currentPrice <= b.currentPrice else a.currentPrice >= b.currentPrice
    case Change24h =>
      if order == Asc then a.priceChangePercentage24h <= b.priceChangePercentage24h
      else a.priceChangePercentage24h >= b.priceChangePercentage24h
    case Name => if order == Asc then LocaleCompare(a.name, b.name) <= 0 else LocaleCompare(b.name, a.name) <= 0
  }

  /** The visible list: the filtered coins, sorted. */
  function VisibleCoins(coins: Option<seq<CryptoCoin>>, term: string, key: SortOption, order: SortOrder): seq<CryptoCoin> {
    SortCoins(key, order, FilteredCoins(coins, term))
  }

  /** A comparator result of "not after" gives the field order the key promises. */
  lemma CompareInOrder(key: SortOption, order: SortOrder, a: CryptoCoin, b: CryptoCoin)
    requires Compare(key, order, a, b) <= 0.0
    ensures InOrder(key, order, a, b)
  {
  }

  /** The visible list is in the order the key and direction promise, stated on the coin fields. */
  lemma VisibleCoinsOrder(coins: Option<seq<CryptoCoin>>, term: string, key: SortOption, order: SortOrder)
    ensures var r := VisibleCoins(coins, term, key, order);
      forall i, j :: 0 <= i < j < |r| ==> InOrder(key, order, r[i], r[j])
  {
    var r := VisibleCoins(coins, term, key, order);
    SortSorted(key, order, FilteredCoins(coins, term));
    forall i, j | 0 <= i < j < |r|
      ensures InOrder(key, order, r[i], r[j])
    {
      CompareInOrder(key, order, r[i], r[j]);
    }
  }

  /** The visible list holds exactly the matching coins, each as often as fetched. */
  lemma VisibleCoinsMembers(coins: seq<CryptoCoin>, term: string, key: SortOption, order: SortOrder)
    ensures var r := VisibleCoins(Some(coins), term, key, order);
      && multiset(r) == multiset(FilteredCoins(Some(coins), term))
      && (forall c :: c in r <==> c in coins && Matches(c, term))
  {
    var f := FilteredCoins(Some(coins), term);
    var r := SortCoins(key, order, f);
    SortPermutes(key, order, f);
    forall c
      ensures c in r <==> c in f
    {
      assert c in r <==> c in multiset(r);
      assert c in f <==> c in multiset(f);
    }
  }

  /**
   * Re-sorting the visible list with the same settings leaves it as it is, and so does
   * filtering and sorting it again with the same term.
   */
  lemma VisibleCoinsIdempotent(coins: Option<seq<CryptoCoin>>, term: string, key: SortOption, order: SortOrder)
    ensures SortCoins(key, order, VisibleCoins(coins, term, key, order)) == VisibleCoins(coins, term, key, order)
    ensures VisibleCoins(Some(VisibleCoins(coins, term, key, order)), term, key, order) == VisibleCoins(coins, term, key, order)
  {
    var v := VisibleCoins(coins, term, key, order);
    SortSorted(key, order, FilteredCoins(coins, term));
    SortOfSorted(key, order, v);
    if coins.Some? {
      VisibleCoinsMembers(coins.value, term, key, order);
    }
    forall i | 0 <= i < |v|
      ensures MatchesSearch(term)(v[i])
    {
      assert v[i] in v;
    }
    FilterKeepsAll(v, MatchesSearch(term));
  }

  /** No two different coins of `s` share a name. */
  predicate NamesIdentify(s: seq<CryptoCoin>) {
    forall x, y :: x in s && y in s && x.name == y.name ==> x == y
  }

  /** The head of a sorted list comes no later than any of its coins. */
  lemma SortedHeadFirst(key: SortOption, order: SortOrder, a: seq<CryptoCoin>, x: CryptoCoin)
    requires Sorted(key, order, a) && x in a
    ensures Compare(key, order, a[0], x) <= 0.0
  {
    var i :| 0 <= i < |a| && a[i] == x;
    if i == 0 {
      CompareAntisymmetric(key, order, x, x);
    }
  }

  lemma SortedTail(key: SortOption, order: SortOrder, a: seq<CryptoCoin>)
    requires Sorted(key, order, a) && a != []
    ensures Sorted(key, order, a[1..])
  {
    forall p, q | 0 <= p < q < |a[1..]|
      ensures Compare(key, order, a[1..][p], a[1..][q]) <= 0.0
    {
      assert a[1..][p] == a[p + 1] && a[1..][q] == a[q + 1];
    }
  }

  /** Coins of `a` that tie under the key are the same coin. */
  predicate TiesIdentify(key: SortOption, a: seq<CryptoCoin>) {
    forall x, y :: x in a && y in a && Tie(key, x, y) ==> x == y
  }

  /** Two sorted lists holding the same coins start with the same coin when ties identify. */
  lemma SortedSameHead(key: SortOption, order: SortOrder, a: seq<CryptoCoin>, b: seq<CryptoCoin>)
    requires Sorted(key, order, a) && Sorted(key, order, b) && a != [] && b != []
    requires multiset(a) == multiset(b) && TiesIdentify(key, a)
    ensures a[0] == b[0]
  {
    assert a[0] in multiset(b) && b[0] in multiset(a);
    SortedHeadFirst(key, order, a, b[0]);
    SortedHeadFirst(key, order, b, a[0]);
    CompareAntisymmetric(key, order, a[0], b[0]);
  }

  /**
   * Two lists sorted by the same comparator, holding the same coins, are equal when
   * tying coins are always the same coin.
   */
  lemma {:induction false} SortedUnique(key: SortOption, order: SortOrder, a: seq<CryptoCoin>, b: seq<CryptoCoin>)
    requires Sorted(key, order, a) && Sorted(key, order, b)
    requires multiset(a) == multiset(b) && TiesIdentify(key, a)
    ensures a == b
    decreases |a|
  {
    assert |a| == |multiset(a)| == |multiset(b)| == |b|;
    if a != [] {
      SortedSameHead(key, order, a, b);
      MultisetTail(a, b);
      SortedTail(key, order, a);
      SortedTail(key, order, b);
      assert TiesIdentify(key, a[1..]) by {
        assert forall x :: x in a[1..] ==> x in a;
      }
      SortedUnique(key, order, a[1..], b[1..]);
      assert a == [a[0]] + a[1..] && b == [b[0]] + b[1..];
    }
  }

  /** A list in ascending name order, reversed, is in descending name order. */
  lemma ReverseNameOrder(t: seq<CryptoCoin>)
    requires Sorted(Name, Asc, t)
    ensures Sorted(Name, Desc, Reverse(t))
  {
    var rev := Reverse(t);
    forall i, j | 0 <= i < j < |rev|
      ensures Compare(Name, Desc, rev[i], rev[j]) <= 0.0
    {
      assert Compare(Name, Asc, t[|t| - 1 - j], t[|t| - 1 - i]) <= 0.0;
    }
  }

  /** A permutation of a list in which no two coins share a name has the same property. */
  lemma NamesIdentifyPermuted(s: seq<CryptoCoin>, t: seq<CryptoCoin>)
    requires NamesIdentify(s) && multiset(t) == multiset(s)
    ensures TiesIdentify(Name, t)
  {
    forall x, y | x in t && y in t && Tie(Name, x, y)
      ensures x == y
    {
      assert x in multiset(t) && y in multiset(t);
    }
  }

  /**
   * When no two coins share a name, sorting by name descending gives exactly the
   * ascending order reversed.
   */
  lemma NameOrderMirror(s: seq<CryptoCoin>)
    requires NamesIdentify(s)
    ensures SortCoins(Name, Desc, s) == Reverse(SortCoins(Name, Asc, s))
  {
    var asc := SortCoins(Name, Asc, s);
    var desc := SortCoins(Name, Desc, s);
    SortSorted(Name, Asc, s);
    SortSorted(Name, Desc, s);
    SortPermutes(Name, Asc, s);
    SortPermutes(Name, Desc, s);
    ReversePermutes(asc);
    ReverseNameOrder(asc);
    NamesIdentifyPermuted(s, desc);
    SortedUnique(Name, Desc, desc, Reverse(asc));
  }

  // ------------------------------------------------------------------------ panels

  /** One card in a list: the coin, its star, and whether it carries the column headers. */
  datatype Row = Row(coin: CryptoCoin, isFavorite: bool, showHeaders: bool)

  /** The main panel: the spinner, the notice with its manual retry button, or the list. */
  datatype Panel = Spinner | RetryNotice | CoinList(rows: seq<Row>)

  function Rows(coins: seq<CryptoCoin>, favorites: seq<string>): (r: seq<Row>)
    ensures |r| == |coins|
    ensures forall i :: 0 <= i < |r| ==>
      r[i].coin == coins[i] && (r[i].isFavorite <==> coins[i].id in favorites) && (r[i].showHeaders <==> i == 0)
  {
    seq(|coins|, i requires 0 <= i < |coins| => Row(coins[i], coins[i].id in favorites, i == 0))
  }

  /**
   * Loading wins, then any error shows the same notice whatever its cause (there is no
   * countdown here), and otherwise the visible list is shown.
   */
  function MainPanel(isLoading: bool, error: Option<string>, coins: Option<seq<CryptoCoin>>, term: string,
                     key: SortOption, order: SortOrder, favorites: seq<string>): (r: Panel)
    ensures r.Spinner? <==> isLoading
    ensures r.RetryNotice? <==> !isLoading && error.Some?
    ensures r.CoinList? ==> |r.rows| == |VisibleCoins(coins, term, key, order)| == |FilteredCoins(coins, term)|
    ensures r.CoinList? ==> forall i :: 0 <= i < |r.rows| ==>
      r.rows[i].coin == VisibleCoins(coins, term, key, order)[i] && (r.rows[i].showHeaders <==> i == 0)
    ensures r.CoinList? ==> forall i :: 0 <= i < |r.rows| ==>
      Matches(r.rows[i].coin, term) && (r.rows[i].isFavorite <==> r.rows[i].coin.id in favorites)
  {
    if isLoading then Spinner
    else if error.Some? then RetryNotice
    else
      var v := VisibleCoins(coins, term, key, order);
      SortPermutes(key, order, FilteredCoins(coins, term));
      assert forall i :: 0 <= i < |v| ==> v[i] in multiset(v);
      CoinList(Rows(v, favorites))
  }

  /** The favourites block: shown only when a fetched coin is a favourite, rows only when expanded. */
  datatype FavoritesBlock = NoBlock | Block(count: nat, expanded: bool, rows: seq<Row>)

  /** The cards of the favourites block: every one starred, headers on the first. */
  function FavoriteRows(fc: seq<CryptoCoin>): (r: seq<Row>)
    ensures |r| == |fc|
    ensures forall i :: 0 <= i < |r| ==> r[i] == Row(fc[i], true, i == 0)
  {
    seq(|fc|, i requires 0 <= i < |fc| => Row(fc[i], true, i == 0))
  }

  function FavoritesPanel(coins: Option<seq<CryptoCoin>>, favorites: seq<string>, showFavorites: bool): (r: FavoritesBlock)
    ensures r.Block? <==> |FavoriteCoins(coins, favorites)| > 0
    ensures r.Block? ==> r.count == |favorites| && r.expanded == showFavorites
    ensures r.Block? ==> |r.rows| == if showFavorites then |FavoriteCoins(coins, favorites)| else 0
    ensures r.Block? ==> forall i :: 0 <= i < |r.rows| ==>
      r.rows[i].coin == FavoriteCoins(coins, favorites)[i] && (r.rows[i].showHeaders <==> i == 0)
    ensures r.Block? ==> forall i :: 0 <= i < |r.rows| ==> r.rows[i].isFavorite && r.rows[i].coin.id in favorites
  {
    var fc := FavoriteCoins(coins, favorites);
    if |fc| == 0 then NoBlock
    else
      var rows := if showFavorites then FavoriteRows(fc) else [];
      assert forall i :: 0 <= i < |fc| ==> fc[i] in fc;
      Block(|favorites|, showFavorites, rows)
  }

  // -------------------------------------------------------------------- view state

  /** The dashboard's own state and the handlers that update it. */
  class DashboardView {
    var selectedCoin: string
    var isModalOpen: bool
    var searchTerm: string
    var sortBy: SortOption
    var sortOrder: SortOrder
    var showFavorites: bool

    /** A closed modal never holds a coin id. */
    predicate Valid()
      reads this
    {
      !isModalOpen ==> selectedCoin == ""
    }

    constructor ()
      ensures selectedCoin == "" && !isModalOpen && searchTerm == ""
      ensures sortBy == MarketCap && sortOrder == Asc && !showFavorites
      ensures Valid()
    {
      selectedCoin := "";
      isModalOpen := false;
      searchTerm := "";
      sortBy := MarketCap;
      sortOrder := Asc;
      showFavorites := false;
    }

    /** `handleCoinClick`: selects the coin and opens the modal. */
    method HandleCoinClick(coinId: string)
      modifies this
      ensures selectedCoin == coinId && isModalOpen
      ensures searchTerm == old(searchTerm) && sortBy == old(sortBy) && sortOrder == old(sortOrder)
      ensures showFavorites == old(showFavorites)
      ensures Valid()
    {
      selectedCoin := coinId;
      isModalOpen := true;
    }

    /** `handleCloseModal`: closes the modal and clears the selected id. */
    method HandleCloseModal()
      modifies this
      ensures selectedCoin == "" && !isModalOpen
      ensures searchTerm == old(searchTerm) && sortBy == old(sortBy) && sortOrder == old(sortOrder)
      ensures showFavorites == old(showFavorites)
      ensures Valid()
    {
      isModalOpen := false;
      selectedCoin := "";
    }

    /** `handleSortChange`: takes over the key and direction the sort buttons report. */
    method HandleSortChange(newSortBy: SortOption, newSortOrder: SortOrder)
      requires Valid()
      modifies this
      ensures Valid()
      ensures sortBy == newSortBy && sortOrder == newSortOrder
      ensures selectedCoin == old(selectedCoin) && isModalOpen == old(isModalOpen)
      ensures searchTerm == old(searchTerm) && showFavorites == old(showFavorites)
    {
      sortBy := newSortBy;
      sortOrder := newSortOrder;
    }

    /** A click on a sort button, as the buttons decide it and the dashboard records it. */
    method ClickSortOption(option: SortOption)
      requires Valid()
      modifies this
      ensures Valid()
      ensures Sort(sortBy, sortOrder) == HandleSortClick(Sort(old(sortBy), old(sortOrder)), option)
      ensures selectedCoin == old(selectedCoin) && isModalOpen == old(isModalOpen)
      ensures searchTerm == old(searchTerm) && showFavorites == old(showFavorites)
    {
      var next := HandleSortClick(Sort(sortBy, sortOrder), option);
      HandleSortChange(next.key, next.order);
    }

    /** The search box writes the term directly. */
    method SetSearchTerm(term: string)
      requires Valid()
      modifies this
      ensures Valid()
      ensures searchTerm == term
      ensures selectedCoin == old(selectedCoin) && isModalOpen == old(isModalOpen)
      ensures sortBy == old(sortBy) && sortOrder == old(sortOrder) && showFavorites == old(showFavorites)
    {
      searchTerm := term;
    }

    /** The SHOW/HIDE button of the favourites block. */
    method ToggleShowFavorites()
      requires Valid()
      modifies this
      ensures Valid()
      ensures showFavorites == !old(showFavorites)
      ensures selectedCoin == old(selectedCoin) && isModalOpen == old(isModalOpen)
      ensures searchTerm == old(searchTerm) && sortBy == old(sortBy) && sortOrder == old(sortOrder)
    {
      showFavorites := !showFavorites;
    }
  }
}
