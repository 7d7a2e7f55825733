/**
 * The sort buttons of the coin list. The component owns no state: a click reports the
 * new (key, order) pair to its parent.
 */
module SortControls {
  import opened Optional

  datatype SortOption = MarketCap | Price | Change24h | Name
  datatype SortOrder = Asc | Desc

  /** The string-literal values of the two union types. */
  function OptionValue(o: SortOption): string {
    match o
    case MarketCap => "market_cap"
    case Price => "price"
    case Change24h => "change_24h"
    case Name => "name"
  }

  function OrderValue(o: SortOrder): string {
    match o
    case Asc => "asc"
    case Desc => "desc"
  }

  /** Reads a string back as a sort key; only the four literals are accepted. */
  function ParseOption(s: string): Option<SortOption> {
    if s == "market_cap" then Some(MarketCap)
    else if s == "price" then Some(Price)
    else if s == "change_24h" then Some(Change24h)
    else if s == "name" then Some(Name)
    else None
  }

  function ParseOrder(s: string): Option<SortOrder> {
    if s == "asc" then Some(Asc) else if s == "desc" then Some(Desc) else None
  }

  /** The buttons, in display order, with their labels. */
  const Buttons: seq<(SortOption, string)> :=
    [(MarketCap, "MARKET CAP"), (Price, "PRICE"), (Change24h, "24H CHANGE"), (Name, "NAME")]

  /** The sort keys are exactly the four literals, each with its own button. */
  lemma SortOptionsExact(s: string, o: SortOption)
    ensures ParseOption(OptionValue(o)) == Some(o)
    ensures ParseOption(s).Some? ==> OptionValue(ParseOption(s).value) == s
    ensures exists k :: 0 <= k < |Buttons| && Buttons[k].0 == o
    ensures forall i, j :: 0 <= i < j < |Buttons| ==> Buttons[i].0 != Buttons[j].0
  {
    match o
    case MarketCap => assert Buttons[0].0 == o;
    case Price => assert Buttons[1].0 == o;
    case Change24h => assert Buttons[2].0 == o;
    case Name => assert Buttons[3].0 == o;
  }

  /** The orders are exactly `asc` and `desc`. */
  lemma SortOrdersExact(s: string, o: SortOrder)
    ensures ParseOrder(OrderValue(o)) == Some(o)
    ensures ParseOrder(s).Some? ==> OrderValue(ParseOrder(s).value) == s
  {
  }

  datatype Sort = Sort(key: SortOption, order: SortOrder)

  function Flip(order: SortOrder): (r: SortOrder)
    ensures r != order
  {
    if order == Asc then Desc else Asc
  }

  /**
   * `handleSortClick`: the active key flips its order, another key is selected descending.
   * The result is what the component reports through `onSortChange`.
   */
  function HandleSortClick(current: Sort, option: SortOption): (r: Sort)
    ensures r.key == option
    ensures current.key == option ==> r.order != current.order
    ensures current.key != option ==> r.order == Desc
  {
    if current.key == option then Sort(option, Flip(current.order)) else Sort(option, Desc)
  }

  /** Clicking the same button twice restores the sort. */
  lemma ClickTwiceRestores(current: Sort)
    ensures HandleSortClick(HandleSortClick(current, current.key), current.key) == current
  {
  }

  /** Clicking a new key twice ends ascending on it, whatever the order was before. */
  lemma NewKeyTwiceAscends(current: Sort, option: SortOption)
    requires option != current.key
    ensures HandleSortClick(HandleSortClick(current, option), option) == Sort(option, Asc)
  {
  }
}
