/**
 * The market price table (crop-prices/page.tsx): the fixed list of Kerala
 * crops, the sort configuration a click on a column header toggles, the
 * table sorted by it, the "Best Time to Sell" crop and the trends card.
 *
 * Prices are whole rupees per kilogram; `toFixed(2)` is display only.
 */
module CropPrices {
  import opened Text
  import opened StableSort
  import opened Lists

  datatype Trend = Up | Down | Stable

  /** The trend as the page writes it. */
  function TrendText(t: Trend): string {
    match t
    case Up => "up"
    case Down => "down"
    case Stable => "stable"
  }

  datatype MarketCrop = MarketCrop(name: string, price: nat, updated: string, trend: Trend)

  /** `keyof MarketCrop`: the column a sort is on. */
  datatype Column = Name | Price | Updated | TrendColumn

  /** The value `a[sortConfig.key]` the comparator compares. */
  function ColumnKey(col: Column, c: MarketCrop): Key {
    match col
    case Name => Text(c.name)
    case Price => Number(c.price)
    case Updated => Text(c.updated)
    case TrendColumn => Text(TrendText(c.trend))
  }

  /** The comparator's key for a column, as a function on crops. */
  function ByColumn(col: Column): MarketCrop -> Key {
    m => ColumnKey(col, m)
  }

  datatype SortConfig = SortConfig(key: Column, direction: Direction)

  function InitialMarketCrops(): seq<MarketCrop> {
    [MarketCrop("Rubber", 180, "Today", Up),
     MarketCrop("Pepper", 550, "Today", Up),
     MarketCrop("Coconut", 30, "Yesterday", Stable),
     MarketCrop("Banana", 45, "Today", Down),
     MarketCrop("Rice (Uma)", 42, "Yesterday", Stable),
     MarketCrop("Tapioca", 35, "Today", Up),
     MarketCrop("Cashew", 700, "Yesterday", Down),
     MarketCrop("Ginger", 120, "Today", Up)]
  }

  // ---------------------------------------------------------------------------
  // Sorting
  // ---------------------------------------------------------------------------

  /**
   * `requestSort`: the clicked column becomes the key; the direction is
   * descending exactly when the table was ascending on that same column.
   */
  function RequestSort(config: Option<SortConfig>, col: Column): (r: SortConfig)
    ensures r.key == col
    ensures r.direction == Descending <==> config == Some(SortConfig(col, Ascending))
  {
    if config.Some? && config.value.key == col && config.value.direction == Ascending
    then SortConfig(col, Descending)
    else SortConfig(col, Ascending)
  }

  /**
   * Clicking a header starts ascending unless that column was ascending;
   * clicking it again reverses the direction, and a third click reverses it
   * back.
   */
  lemma RequestSortToggles(config: Option<SortConfig>, col: Column)
    ensures RequestSort(Some(RequestSort(config, col)), col).direction != RequestSort(config, col).direction
    ensures RequestSort(Some(RequestSort(Some(RequestSort(config, col)), col)), col) == RequestSort(config, col)
    ensures RequestSort(None, col) == SortConfig(col, Ascending)
  {
  }

  /** The three icons a header can show. */
  datatype SortIcon = Neutral | ArrowUp | ArrowDown

  /** `getSortIcon`. */
  function SortIconFor(config: Option<SortConfig>, col: Column): (r: SortIcon)
    ensures r == Neutral <==> config.None? || config.value.key != col
    ensures r == ArrowUp <==> config == Some(SortConfig(col, Ascending))
    ensures r == ArrowDown <==> config == Some(SortConfig(col, Descending))
  {
    match config
    case None => Neutral
    case Some(SortConfig(key, direction)) =>
      if key != col then Neutral
      else if direction == Ascending then ArrowUp
      else assert direction == Descending; ArrowDown
  }

  /** After a click, the clicked header shows an arrow and every other header the neutral icon. */
  lemma IconAfterRequest(config: Option<SortConfig>, col: Column, other: Column)
    ensures SortIconFor(Some(RequestSort(config, col)), col) != Neutral
    ensures other != col ==> SortIconFor(Some(RequestSort(config, col)), other) == Neutral
  {
  }

  /** `sortedCrops`: the list in its own order without a configuration, else stably sorted by it. */
  function SortedView(config: Option<SortConfig>, crops: seq<MarketCrop>): seq<MarketCrop> {
    match config
    case None => crops
    case Some(c) => SortBy(ByColumn(c.key), c.direction, crops)
  }

  /**
   * What the table shows: the same crops, none lost or repeated; in the
   * configured order; crops whose keys are equal in their original order.
   */
  lemma SortedViewSpec(config: Option<SortConfig>, crops: seq<MarketCrop>)
    ensures config.None? ==> SortedView(config, crops) == crops
    ensures multiset(SortedView(config, crops)) == multiset(crops)
    ensures config.Some? ==>
      Sorted(ByColumn(config.value.key), config.value.direction, SortedView(config, crops))
    ensures config.Some? ==> forall v: Key ::
      WithKey(ByColumn(config.value.key), v, SortedView(config, crops))
      == WithKey(ByColumn(config.value.key), v, crops)
  {
    if config.Some? {
      var key := ByColumn(config.value.key);
      SortPermutes(key, config.value.direction, crops);
      SortSorted(key, config.value.direction, crops);
      forall v: Key {
        SortStable(key, config.value.direction, crops, v);
      }
    }
  }

  /** Ascending on price reads cheapest first; descending, dearest first. */
  lemma PriceOrder(crops: seq<MarketCrop>, i: nat, j: nat)
    requires i < j < |crops|
    ensures SortedView(Some(SortConfig(Price, Ascending)), crops) == SortBy(ByColumn(Price), Ascending, crops)
    ensures var v := SortedView(Some(SortConfig(Price, Ascending)), crops);
      j < |v| ==> v[i].price <= v[j].price
    ensures var v := SortedView(Some(SortConfig(Price, Descending)), crops);
      j < |v| ==> v[i].price >= v[j].price
  {
    SortSorted(ByColumn(Price), Ascending, crops);
    SortSorted(ByColumn(Price), Descending, crops);
  }

  /** The page: its one piece of state is the sort configuration. */
  class CropPricesPage {
    var sortConfig: Option<SortConfig>

    constructor()
      ensures sortConfig.None?
    {
      sortConfig := None;
    }

    /** A click on the header of `col`. */
    method RequestSortClick(col: Column)
      modifies this
      ensures sortConfig == Some(RequestSort(old(sortConfig), col))
    {
      var direction := Ascending;
      if sortConfig.Some? && sortConfig.value.key == col && sortConfig.value.direction == Ascending {
        direction := Descending;
      }
      sortConfig := Some(SortConfig(col, direction));
    }

    /** `sortedCrops`: a copy of the list, sorted in place when a configuration is set. */
    method SortedCrops() returns (r: seq<MarketCrop>)
      ensures r == SortedView(sortConfig, InitialMarketCrops())
    {
      r := InitialMarketCrops();
      if sortConfig.Some? {
        var c := sortConfig.value;
        r := SortedCopy(r, ByColumn(c.key), c.direction);
      }
    }
  }

  // ---------------------------------------------------------------------------
  // The best crop to sell
  // ---------------------------------------------------------------------------

  /** `reduce((max, crop) => max.price > crop.price ? max : crop)`, folding from the left. */
  function Highest(s: seq<MarketCrop>): MarketCrop
    requires |s| >= 1
  {
    if |s| == 1 then s[0]
    else
      var max := Highest(s[..|s| - 1]);
      var crop := s[|s| - 1];
      if max.price > crop.price then max else crop
  }

  /** The position of the last crop with the highest price. */
  ghost function LastMaxIndex(s: seq<MarketCrop>): (k: nat)
    requires |s| >= 1
    ensures k < |s|
    ensures forall j :: 0 <= j < |s| ==> s[j].price <= s[k].price
    ensures forall j :: k < j < |s| ==> s[j].price < s[k].price
  {
    if |s| == 1 then 0
    else
      var k := LastMaxIndex(s[..|s| - 1]);
      if s[k].price > s[|s| - 1].price then k else |s| - 1
  }

  /**
   * The reduce picks a crop whose price no other crop exceeds, and of the
   * crops that share that price the last.
   */
  lemma {:induction false} HighestIsLastMax(s: seq<MarketCrop>)
    requires |s| >= 1
    ensures Highest(s) == s[LastMaxIndex(s)]
    ensures forall j :: 0 <= j < |s| ==> s[j].price <= Highest(s).price
  {
    if |s| > 1 {
      HighestIsLastMax(s[..|s| - 1]);
    }
  }

  /** A crop dearer than every other crop in the list is the one the reduce picks. */
  lemma UniqueMaxIsHighest(s: seq<MarketCrop>, x: MarketCrop)
    requires x in s
    requires forall y :: y in s && y != x ==> y.price < x.price
    ensures Highest(s) == x
  {
    HighestIsLastMax(s);
    var k :| 0 <= k < |s| && s[k] == x;
    assert s[k].price <= Highest(s).price;
  }

  /** Every other crop of the page's list costs less than cashew. */
  lemma CashewDearest(y: MarketCrop)
    requires y in InitialMarketCrops() && y != InitialMarketCrops()[6]
    ensures y.price < 700
  {
  }

  /** Whatever the order of the table, the best crop to sell is cashew at 700. */
  lemma HighestIsCashew(config: Option<SortConfig>)
    ensures |SortedView(config, InitialMarketCrops())| == 8
    ensures Highest(SortedView(config, InitialMarketCrops())) == MarketCrop("Cashew", 700, "Yesterday", Down)
  {
    var s := InitialMarketCrops();
    var v := SortedView(config, s);
    var cashew := s[6];
    SortedViewSpec(config, s);
    assert |v| == |multiset(v)| == |multiset(s)| == 8;
    assert cashew in multiset(v);
    forall y | y in v && y != cashew
      ensures y.price < 700
    {
      assert y in multiset(s);
      CashewDearest(y);
    }
    UniqueMaxIsHighest(v, cashew);
  }

  // ---------------------------------------------------------------------------
  // The trends card
  // ---------------------------------------------------------------------------

  predicate Moving(c: MarketCrop) {
    c.trend != Stable
  }

  /** The first four crops, in the list's own order, whose trend is not stable. */
  function Trends(crops: seq<MarketCrop>): seq<MarketCrop> {
    Take(Filter(Moving, crops), 4)
  }

  /**
   * The card shows at most four crops, each of them moving, taken in order:
   * when the list has four or fewer moving crops it shows them all.
   */
  lemma TrendsSpec(crops: seq<MarketCrop>, c: MarketCrop)
    ensures |Trends(crops)| <= 4
    ensures c in Trends(crops) ==> c in crops && c.trend != Stable
    ensures |Filter(Moving, crops)| <= 4 ==> (c in Trends(crops) <==> c in crops && c.trend != Stable)
    ensures Trends(crops) <= Filter(Moving, crops)
  {
    FilterMembers(Moving, crops, c);
  }

  /** On the page's list: rubber, pepper, banana and tapioca. */
  lemma InitialTrends()
    ensures Trends(InitialMarketCrops()) ==
      [InitialMarketCrops()[0], InitialMarketCrops()[1], InitialMarketCrops()[3], InitialMarketCrops()[5]]
  {
    var s := InitialMarketCrops();
    assert Filter(Moving, s[6..]) == [s[6], s[7]];
    assert Filter(Moving, s) == [s[0], s[1], s[3], s[5], s[6], s[7]];
  }
}
