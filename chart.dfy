/** The consumption chart: the five largest consumers as bars, each with its
    share of the total and its width relative to the largest, a colour tier
    by share, the count of consumers left out, and the totals. */
module Chart {
  import opened Wrappers
  import opened Seqs
  import opened StableSort

  /** One consumer handed to the chart. */
  datatype ChartData = ChartData(name: string, kwh: real, cost: real)

  function Kwh(d: ChartData): real
  {
    d.kwh
  }

  function Cost(d: ChartData): real
  {
    d.cost
  }

  /** How many bars the chart draws at most. */
  const TopCount: nat := 5

  // ---------------------------------------------------------------------
  // Totals and the largest consumer
  // ---------------------------------------------------------------------

  /** `data.reduce((sum, d) => sum + d.kwh, 0)`. */
  function TotalKwh(data: seq<ChartData>): real
  {
    Sum(data, Kwh)
  }

  /** The footer's cost: `data.reduce((sum, d) => sum + d.cost, 0)`. */
  function TotalCost(data: seq<ChartData>): real
  {
    Sum(data, Cost)
  }

  /** `Math.max(...data.map(d => d.kwh))`, only ever taken on a non-empty
      list: the chart renders nothing for an empty one. */
  function MaxKwh(data: seq<ChartData>): (m: real)
    requires |data| > 0
    ensures forall i :: 0 <= i < |data| ==> data[i].kwh <= m
    ensures exists i :: 0 <= i < |data| && data[i].kwh == m
  {
    if |data| == 1 then data[0].kwh
    else
      var rest := MaxKwh(data[1..]);
      if data[0].kwh >= rest then data[0].kwh else rest
  }

  /** A single consumer's kWh never exceeds a total of non-negative ones. */
  lemma {:induction false} PartAtMostTotal(data: seq<ChartData>, i: nat)
    requires i < |data| && forall j :: 0 <= j < |data| ==> data[j].kwh >= 0.0
    ensures 0.0 <= data[i].kwh <= TotalKwh(data)
  {
    var n := |data|;
    SumNonNegative(data[..n - 1], Kwh);
    if i < n - 1 {
      PartAtMostTotal(data[..n - 1], i);
    }
  }

  // ---------------------------------------------------------------------
  // The five largest
  // ---------------------------------------------------------------------

  /** `[...data].sort((a, b) => b.kwh - a.kwh).slice(0, 5)`. */
  function TopData(data: seq<ChartData>): (top: seq<ChartData>)
    ensures |top| == if |data| < TopCount then |data| else TopCount
  {
    SortDescIsPermutation(data, Kwh);
    var sorted := SortDesc(data, Kwh);
    if |sorted| < TopCount then sorted else sorted[..TopCount]
  }

  /** The bars are the largest consumers, from the largest down: they and
      the consumers left out make up the whole list, and no consumer left
      out uses more than a consumer shown. */
  lemma TopDataAreLargest(data: seq<ChartData>) returns (rest: seq<ChartData>)
    ensures multiset(TopData(data)) + multiset(rest) == multiset(data)
    ensures |rest| == |data| - |TopData(data)|
    ensures forall i, j :: 0 <= i < j < |TopData(data)| ==> TopData(data)[i].kwh >= TopData(data)[j].kwh
    ensures forall i, j :: 0 <= i < |TopData(data)| && 0 <= j < |rest| ==> TopData(data)[i].kwh >= rest[j].kwh
  {
    var sorted := SortDesc(data, Kwh);
    SortDescIsPermutation(data, Kwh);
    SortDescIsSorted(data, Kwh);
    var k := |TopData(data)|;
    assert TopData(data) == sorted[..k];
    rest := sorted[k..];
    assert sorted == sorted[..k] + rest;
    forall i, j | 0 <= i < k && 0 <= j < |rest|
      ensures TopData(data)[i].kwh >= rest[j].kwh
    {
      assert Kwh(sorted[i]) >= Kwh(sorted[k + j]);
    }
  }

  /** An element of a multiset of a sequence sits at some position. */
  lemma PositionOf(s: seq<ChartData>, x: ChartData) returns (i: nat)
    requires x in multiset(s)
    ensures i < |s| && s[i] == x
  {
    i :| 0 <= i < |s| && s[i] == x;
  }

  /** Every bar is one of the consumers. */
  lemma BarIsConsumer(data: seq<ChartData>, t: nat) returns (i: nat)
    requires t < |TopData(data)|
    ensures i < |data| && data[i] == TopData(data)[t]
  {
    var rest := TopDataAreLargest(data);
    var top := TopData(data);
    assert top[t] in multiset(top);
    i := PositionOf(data, top[t]);
  }

  /** The first bar is the largest consumer. */
  lemma FirstBarIsMax(data: seq<ChartData>)
    requires |data| > 0
    ensures TopData(data)[0].kwh == MaxKwh(data)
  {
    var rest := TopDataAreLargest(data);
    var top := TopData(data);
    var m := MaxKwh(data);
    var first := BarIsConsumer(data, 0);
    var i :| 0 <= i < |data| && data[i].kwh == m;
    assert data[i] in multiset(top) + multiset(rest);
    if data[i] in multiset(top) {
      var t := PositionOf(top, data[i]);
      assert t == 0 || top[0].kwh >= top[t].kwh;
    } else {
      var t := PositionOf(rest, data[i]);
      assert top[0].kwh >= rest[t].kwh;
    }
  }

  // ---------------------------------------------------------------------
  // Share, bar width and colour
  // ---------------------------------------------------------------------

  /** `(kwh / totalKwh) * 100`; `None` for a zero total, where JavaScript
      gives `NaN` or `Infinity`. */
  function Percentage(kwh: real, totalKwh: real): Option<real>
  {
    if totalKwh == 0.0 then None else Some(kwh / totalKwh * 100.0)
  }

  /** `(kwh / maxKwh) * 100`; `None` for a zero maximum. */
  function BarWidth(kwh: real, maxKwh: real): Option<real>
  {
    if maxKwh == 0.0 then None else Some(kwh / maxKwh * 100.0)
  }

  /** The share of the total, as a weight to sum. */
  function ShareOf(totalKwh: real): ChartData -> real
  {
    (d: ChartData) => Percentage(d.kwh, totalKwh).GetOr(0.0)
  }

  /** With non-negative consumers and some consumption, every share lies
      between 0 and 100 %. */
  lemma PercentageBounded(data: seq<ChartData>, i: nat)
    requires i < |data| && forall j :: 0 <= j < |data| ==> data[j].kwh >= 0.0
    requires TotalKwh(data) > 0.0
    ensures Percentage(data[i].kwh, TotalKwh(data)).Some?
    ensures 0.0 <= Percentage(data[i].kwh, TotalKwh(data)).value <= 100.0
  {
    PartAtMostTotal(data, i);
    FractionAtMostOne(data[i].kwh, TotalKwh(data));
  }

  /** `0 <= x <= t` is at most all of a positive `t`. */
  lemma FractionAtMostOne(x: real, t: real)
    requires t > 0.0 && 0.0 <= x <= t
    ensures 0.0 <= x / t * 100.0 <= 100.0
  {
    assert x / t <= 1.0;
  }

  /** The shares of a prefix add up to its kWh as a share of the total. */
  lemma {:induction false} SharesSum(data: seq<ChartData>, totalKwh: real)
    requires totalKwh != 0.0
    ensures Sum(data, ShareOf(totalKwh)) == TotalKwh(data) / totalKwh * 100.0
  {
    if data != [] {
      var n := |data|;
      SharesSum(data[..n - 1], totalKwh);
      assert ShareOf(totalKwh)(data[n - 1]) == data[n - 1].kwh / totalKwh * 100.0;
      SplitShare(TotalKwh(data[..n - 1]), data[n - 1].kwh, totalKwh);
    }
  }

  lemma SplitShare(a: real, b: real, t: real)
    requires t != 0.0
    ensures a / t * 100.0 + b / t * 100.0 == (a + b) / t * 100.0
  {
  }

  /** With some consumption, the shares of all consumers, shown or not, add
      up to 100 %. */
  lemma SharesSumToHundred(data: seq<ChartData>)
    requires TotalKwh(data) != 0.0
    ensures Sum(data, ShareOf(TotalKwh(data))) == 100.0
  {
    SharesSum(data, TotalKwh(data));
  }

  /** With positive consumers, every bar has a width in (0, 100] %, and the
      first bar is full. */
  lemma BarWidthBounded(data: seq<ChartData>)
    requires |data| > 0 && forall j :: 0 <= j < |data| ==> data[j].kwh > 0.0
    ensures forall i :: 0 <= i < |TopData(data)| ==>
      var w := BarWidth(TopData(data)[i].kwh, MaxKwh(data));
      w.Some? && 0.0 < w.value <= 100.0
    ensures BarWidth(TopData(data)[0].kwh, MaxKwh(data)) == Some(100.0)
  {
    var top := TopData(data);
    var m := MaxKwh(data);
    assert m > 0.0 by {
      assert data[0].kwh <= m;
    }
    FirstBarIsMax(data);
    forall i | 0 <= i < |top|
      ensures var w := BarWidth(top[i].kwh, m); w.Some? && 0.0 < w.value <= 100.0
    {
      var j := BarIsConsumer(data, i);
      PositiveFraction(top[i].kwh, m);
    }
    assert top[0].kwh / m == 1.0;
  }

  /** `0 < x <= m` is a positive part, at most all, of `m`. */
  lemma PositiveFraction(x: real, m: real)
    requires 0.0 < x <= m
    ensures 0.0 < x / m * 100.0 <= 100.0
  {
    assert x / m <= 1.0;
  }

  /** The bar colours: red above 30 %, amber above 15 %, green otherwise. */
  datatype Tier = Red | Amber | Green

  /** The tier of a share; a missing share (`NaN`) fails both comparisons
      and is green. */
  function TierOf(percentage: Option<real>): (t: Tier)
    ensures t == Red <==> percentage.Some? && percentage.value > 30.0
    ensures t == Amber <==> percentage.Some? && 15.0 < percentage.value <= 30.0
    ensures t == Green <==> percentage.None? || percentage.value <= 15.0
  {
    if percentage.Some? && percentage.value > 30.0 then Red
    else if percentage.Some? && percentage.value > 15.0 then Amber
    else Green
  }

  function TierLevel(t: Tier): nat
  {
    match t
    case Green => 0
    case Amber => 1
    case Red => 2
  }

  /** A larger share never gets a milder colour. */
  lemma TierMonotone(p1: real, p2: real)
    requires p1 <= p2
    ensures TierLevel(TierOf(Some(p1))) <= TierLevel(TierOf(Some(p2)))
  {
  }

  /** The boundaries belong to the milder tier. */
  lemma TierBoundaries()
    ensures TierOf(Some(30.0)) == Amber && TierOf(Some(15.0)) == Green
  {
  }

  // ---------------------------------------------------------------------
  // The rendered chart
  // ---------------------------------------------------------------------

  /** The "Y N electrodomésticos más" footer: shown for more than five
      consumers, with the number left out. */
  function MoreCount(data: seq<ChartData>): Option<int>
  {
    if |data| > TopCount then Some(|data| - TopCount) else None
  }

  /** The footer appears exactly when some consumer is left out, and counts
      exactly those. */
  lemma MoreCountCountsHidden(data: seq<ChartData>)
    ensures MoreCount(data).Some? <==> |TopData(data)| < |data|
    ensures MoreCount(data).Some? ==> MoreCount(data).value + |TopData(data)| == |data|
  {
  }

  /** One bar: its 1-based rank, its consumer, its share, width and tier. */
  datatype Bar = Bar(rank: nat, item: ChartData, percentage: Option<real>, barWidth: Option<real>, tier: Tier)

  /** What the chart shows: the bars, the footer count and the totals. */
  datatype ChartView = ChartView(bars: seq<Bar>, more: Option<int>, totalKwh: real, totalCost: real)

  function BarAt(top: seq<ChartData>, i: nat, totalKwh: real, maxKwh: real): Bar
    requires i < |top|
  {
    var p := Percentage(top[i].kwh, totalKwh);
    Bar(i + 1, top[i], p, BarWidth(top[i].kwh, maxKwh), TierOf(p))
  }

  /** The component: nothing for an empty list, otherwise the view. */
  function Render(data: seq<ChartData>): (view: Option<ChartView>)
    ensures view.None? <==> data == []
  {
    if data == [] then None
    else
      var top := TopData(data);
      var total, max := TotalKwh(data), MaxKwh(data);
      Some(ChartView(seq(|top|, (i: int) requires 0 <= i < |top| => BarAt(top, i, total, max)),
                     MoreCount(data), total, TotalCost(data)))
  }

  /** The view draws the five largest consumers in rank order, each with
      its own share and width, and the footer counts the others. */
  lemma RenderShowsTopData(data: seq<ChartData>)
    requires data != []
    ensures var view, top := Render(data).value, TopData(data);
      && |view.bars| == |top| == (if |data| < TopCount then |data| else TopCount)
      && (forall i :: 0 <= i < |top| ==>
            && view.bars[i].rank == i + 1
            && view.bars[i].item == top[i]
            && view.bars[i].percentage == Percentage(top[i].kwh, TotalKwh(data))
            && view.bars[i].barWidth == BarWidth(top[i].kwh, MaxKwh(data)))
      && (view.more.Some? ==> view.more.value + |top| == |data|)
  {
  }
}
