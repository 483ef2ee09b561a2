/** The savings calculator: what a target percentage of the current monthly
    consumption is worth, the measure recommended for that target, how many
    months that measure takes to pay for itself, and which measures the
    target already reaches. */
module Savings {
  import opened Wrappers

  // ---------------------------------------------------------------------
  // The slider and the savings it implies
  // ---------------------------------------------------------------------

  /** The values the range input offers: 5 to 50 in steps of 5. */
  predicate SliderValue(pct: int)
  {
    5 <= pct <= 50 && pct % 5 == 0
  }

  /** The slider's initial position. */
  const InitialPercentage: int := 20

  lemma InitialPercentageOnSlider()
    ensures SliderValue(InitialPercentage)
  {
  }

  /** `potentialSavings`: the kWh a month the target saves, their price a
      month, and that price over a year. */
  datatype PotentialSavings = PotentialSavings(kwh: real, monthly: real, annual: real)

  function PotentialSavingsOf(currentMonthlyKwh: real, savingsPercentage: int, costPerKwh: real): PotentialSavings
  {
    var kwh := currentMonthlyKwh * (savingsPercentage as real / 100.0);
    PotentialSavings(kwh, kwh * costPerKwh, kwh * costPerKwh * 12.0)
  }

  /** The kWh a year shown under the annual figure. */
  function AnnualKwh(s: PotentialSavings): real
  {
    s.kwh * 12.0
  }

  /** The figure shown for five years. */
  function FiveYearSavings(s: PotentialSavings): real
  {
    s.annual * 5.0
  }

  /** The saved energy is the target share of the current consumption, the
      monthly figure its price, and the annual and five-year figures twelve
      and sixty months of it. */
  lemma SavingsAreShares(currentMonthlyKwh: real, savingsPercentage: int, costPerKwh: real)
    ensures var s := PotentialSavingsOf(currentMonthlyKwh, savingsPercentage, costPerKwh);
      && 100.0 * s.kwh == savingsPercentage as real * currentMonthlyKwh
      && s.monthly == s.kwh * costPerKwh
      && s.annual == 12.0 * s.monthly
      && FiveYearSavings(s) == 60.0 * s.monthly
      && AnnualKwh(s) == 12.0 * s.kwh
  {
  }

  /** With a non-negative consumption and price, every figure on a slider
      position is non-negative and at most half the current consumption and
      its price. */
  lemma SavingsBounded(currentMonthlyKwh: real, savingsPercentage: int, costPerKwh: real)
    requires SliderValue(savingsPercentage) && currentMonthlyKwh >= 0.0 && costPerKwh >= 0.0
    ensures var s := PotentialSavingsOf(currentMonthlyKwh, savingsPercentage, costPerKwh);
      && 0.0 <= s.kwh <= 0.5 * currentMonthlyKwh
      && 0.0 <= s.monthly <= 0.5 * currentMonthlyKwh * costPerKwh
      && 0.0 <= s.annual
  {
    var share := savingsPercentage as real / 100.0;
    var kwh := currentMonthlyKwh * share;
    assert 0.0 <= share <= 0.5;
    ScaleBelow(currentMonthlyKwh, share, 0.5);
    ScaleBelow(costPerKwh, kwh, 0.5 * currentMonthlyKwh);
  }

  /** `0 <= y <= b` scales a non-negative `x` to at most `x * b`. */
  lemma ScaleBelow(x: real, y: real, b: real)
    requires x >= 0.0 && 0.0 <= y <= b
    ensures 0.0 <= x * y <= x * b
  {
  }

  /** A higher target never saves less. */
  lemma SavingsMonotone(currentMonthlyKwh: real, p1: int, p2: int, costPerKwh: real)
    requires currentMonthlyKwh >= 0.0 && costPerKwh >= 0.0 && p1 <= p2
    ensures PotentialSavingsOf(currentMonthlyKwh, p1, costPerKwh).monthly
         <= PotentialSavingsOf(currentMonthlyKwh, p2, costPerKwh).monthly
  {
    var k1 := currentMonthlyKwh * (p1 as real / 100.0);
    var k2 := currentMonthlyKwh * (p2 as real / 100.0);
    if p1 >= 0 {
      ScaleBelow(currentMonthlyKwh, p1 as real / 100.0, p2 as real / 100.0);
    } else {
      assert k1 <= 0.0 by {
        ScaleBelow(currentMonthlyKwh, -(p1 as real / 100.0), -(p1 as real / 100.0));
      }
      if p2 >= 0 {
        ScaleBelow(currentMonthlyKwh, 0.0, p2 as real / 100.0);
      } else {
        ScaleBelow(currentMonthlyKwh, -(p2 as real / 100.0), -(p1 as real / 100.0));
      }
    }
    assert k1 <= k2;
    assert k1 * costPerKwh <= k2 * costPerKwh by {
      ScaleBelow(costPerKwh, 0.0, k2 - k1);
    }
  }

  // ---------------------------------------------------------------------
  // The recommended measure
  // ---------------------------------------------------------------------

  /** One entry of `savingsTips`. */
  datatype Tip = Tip(percentage: int, measure: string, investment: real)

  /** `savingsTips`, in the order the source lists them. */
  const SavingsTips: seq<Tip> := [
    Tip(10, "Cambiar a iluminación LED", 150000.0),
    Tip(15, "Desconectar aparatos en standby", 50000.0),
    Tip(20, "Optimizar uso de climatización", 0.0),
    Tip(25, "Actualizar electrodomésticos antiguos", 1500000.0),
    Tip(30, "Instalar paneles solares", 8000000.0)
  ]

  /** Tips listed from the smallest percentage to the largest. */
  predicate Ascending(tips: seq<Tip>)
  {
    forall i, j :: 0 <= i < j < |tips| ==> tips[i].percentage < tips[j].percentage
  }

  lemma SavingsTipsAscending()
    ensures |SavingsTips| == 5 && Ascending(SavingsTips)
  {
  }

  /** `tips.find(tip => tip.percentage >= pct)`, as a position: the first
      tip that reaches the target, or `None` where `find` gives `undefined`. */
  function FindReaching(tips: seq<Tip>, pct: int): (found: Option<nat>)
    ensures found.Some? ==> found.value < |tips| && tips[found.value].percentage >= pct
    ensures found.Some? ==> forall j :: 0 <= j < found.value ==> tips[j].percentage < pct
    ensures found.None? ==> forall j :: 0 <= j < |tips| ==> tips[j].percentage < pct
  {
    if tips == [] then None
    else if tips[0].percentage >= pct then Some(0)
    else match FindReaching(tips[1..], pct)
      case None => None
      case Some(i) => Some(i + 1)
  }

  /** `currentTip`: the first tip that reaches the target, or the last tip
      when none does. */
  function CurrentTip(pct: int): Tip
  {
    match FindReaching(SavingsTips, pct)
    case Some(i) => SavingsTips[i]
    case None => SavingsTips[|SavingsTips| - 1]
  }

  /** Among tips in ascending order, the first that reaches the target is
      the one with the smallest percentage that does. */
  lemma FirstReachingIsSmallest(tips: seq<Tip>, pct: int, j: nat)
    requires Ascending(tips) && j < |tips| && tips[j].percentage >= pct
    ensures FindReaching(tips, pct).Some?
    ensures var i := FindReaching(tips, pct).value;
      i <= j && tips[i].percentage <= tips[j].percentage
  {
  }

  /** Up to 30 %, the recommended measure is the listed one with the
      smallest percentage that reaches the target. */
  lemma CurrentTipReaches(pct: int)
    requires pct <= 30
    ensures CurrentTip(pct) in SavingsTips && CurrentTip(pct).percentage >= pct
    ensures forall t :: t in SavingsTips && t.percentage >= pct ==> CurrentTip(pct).percentage <= t.percentage
  {
    SavingsTipsAscending();
    FirstReachingIsSmallest(SavingsTips, pct, 4);
    forall t | t in SavingsTips && t.percentage >= pct
      ensures CurrentTip(pct).percentage <= t.percentage
    {
      var j :| 0 <= j < |SavingsTips| && SavingsTips[j] == t;
      FirstReachingIsSmallest(SavingsTips, pct, j);
    }
  }

  /** Above 30 %, no measure reaches the target and the last one, the solar
      panels, is recommended. */
  lemma CurrentTipBeyondList(pct: int)
    requires pct > 30
    ensures CurrentTip(pct) == SavingsTips[4]
  {
    SavingsTipsAscending();
  }

  /** At the initial 20 %, the recommendation is to use climate control
      better, which costs nothing. */
  lemma InitialTip()
    ensures CurrentTip(InitialPercentage) == Tip(20, "Optimizar uso de climatización", 0.0)
  {
    assert SavingsTips[0].percentage < 20 && SavingsTips[1].percentage < 20;
    assert FindReaching(SavingsTips, 20) == Some(2);
  }

  // ---------------------------------------------------------------------
  // Payback
  // ---------------------------------------------------------------------

  /** `Math.ceil`: the least integer not below `x`. */
  function Ceil(x: real): (c: int)
    ensures c as real - 1.0 < x <= c as real
  {
    -((-x).Floor)
  }

  /** The payback line: `Math.ceil(investment / monthly)` months, shown only
      when the investment and the monthly saving are both positive. */
  function PaybackMonths(investment: real, monthly: real): Option<int>
  {
    if investment > 0.0 && monthly > 0.0 then Some(Ceil(investment / monthly)) else None
  }

  /** The payback is shown exactly when there is something to pay back and
      a saving to do it with; it is then the least number of whole months
      whose savings cover the investment, at least one. */
  lemma PaybackIsLeastCoveringMonths(investment: real, monthly: real)
    ensures PaybackMonths(investment, monthly).Some? <==> investment > 0.0 && monthly > 0.0
    ensures PaybackMonths(investment, monthly).Some? ==>
      var m := PaybackMonths(investment, monthly).value;
      && m >= 1
      && (m - 1) as real * monthly < investment <= m as real * monthly
  {
    if investment > 0.0 && monthly > 0.0 {
      var q := investment / monthly;
      var m := Ceil(q);
      assert q * monthly == investment;
      assert m >= 1;
      Covering(q, (m - 1) as real, m as real, monthly);
    }
  }

  /** Months `a < q <= b` of a positive saving cover less than, and at
      least, `q` months' worth. */
  lemma Covering(q: real, a: real, b: real, monthly: real)
    requires monthly > 0.0 && a < q <= b
    ensures a * monthly < q * monthly <= b * monthly
  {
  }

  // ---------------------------------------------------------------------
  // Highlighting
  // ---------------------------------------------------------------------

  /** A tip in the list is highlighted when the target already reaches it. */
  predicate Highlighted(tip: Tip, pct: int)
  {
    tip.percentage <= pct
  }

  /** In an ascending list, the highlighted tips come first: if a tip is
      highlighted, so is every tip before it. */
  lemma HighlightedPrefix(tips: seq<Tip>, pct: int, i: nat, j: nat)
    requires Ascending(tips) && i < j < |tips| && Highlighted(tips[j], pct)
    ensures Highlighted(tips[i], pct)
  {
  }

  /** Up to 30 %, the recommended measure is highlighted only when the
      target is exactly its percentage; beyond, it always is. */
  lemma CurrentTipHighlighted(pct: int)
    ensures Highlighted(CurrentTip(pct), pct) <==> CurrentTip(pct).percentage == pct || pct > 30
  {
    if pct <= 30 {
      CurrentTipReaches(pct);
    } else {
      CurrentTipBeyondList(pct);
    }
  }
}
