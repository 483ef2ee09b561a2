/** The logic of the dashboard page: the monthly totals of the user's list,
    the list ranked by cost, the severity colour of a row, the efficiency
    comparator, and the list itself with its add and remove operations. */
module Dashboard {
  import opened Wrappers
  import opened Seqs
  import opened StableSort
  import opened Types
  import opened Calculations
  import opened Constants

  // ---------------------------------------------------------------------
  // Totals
  // ---------------------------------------------------------------------

  /** Monthly kWh of one list entry. */
  function EntryKwh(e: ApplianceEntry): real
  {
    MonthlyKwh(e.watts, e.hoursPerDay, e.quantity as real)
  }

  /** `total`: the entries' kWh summed from 0, then priced and converted to
      CO2 at the region's rate and factor. */
  function Total(entries: seq<ApplianceEntry>, region: Region): Totals
  {
    var kwh := Sum(entries, EntryKwh);
    Totals(kwh, CostCLP(kwh, ElectricityCostCLPPerKwh(region)), EmissionsKg(kwh, CarbonFactorKgPerKwh(region)))
  }

  /** An empty list costs nothing. */
  lemma TotalOfNoEntries(region: Region)
    ensures Total([], region) == Totals(0.0, 0.0, 0.0)
  {
  }

  /** Adding an entry adds its kWh, its cost and its emissions to the totals. */
  lemma TotalAppend(entries: seq<ApplianceEntry>, e: ApplianceEntry, region: Region)
    ensures var before, after := Total(entries, region), Total(entries + [e], region);
      && after.kwh == before.kwh + EntryKwh(e)
      && after.cost == before.cost + CostCLP(EntryKwh(e), ElectricityCostCLPPerKwh(region))
      && after.co2 == before.co2 + EmissionsKg(EntryKwh(e), CarbonFactorKgPerKwh(region))
  {
    assert (entries + [e])[..|entries + [e]| - 1] == entries;
    CostAdditive(Sum(entries, EntryKwh), EntryKwh(e), ElectricityCostCLPPerKwh(region));
    EmissionsAdditive(Sum(entries, EntryKwh), EntryKwh(e), CarbonFactorKgPerKwh(region));
  }

  /** Entries with no negative power, hours or quantity give no negative total. */
  lemma TotalNonNegative(entries: seq<ApplianceEntry>, region: Region)
    requires forall i :: 0 <= i < |entries| ==>
      entries[i].watts >= 0.0 && entries[i].hoursPerDay >= 0.0 && entries[i].quantity >= 0
    ensures var t := Total(entries, region); t.kwh >= 0.0 && t.cost >= 0.0 && t.co2 >= 0.0
  {
    SumNonNegative(entries, EntryKwh);
  }

  // ---------------------------------------------------------------------
  // Ranking
  // ---------------------------------------------------------------------

  /** `{ ...e, kwh, cost }`: an entry with its monthly kWh and cost. */
  datatype RankedRow = RankedRow(entry: ApplianceEntry, kwh: real, cost: real)

  function Annotate(e: ApplianceEntry, region: Region): RankedRow
  {
    var kwh := EntryKwh(e);
    RankedRow(e, kwh, CostCLP(kwh, ElectricityCostCLPPerKwh(region)))
  }

  /** The annotation as a value, so that every use names the same function. */
  function Annotator(region: Region): ApplianceEntry -> RankedRow
  {
    e => Annotate(e, region)
  }

  function RowCost(row: RankedRow): real
  {
    row.cost
  }

  /** The cost of an entry, the sort key of the ranking. */
  function EntryCost(region: Region): ApplianceEntry -> real
  {
    e => Annotate(e, region).cost
  }

  /** `ranked`: a copy of the entries, each annotated, sorted by cost from
      the most expensive down. */
  function Ranked(entries: seq<ApplianceEntry>, region: Region): (rows: seq<RankedRow>)
    ensures |rows| == |entries|
  {
    SortDescIsPermutation(MapSeq(Annotator(region), entries), RowCost);
    SortDesc(MapSeq(Annotator(region), entries), RowCost)
  }

  /** Annotating then sorting is sorting the entries by their cost, then
      annotating; so the ranking is the stable sort of the entries. */
  lemma RankedIsSortedEntries(entries: seq<ApplianceEntry>, region: Region)
    ensures Ranked(entries, region) == MapSeq(Annotator(region), SortDesc(entries, EntryCost(region)))
  {
    SortDescMap(entries, Annotator(region), EntryCost(region), RowCost);
  }

  /** The ranking holds every entry once, each with its own kWh and cost,
      ordered by non-increasing cost; entries of equal cost keep the order
      they have in the list. */
  lemma RankedSpec(entries: seq<ApplianceEntry>, region: Region)
    ensures var rows, sorted := Ranked(entries, region), SortDesc(entries, EntryCost(region));
      && |rows| == |entries| == |sorted|
      && multiset(sorted) == multiset(entries)
      && (forall i :: 0 <= i < |rows| ==> rows[i] == Annotate(sorted[i], region))
      && (forall i, j :: 0 <= i < j < |rows| ==> rows[i].cost >= rows[j].cost)
      && (forall c :: WithKey(sorted, EntryCost(region), c) == WithKey(entries, EntryCost(region), c))
  {
    var sorted := SortDesc(entries, EntryCost(region));
    RankedIsSortedEntries(entries, region);
    SortDescIsPermutation(entries, EntryCost(region));
    SortDescIsSorted(MapSeq(Annotator(region), entries), RowCost);
    forall c ensures WithKey(sorted, EntryCost(region), c) == WithKey(entries, EntryCost(region), c) {
      SortDescIsStable(entries, EntryCost(region), c);
    }
  }

  /** Summing the annotated costs is pricing the summed kWh. */
  lemma {:induction false} SumOfAnnotatedCosts(entries: seq<ApplianceEntry>, region: Region)
    ensures Sum(MapSeq(Annotator(region), entries), RowCost)
         == CostCLP(Sum(entries, EntryKwh), ElectricityCostCLPPerKwh(region))
  {
    var rows := MapSeq(Annotator(region), entries);
    if entries != [] {
      var n := |entries|;
      assert rows[..n - 1] == MapSeq(Annotator(region), entries[..n - 1]);
      SumOfAnnotatedCosts(entries[..n - 1], region);
      CostAdditive(Sum(entries[..n - 1], EntryKwh), EntryKwh(entries[n - 1]), ElectricityCostCLPPerKwh(region));
    }
  }

  /** The total cost is the sum of the costs shown in the ranking. */
  lemma TotalCostIsRankedSum(entries: seq<ApplianceEntry>, region: Region)
    ensures Total(entries, region).cost == Sum(Ranked(entries, region), RowCost)
  {
    SortDescSum(MapSeq(Annotator(region), entries), RowCost, RowCost);
    SumOfAnnotatedCosts(entries, region);
  }

  // ---------------------------------------------------------------------
  // Severity
  // ---------------------------------------------------------------------

  /** The colour class of a row's kWh figure. */
  datatype Severity = Success | Warning | Danger

  /** `severityColor`: under 10 kWh success, under 30 warning, else danger. */
  function SeverityColor(kwh: real): (s: Severity)
    ensures s == Success <==> kwh < 10.0
    ensures s == Warning <==> 10.0 <= kwh < 30.0
    ensures s == Danger <==> kwh >= 30.0
  {
    if kwh < 10.0 then Success
    else if kwh < 30.0 then Warning
    else Danger
  }

  function SeverityLevel(s: Severity): nat
  {
    match s
    case Success => 0
    case Warning => 1
    case Danger => 2
  }

  /** More energy never shows a milder colour. */
  lemma SeverityMonotone(k1: real, k2: real)
    requires k1 <= k2
    ensures SeverityLevel(SeverityColor(k1)) <= SeverityLevel(SeverityColor(k2))
  {
  }

  // ---------------------------------------------------------------------
  // Efficiency comparator
  // ---------------------------------------------------------------------

  /** The hours per day the comparator assumes when none are given. */
  const DefaultCompareHours: real := 4.0

  /** `compareMonthlyKwh(key, hours)`: one catalog appliance at its rated power. */
  function CompareMonthlyKwh(key: string, hours: real): real
    requires Appliance(key).Some?
  {
    MonthlyKwhOfOne(Appliance(key).value.watts, hours)
  }

  /** What replacing A by B saves a month, in pesos (negative when B uses more). */
  function MonthlySavingCLP(keyA: string, keyB: string, hours: real, region: Region): real
    requires Appliance(keyA).Some? && Appliance(keyB).Some?
  {
    CostCLP(CompareMonthlyKwh(keyA, hours) - CompareMonthlyKwh(keyB, hours), ElectricityCostCLPPerKwh(region))
  }

  /** The months a monthly saving takes to pay back a price difference;
      `None` where the source returns `Infinity`, for a saving that is not
      positive. */
  function RecoveryMonths(priceDeltaCLP: real, savingCLP: real): (months: Option<real>)
    ensures months.None? <==> savingCLP <= 0.0
    ensures months.Some? ==> months.value * savingCLP == priceDeltaCLP
    ensures months.Some? && priceDeltaCLP > 0.0 ==> months.value > 0.0
  {
    if savingCLP <= 0.0 then None else Some(priceDeltaCLP / savingCLP)
  }

  /** `investmentRecoveryMonths(priceDelta, keyA, keyB, hours)`. */
  function InvestmentRecoveryMonths(priceDeltaCLP: real, keyA: string, keyB: string, hours: real, region: Region)
    : Option<real>
    requires Appliance(keyA).Some? && Appliance(keyB).Some?
  {
    RecoveryMonths(priceDeltaCLP, MonthlySavingCLP(keyA, keyB, hours, region))
  }

  /** Multiplying by a positive factor keeps the sign. */
  lemma PositiveProduct(x: real, y: real)
    requires y > 0.0
    ensures x * y > 0.0 <==> x > 0.0
  {
    if x > 0.0 {
      assert x * y > 0.0;
    } else {
      assert x * y <= 0.0;
    }
  }

  /** One appliance's monthly kWh is its power times the hours of a month, in kW. */
  lemma MonthlyKwhScales(watts: real, hours: real)
    ensures MonthlyKwhOfOne(watts, hours) == watts * (hours * 30.0 / 1000.0)
  {
  }

  /** With some daily use, the more powerful appliance uses more energy,
      and only it. */
  lemma MoreEnergyIffMorePower(wattsA: real, wattsB: real, hours: real)
    requires hours > 0.0
    ensures MonthlyKwhOfOne(wattsA, hours) - MonthlyKwhOfOne(wattsB, hours) > 0.0 <==> wattsA > wattsB
  {
    var c := hours * 30.0 / 1000.0;
    MonthlyKwhScales(wattsA, hours);
    MonthlyKwhScales(wattsB, hours);
    assert wattsA * c - wattsB * c == (wattsA - wattsB) * c;
    PositiveProduct(wattsA - wattsB, c);
  }

  /** With some daily use, there is a payback exactly when A draws more
      power than B; comparing an appliance with itself never pays back. */
  lemma RecoveryIffMorePower(priceDeltaCLP: real, keyA: string, keyB: string, hours: real, region: Region)
    requires Appliance(keyA).Some? && Appliance(keyB).Some? && hours > 0.0
    ensures InvestmentRecoveryMonths(priceDeltaCLP, keyA, keyB, hours, region).Some?
        <==> Appliance(keyA).value.watts > Appliance(keyB).value.watts
  {
    MoreEnergyIffMorePower(Appliance(keyA).value.watts, Appliance(keyB).value.watts, hours);
  }

  /** The comparator as the page first shows it: the 60 W incandescent bulb
      replaced by the 9 W LED bulb, 4 hours a day in the Metropolitan region
      at 195 pesos per kWh, saves 6.12 kWh, that is 1193.4 pesos, a month,
      so the example's 20000 pesos come back in 20000 / 1193.4 months. */
  lemma RecoverySample()
    ensures && Appliance("incandescent_bulb").Some? && Appliance("led_bulb").Some?
            && MonthlySavingCLP("incandescent_bulb", "led_bulb", DefaultCompareHours, RM) == 1193.4
            && InvestmentRecoveryMonths(20000.0, "incandescent_bulb", "led_bulb", DefaultCompareHours, RM)
               == Some(20000.0 / 1193.4)
  {
    ComparisonDefaultsPresent();
    BulbSaving(Appliance("incandescent_bulb").value.watts, Appliance("led_bulb").value.watts);
  }

  /** The bulbs' saving, at the level of their powers. */
  lemma BulbSaving(wattsA: real, wattsB: real)
    requires wattsA == 60.0 && wattsB == 9.0
    ensures CostCLP(MonthlyKwhOfOne(wattsA, DefaultCompareHours) - MonthlyKwhOfOne(wattsB, DefaultCompareHours),
                    ElectricityCostCLPPerKwh(RM)) == 1193.4
  {
    assert MonthlyKwhOfOne(wattsA, DefaultCompareHours) == 7.2;
    assert MonthlyKwhOfOne(wattsB, DefaultCompareHours) == 1.08;
  }

  // ---------------------------------------------------------------------
  // Object identity and the delete button
  // ---------------------------------------------------------------------

  /** What `indexOf` compares: JavaScript objects, by identity. The list
      holds one object per entry; the ranking builds a new object per row
      with `{ ...e, kwh, cost }`. */
  datatype ObjectRef = EntryObject(slot: nat) | RowObject(rank: nat)

  /** The identities of the list's objects, in list order. */
  function EntryRefs(n: nat): (refs: seq<ObjectRef>)
    ensures |refs| == n && forall i :: 0 <= i < n ==> refs[i] == EntryObject(i)
  {
    seq(n, (i: int) requires 0 <= i => EntryObject(i))
  }

  /** The delete button of row `k` as written: `removeEntry(entries.indexOf(e))`
      with `e` the row object. */
  function DeleteRowAsWritten(entries: seq<ApplianceEntry>, k: nat): seq<ApplianceEntry>
  {
    RemoveAt(entries, IndexOf(EntryRefs(|entries|), RowObject(k)))
  }

  /** No row object is in the list, so `indexOf` gives -1 and the filter
      keeps every entry: the button never deletes anything. */
  lemma DeleteRowAsWrittenRemovesNothing(entries: seq<ApplianceEntry>, k: nat)
    ensures IndexOf(EntryRefs(|entries|), RowObject(k)) == -1
    ensures DeleteRowAsWritten(entries, k) == entries
  {
    var refs := EntryRefs(|entries|);
    assert RowObject(k) !in refs by {
      forall i | 0 <= i < |refs| ensures refs[i] != RowObject(k) { }
    }
  }

  /** The delete button of row `k` as intended: remove the list's first
      entry equal to the one shown in that row. */
  function DeleteRow(entries: seq<ApplianceEntry>, region: Region, k: nat): seq<ApplianceEntry>
    requires k < |entries|
  {
    RemoveAt(entries, IndexOf(entries, Ranked(entries, region)[k].entry))
  }

  /** The entry behind every row of the ranking is in the list. */
  lemma RankedEntryListed(entries: seq<ApplianceEntry>, region: Region, k: nat)
    requires k < |entries|
    ensures Ranked(entries, region)[k].entry in entries
  {
    RankedSpec(entries, region);
    var sorted := SortDesc(entries, EntryCost(region));
    assert Ranked(entries, region)[k].entry == sorted[k];
    assert sorted[k] in multiset(sorted);
  }

  /** Deleting row `k` removes exactly one entry: the first entry of the
      list equal to the entry behind that row; the others keep their order. */
  lemma DeleteRowRemovesThatEntry(entries: seq<ApplianceEntry>, region: Region, k: nat) returns (i: nat)
    requires k < |entries|
    ensures i < |entries| && entries[i] == Ranked(entries, region)[k].entry
    ensures entries[i] !in entries[..i]
    ensures DeleteRow(entries, region, k) == entries[..i] + entries[i + 1..]
    ensures multiset(DeleteRow(entries, region, k)) + multiset{entries[i]} == multiset(entries)
  {
    var e := Ranked(entries, region)[k].entry;
    RankedEntryListed(entries, region, k);
    i := IndexOf(entries, e);
    assert DeleteRow(entries, region, k) == RemoveAt(entries, i);
    MultisetTakeOut(entries, i);
  }

  // ---------------------------------------------------------------------
  // The page's state
  // ---------------------------------------------------------------------

  /** The form fields, the list and the comparator picks of the dashboard;
      `region` is the profile's region, 'RM' when it has none. */
  class DashboardState {
    var entries: seq<ApplianceEntry>
    var selectedKey: string
    var potencia: real
    var horas: real
    var count: int
    var compareA: string
    var compareB: string
    const region: Region

    /** The three selects only offer catalog keys. */
    ghost predicate Valid()
      reads this
    {
      Appliance(selectedKey).Some? && Appliance(compareA).Some? && Appliance(compareB).Some?
    }

    constructor (profileRegion: Option<Region>)
      ensures Valid()
      ensures region == profileRegion.GetOr(RM)
      ensures entries == []
      ensures selectedKey == "refrigerator" && potencia == 150.0 && horas == 8.0 && count == 1
      ensures compareA == "incandescent_bulb" && compareB == "led_bulb"
    {
      FirstApplianceFound();
      ComparisonDefaultsPresent();
      region := profileRegion.GetOr(RM);
      entries := [];
      selectedKey := "refrigerator";
      potencia := Appliance("refrigerator").value.watts;
      horas := 8.0;
      count := 1;
      compareA := "incandescent_bulb";
      compareB := "led_bulb";
    }

    /** Picking an appliance also loads its rated power into the power field. */
    method SelectAppliance(k: string)
      requires Valid() && Appliance(k).Some?
      modifies this`selectedKey, this`potencia
      ensures Valid()
      ensures selectedKey == k && potencia == Appliance(k).value.watts
    {
      selectedKey := k;
      potencia := Appliance(k).value.watts;
    }

    method SetPotencia(w: real)
      requires Valid()
      modifies this`potencia
      ensures Valid()
      ensures potencia == w
    {
      potencia := w;
    }

    method SetHoras(h: real)
      requires Valid()
      modifies this`horas
      ensures Valid()
      ensures horas == h
    {
      horas := h;
    }

    method SetCount(n: int)
      requires Valid()
      modifies this`count
      ensures Valid()
      ensures count == n
    {
      count := n;
    }

    method SetCompareA(k: string)
      requires Valid() && Appliance(k).Some?
      modifies this`compareA
      ensures Valid() && compareA == k
    {
      compareA := k;
    }

    method SetCompareB(k: string)
      requires Valid() && Appliance(k).Some?
      modifies this`compareB
      ensures Valid() && compareB == k
    {
      compareB := k;
    }

    /** The entry the form describes: the selected key and its catalog
        name, with the power, hours and quantity typed in the form. */
    function NewEntry(): ApplianceEntry
      reads this
      requires Valid()
    {
      ApplianceEntry(selectedKey, Appliance(selectedKey).value.name, potencia, horas, count)
    }

    /** `addEntry`: appends the form's entry; nothing else changes. */
    method AddEntry()
      requires Valid()
      modifies this`entries
      ensures Valid()
      ensures entries == old(entries) + [old(NewEntry())]
    {
      entries := entries + [NewEntry()];
    }

    /** `removeEntry(index)`: drops the entry at `index`, if there is one. */
    method RemoveEntry(index: int)
      requires Valid()
      modifies this`entries
      ensures Valid()
      ensures entries == RemoveAt(old(entries), index)
    {
      entries := RemoveAt(entries, index);
    }

    /** The delete button of row `k`, as the page wires it. */
    method DeleteRowButton(k: nat)
      requires Valid()
      modifies this`entries
      ensures Valid()
      ensures entries == old(entries)
    {
      DeleteRowAsWrittenRemovesNothing(entries, k);
      RemoveEntry(IndexOf(EntryRefs(|entries|), RowObject(k)));
    }

    /** The delete button of row `k`, removing the entry behind that row. */
    method DeleteRowFixed(k: nat)
      requires Valid() && k < |entries|
      modifies this`entries
      ensures Valid()
      ensures entries == DeleteRow(old(entries), region, k)
    {
      RemoveEntry(IndexOf(entries, Ranked(entries, region)[k].entry));
    }

    /** The figures the page shows for the current list. */
    function CurrentTotal(): Totals
      reads this
    {
      Total(entries, region)
    }

    function CurrentRanking(): seq<RankedRow>
      reads this
    {
      Ranked(entries, region)
    }
  }
}
