# Household electricity estimator: a verified model of its core

The application lets a Chilean household sign in with its RUT (the national
tax number, written `12.345.678-5`) and a region. It then lists its
appliances and estimates their monthly energy, cost in pesos (CLP) and CO2
emissions at that region's tariff and carbon factor. The dashboard ranks the
appliances by cost and colours each row by how much energy it uses. It also
compares two catalog appliances and says how many months a price difference
takes to pay back. Two components show a savings calculator and a bar chart
of the largest consumers.

This project models that core in Dafny and proves what it promises:

- `seqs.dfy` (module `Seqs`): the `Array.prototype` operations the code relies on. These are `reduce` with `+`, `reverse`, `filter` by index and `indexOf`.
- `stable_sort.dfy` (module `StableSort`): `[...xs].sort((a, b) => key(b) - key(a))`, written as a stable insertion sort. ECMAScript requires `sort` to be stable.
- `rut.dfy` (module `Rut`): `normalizeRut`, `formatRut`, `validateRut` and `computeDV`.
  - `computeDV` and the digit-grouping loop of `formatRut` are methods with loop invariants. Each is proved against a specification function.
- `calculations.dfy` (module `Calculations`): monthly kWh, cost and emissions.
- `constants.dfy` (module `Constants`): the regions, their tariffs and carbon factors, and the appliance catalog.
- `types.dfy` (module `Types`): the records shared by the modules.
- `dashboard.dfy` (module `Dashboard`): totals, the ranking, the severity colour, the efficiency comparator and the delete button.
  - The page's state is the class `DashboardState`. Its methods update the list and the form fields.
- `savings.dfy` (module `Savings`): the savings calculator.
- `chart.dfy` (module `Chart`): the consumption chart.
- `wrappers.dfy` (module `Wrappers`): `Option`.

Numbers are `real`, so there is no rounding. `Option` stands for JavaScript's
`undefined`. It also stands for the non-finite results (`Infinity`, `NaN`)
that the code produces by design.

## Model

| member | source | states |
|---|---|---|
| Seqs.Sum | app/dashboard/page.tsx:43 | `reduce((acc, x) => acc + w(x), 0)`, the sums of the dashboard totals and of the chart's kWh and cost; SumAppend and SumNonNegative state its meaning |
| Seqs.SumAppend | app/dashboard/page.tsx:43 | the sum of a concatenation is the sum of the parts |
| Seqs.SumNonNegative | app/dashboard/page.tsx:43 | a sum of non-negative weights is non-negative |
| Seqs.RemoveAt | app/dashboard/page.tsx:69-71 | `filter((_, i) => i !== index)` drops exactly position `index` when it exists, and keeps the list unchanged otherwise (for instance at -1) |
| Seqs.IndexOf | app/dashboard/page.tsx:190 | `indexOf` is -1 exactly when the value is absent, otherwise the first position holding it |
| Seqs.MultisetTakeOut | app/dashboard/page.tsx:69-71 | dropping one position removes exactly that element from the multiset |
| Seqs.ReverseAppend | lib/rut.ts:13 | reversing a concatenation reverses and swaps the parts |
| Seqs.Without | lib/rut.ts:3 | `replace(/\./g, '')` and `replace(/-/g, '')`: every occurrence of the character is taken out and nothing else (its ensures, with WithoutAppend and WithoutKeepsAbsent) |
| StableSort.SortDesc | app/dashboard/page.tsx:54 | the stable descending sort of `Array.prototype.sort` with `(a, b) => b.cost - a.cost`; its contract is carried by SortDescIsPermutation, SortDescIsSorted and SortDescIsStable below |
| StableSort.SortDescIsPermutation | app/dashboard/page.tsx:49-55 | the sorted copy is a permutation of the input |
| StableSort.SortDescIsSorted | app/dashboard/page.tsx:54 | the sorted copy is non-increasing in the key |
| StableSort.SortDescIsStable | app/dashboard/page.tsx:54 | the elements with any given key keep their relative order (stability) |
| StableSort.SortDescSum | app/dashboard/page.tsx:49-55 | sorting does not change any sum over the list |
| StableSort.SortDescMap | app/dashboard/page.tsx:50-54 | mapping then sorting by the mapped key equals sorting by the key then mapping |
| Rut.Trim | lib/rut.ts:3 | `trim()` leaves no ECMAScript white space at either end |
| Rut.TrimIsSlice | lib/rut.ts:3 | `trim()` returns a contiguous slice of its input, and only white space lies outside it |
| Rut.TrimStartUpper | lib/rut.ts:3 | trimming the start commutes with `toUpperCase` |
| Rut.TrimEndUpper | lib/rut.ts:3 | trimming the end commutes with `toUpperCase` |
| Rut.Upper | lib/rut.ts:3 | `toUpperCase` on ASCII letters; UpperIdempotent, UpperKeepsAbsent and UpperWithout state its meaning |
| Rut.UpperIdempotent | lib/rut.ts:3 | `toUpperCase` applied twice is applied once |
| Rut.Split | lib/rut.ts:11 | `split('-')` always yields at least one piece |
| Rut.Parts | lib/rut.ts:11 | `const [body, dv] = s.split('-')`: the first piece and the second, `undefined` when there is none; NormalizedParts states its value on a normal form |
| Rut.Missing | lib/rut.ts:12 | the `!body \|\| !dv` test: a part that is `undefined` or empty; FormattedNormalized and ValidateRutMeans state where it holds |
| Rut.SplitFirst | lib/rut.ts:24 | `split` at the first separator yields the prefix, then the split of the rest |
| Rut.Clean | lib/rut.ts:3 | the cleaned RUT has no '.' or '-', is trimmed and is upper case |
| Rut.CleanOfUpper | lib/rut.ts:3 | cleaning ignores the input's case |
| Rut.NormalizeRut | lib/rut.ts:2-8 | `normalizeRut`: clean, then put a hyphen before the last character; its contract is carried by NormalizeRutShape, NormalizeRutIdempotent and NormalizeRutIgnoresCase below |
| Rut.NormalizeRutShape | lib/rut.ts:2-8 | the result has no dots, and removing its hyphen gives the cleaned string. A clean string of 2+ characters gets exactly one '-', just before its last character; a shorter one is returned as is |
| Rut.NormalizeRutIdempotent | lib/rut.ts:2-8 | normalising twice is normalising once |
| Rut.NormalizeRutIgnoresCase | lib/rut.ts:2-8 | upper-casing the input first does not change the normal form |
| Rut.Dotted | lib/rut.ts:13-18 | a dot every three digits counted from the right, as the reverse-and-reduce builds it; its contract is carried by DottedGroups, DottedShort, DottedUndotted and DottedLength below, and DotBody proves the loop equal to it |
| Rut.DottedGroups | lib/rut.ts:13-18 | the dotted body is the dotted body without its last three digits, then '.', then those three digits |
| Rut.DottedShort | lib/rut.ts:16 | a body of at most three digits gets no dot |
| Rut.DottedUndotted | lib/rut.ts:13-18 | removing the dots from the dotted body gives back the body's non-dot characters |
| Rut.DottedLength | lib/rut.ts:16 | the body gains one dot for every full group of three beyond the first character, and keeps its first character |
| Rut.DotBody | lib/rut.ts:13-18 | the reverse-accumulate-reverse loop produces exactly the dotted body |
| Rut.Formatted | lib/rut.ts:10-20 | `formatRut`'s result: the dotted body, '-', the check character, or the input itself when either part is missing; characterised by FormattedNormalized and FormatRoundTrip below, and computed by FormatRut |
| Rut.FormatRut | lib/rut.ts:10-20 | `formatRut` yields the dotted body, '-', then the check digit. It returns its input unchanged when the body or the check digit is missing |
| Rut.FormattedNormalized | lib/rut.ts:10-20 | what `formatRut` makes of a normalised RUT: the dotted body, '-', then the check character |
| Rut.FormatRoundTrip | app/page.tsx:19 | a normalised RUT, formatted for display and normalised again, is unchanged |
| Rut.WeightStep | lib/rut.ts:36 | the multiplier runs 2,3,…,7,2,3,… over the digits from the right |
| Rut.CheckCharIsModulo11 | lib/rut.ts:38-41 | the check character is a digit or 'K'. It brings the weighted sum to a multiple of 11, and it is the only character that does |
| Rut.CheckDigitOf | lib/rut.ts:31-42 | the modulo-11 check character of a digit body; its meaning is stated by CheckCharIsModulo11 and it is what ComputeDV's loop returns |
| Rut.ComputeDV | lib/rut.ts:31-42 | the loop returns the modulo-11 check character of the weighted digit sum |
| Rut.ValidateRut | lib/rut.ts:22-29 | `validateRut`; when it returns true is stated by ValidateRutMeans, with ValidateNormalized, ValidateIgnoresCase and ValidateFormatted below |
| Rut.ValidateRutMeans | lib/rut.ts:22-29 | valid exactly when the cleaned RUT has 2+ characters, an all-digit body, and the check character of that body as its last character |
| Rut.ValidateNormalized | app/page.tsx:28-29 | validating the normalised form gives the same answer as validating the input |
| Rut.ValidateIgnoresCase | lib/rut.ts:22-29 | a lower-case 'k' validates like 'K' |
| Rut.ValidateFormatted | lib/rut.ts:22-29 | a dotted RUT with a digit body is valid exactly when its last character, upper-cased, is the body's check digit |
| Rut.CheckDigitSample | lib/rut.ts:31-42 | 12345678 has check digit 5 |
| Rut.CheckDigitK | lib/rut.ts:40 | 6 has check digit K |
| Rut.DottedSample | lib/rut.ts:13-18 | 12345678 is written 12.345.678 |
| Rut.ValidateRutSample | lib/rut.ts:22-29 | 12.345.678-d is valid exactly for d = 5 |
| Rut.ValidateRutLowerK | lib/rut.ts:22-29 | 6-k is valid |
| Calculations.MonthlyKwhOfOne | app/dashboard/page.tsx:104 | `calculateMonthlyKwh` with the default quantity of one; MoreEnergyIffMorePower and RecoverySample state its use |
| Calculations.MonthlyKwh | lib/calculations.ts:1-4 | non-negative power, hours and quantity give non-negative kWh |
| Calculations.MonthlyKwhOfOneKilowatt | lib/calculations.ts:1-4 | 1000 W for one hour a day is 30 kWh a month |
| Calculations.MonthlyKwhLinearInQuantity | lib/calculations.ts:1-4 | n appliances use n times the energy of one |
| Calculations.MonthlyKwhMonotone | lib/calculations.ts:1-4 | more power or more hours never means less energy |
| Calculations.CostCLP | lib/calculations.ts:6-8 | at a positive price, the cost has the sign of the energy |
| Calculations.CostAdditive | lib/calculations.ts:6-8 | the cost of a sum or difference of energies is the sum or difference of the costs |
| Calculations.EmissionsKg | lib/calculations.ts:10-12 | non-negative energy and factor give non-negative emissions |
| Calculations.EmissionsAdditive | lib/calculations.ts:10-12 | emissions add up over energies |
| Constants.ElectricityCostCLPPerKwh | lib/constants.ts:22-38 | every region's tariff lies between 165 and 195 CLP/kWh |
| Constants.CarbonFactorKgPerKwh | lib/constants.ts:40-56 | every region's factor lies between 0.18 and 0.38 kg/kWh |
| Constants.Code | lib/constants.ts:3-19 | the keys of `REGIONS`; RegionOfCodeRoundTrip and RegionOfCodeIsCode state that RegionOfCode inverts it |
| Constants.RegionName | lib/constants.ts:3-19 | the names of `REGIONS`, one per code |
| Constants.RegionOfCode | lib/constants.ts:3-19 | reads a stored region code back as its region, `None` for any other string; RegionOfCodeRoundTrip and RegionOfCodeIsCode below state that it inverts the region codes |
| Constants.RegionOfCodeRoundTrip | lib/constants.ts:3-19 | the code of every region reads back as that region |
| Constants.RegionOfCodeIsCode | lib/constants.ts:3-19 | a code that reads as a region is that region's code |
| Constants.Lookup | lib/constants.ts:58-132 | looking up a key finds an item carrying that key, or `None` exactly when no item carries it |
| Constants.LookupFinds | lib/constants.ts:58-132 | the first item with a key is the one found |
| Constants.Appliance | lib/constants.ts:58-132 | every catalog appliance has a positive power |
| Constants.ApplianceFoundIff | lib/constants.ts:58-132 | `APPLIANCES[key]` is found exactly for the own keys of the table (inherited `Object.prototype` names are not modelled, see "## Left out") |
| Constants.FirstApplianceFound | lib/constants.ts:60 | the refrigerator is found with its name and 150 W |
| Constants.SecondApplianceFound | lib/constants.ts:61 | the small refrigerator is found with its name and 100 W |
| Constants.LightingFound | lib/constants.ts:107-108 | the first two lighting items are found under their keys, past the 35 keys listed before them |
| Constants.ComparisonDefaultsPresent | app/dashboard/page.tsx:19-20 | the comparator's initial keys are found as the 60 W incandescent bulb and the 9 W LED bulb, with their own names |
| Dashboard.TotalOfNoEntries | app/dashboard/page.tsx:42-47 | an empty list totals zero kWh, zero cost and zero CO2 |
| Dashboard.EntryKwh | app/dashboard/page.tsx:43 | one entry's monthly kWh at its power, hours and quantity; TotalAppend and RankedSpec state its use |
| Dashboard.Total | app/dashboard/page.tsx:42-47 | the totals of kWh, cost and CO2 at the region's tariff and factor; TotalOfNoEntries, TotalAppend and TotalNonNegative state their meaning |
| Dashboard.TotalAppend | app/dashboard/page.tsx:42-47 | adding an entry adds its kWh, cost and CO2 to the totals |
| Dashboard.TotalNonNegative | app/dashboard/page.tsx:42-47 | entries with no negative field give non-negative totals |
| Dashboard.Annotate | app/dashboard/page.tsx:50-53 | one ranking row: the entry with its own monthly kWh and cost; RankedSpec states that every row carries exactly these |
| Dashboard.Ranked | app/dashboard/page.tsx:49-55 | the ranking has one row per entry |
| Dashboard.RankedIsSortedEntries | app/dashboard/page.tsx:49-55 | the ranking is the entries sorted by cost (stably), each annotated with its kWh and cost |
| Dashboard.RankedSpec | app/dashboard/page.tsx:49-55 | each entry appears once, with its own kWh and cost. Costs are non-increasing, and entries of equal cost keep their list order |
| Dashboard.TotalCostIsRankedSum | app/dashboard/page.tsx:42-55 | the total cost equals the sum of the costs shown in the ranking |
| Dashboard.SeverityColor | app/dashboard/page.tsx:73-77 | success below 10 kWh, warning from 10 up to 30, danger from 30 on; each case holds exactly when its range does |
| Dashboard.SeverityMonotone | app/dashboard/page.tsx:73-77 | more energy never gets a milder colour |
| Dashboard.CompareMonthlyKwh | app/dashboard/page.tsx:104 | one catalog appliance at its rated power for the given hours; MoreEnergyIffMorePower states how two of them compare |
| Dashboard.MonthlySavingCLP | app/dashboard/page.tsx:107-109 | the price of A's monthly kWh minus B's; RecoveryIffMorePower states when it is positive and RecoverySample gives the page's initial value |
| Dashboard.RecoveryMonths | app/dashboard/page.tsx:110-111 | no payback exactly when the saving is not positive. Otherwise the months times the saving equal the price difference, and a positive difference takes positive months |
| Dashboard.MoreEnergyIffMorePower | app/dashboard/page.tsx:104 | with some daily use, appliance A uses more energy than B exactly when it draws more power |
| Dashboard.InvestmentRecoveryMonths | app/dashboard/page.tsx:106-112 | `investmentRecoveryMonths` as RecoveryMonths of MonthlySavingCLP; RecoveryMonths states its meaning and RecoveryIffMorePower when it exists |
| Dashboard.RecoveryIffMorePower | app/dashboard/page.tsx:106-112 | with some daily use, a payback exists exactly when A draws more power than B, so an appliance compared with itself never pays back |
| Dashboard.RecoverySample | app/dashboard/page.tsx:258 | on the page's initial pair (60 W bulb replaced by 9 W LED, 4 h a day, 195 CLP/kWh in the Metropolitan region) the saving is 1193.4 CLP a month, and the example's 20000 CLP are recovered in 20000/1193.4 months |
| Dashboard.EntryRefs | app/dashboard/page.tsx:190 | the list's object identities, one per slot |
| Dashboard.DeleteRowAsWritten | app/dashboard/page.tsx:190 | the delete button as written, `removeEntry(entries.indexOf(e))` with `e` a fresh row object; DeleteRowAsWrittenRemovesNothing states its effect |
| Dashboard.DeleteRowAsWrittenRemovesNothing | app/dashboard/page.tsx:190 | as written, the delete button looks up a fresh row object, gets -1 and removes nothing |
| Dashboard.RankedEntryListed | app/dashboard/page.tsx:178 | the entry behind every ranked row is in the list |
| Dashboard.DeleteRow | app/dashboard/page.tsx:190 | the corrected delete button, which looks up the row's own entry; DeleteRowRemovesThatEntry states its effect |
| Dashboard.DeleteRowRemovesThatEntry | app/dashboard/page.tsx:190 | the corrected button removes exactly one entry, the first equal to the row's, and keeps the rest in order |
| Dashboard.DashboardState.constructor | app/dashboard/page.tsx:14-20 | initial state: empty list, refrigerator at 150 W, 8 h, 1 unit, comparing the incandescent and LED bulbs; region from the profile, else RM |
| Dashboard.DashboardState.SelectAppliance | app/dashboard/page.tsx:127-131 | picking an appliance sets the key and loads its rated power, keeping the state valid |
| Dashboard.DashboardState.SetPotencia | app/dashboard/page.tsx:139 | the power field takes the typed value, keeping the state valid |
| Dashboard.DashboardState.SetHoras | app/dashboard/page.tsx:143 | the hours field takes the typed value, keeping the state valid |
| Dashboard.DashboardState.SetCount | app/dashboard/page.tsx:147 | the quantity field takes the typed integer, keeping the state valid |
| Dashboard.DashboardState.SetCompareA | app/dashboard/page.tsx:224 | the first compared appliance changes to a catalog key |
| Dashboard.DashboardState.SetCompareB | app/dashboard/page.tsx:232 | the second compared appliance changes to a catalog key |
| Dashboard.DashboardState.NewEntry | app/dashboard/page.tsx:57-65 | the entry the form describes: the selected key with its catalog name, and the typed power, hours and quantity; AddEntry appends exactly it |
| Dashboard.DashboardState.AddEntry | app/dashboard/page.tsx:57-67 | appends the form's entry (key, catalog name, power, hours, quantity); nothing else changes |
| Dashboard.DashboardState.RemoveEntry | app/dashboard/page.tsx:69-71 | the list loses position `index` if it exists, keeping the state valid |
| Dashboard.DashboardState.DeleteRowButton | app/dashboard/page.tsx:190 | the button as written leaves the list unchanged, keeping the state valid |
| Dashboard.DashboardState.DeleteRowFixed | app/dashboard/page.tsx:190 | the corrected button removes the entry behind the row, keeping the state valid |
| Savings.InitialPercentageOnSlider | components/SavingsCalculator.tsx:12 | the initial 20 % is a slider position |
| Savings.PotentialSavingsOf | components/SavingsCalculator.tsx:14-18 | `potentialSavings`; SavingsAreShares, SavingsBounded and SavingsMonotone state its meaning |
| Savings.AnnualKwh | components/SavingsCalculator.tsx:75 | the annual kWh line; SavingsAreShares states it is 12 months of the saved kWh |
| Savings.FiveYearSavings | components/SavingsCalculator.tsx:82 | the five-year figure; SavingsAreShares states it is 60 months of the monthly saving |
| Savings.SavingsAreShares | components/SavingsCalculator.tsx:14-18 | the saved kWh are the chosen percentage of the consumption, and monthly is their price. Annual is 12 months, five years is 60 months, annual kWh is 12 months of kWh |
| Savings.SavingsBounded | components/SavingsCalculator.tsx:40-43 | on the slider (5..50 step 5), with non-negative inputs, all figures are non-negative and at most half the consumption and its price |
| Savings.SavingsMonotone | components/SavingsCalculator.tsx:14-18 | a higher target never saves less |
| Savings.SavingsTipsAscending | components/SavingsCalculator.tsx:20-26 | the five tips are listed in strictly ascending percentage |
| Savings.FindReaching | components/SavingsCalculator.tsx:28 | `find` returns the first tip whose percentage reaches the target, or nothing when none does |
| Savings.FirstReachingIsSmallest | components/SavingsCalculator.tsx:28 | in an ascending list, the first tip found has the smallest percentage of those that qualify |
| Savings.CurrentTip | components/SavingsCalculator.tsx:28 | `currentTip`; CurrentTipReaches, CurrentTipBeyondList and InitialTip state which tip it is |
| Savings.CurrentTipReaches | components/SavingsCalculator.tsx:28 | up to 30 %, the recommended tip is listed, reaches the target, and is the smallest that does |
| Savings.CurrentTipBeyondList | components/SavingsCalculator.tsx:28 | above 30 %, the fallback is the last tip (solar panels) |
| Savings.InitialTip | components/SavingsCalculator.tsx:28 | at 20 % the recommendation is the climate-control tip, with no investment |
| Savings.Ceil | components/SavingsCalculator.tsx:101 | `Math.ceil(x)` is the least integer not below x |
| Savings.PaybackMonths | components/SavingsCalculator.tsx:97-101 | the payback line; PaybackIsLeastCoveringMonths states when it is shown and that it is the least covering number of months |
| Savings.PaybackIsLeastCoveringMonths | components/SavingsCalculator.tsx:97-101 | the payback is shown exactly when investment and monthly saving are both positive. It is then at least 1 month, the least whole number of months whose savings cover the investment |
| Savings.Highlighted | components/SavingsCalculator.tsx:113 | a listed tip is highlighted when the target reaches it; HighlightedPrefix and CurrentTipHighlighted state which tips are |
| Savings.HighlightedPrefix | components/SavingsCalculator.tsx:113 | in an ascending list, every tip before a highlighted tip is highlighted |
| Savings.CurrentTipHighlighted | components/SavingsCalculator.tsx:121 | the recommended tip is highlighted exactly when the target equals its percentage, or is above 30 % |
| Chart.TotalKwh | components/ConsumptionChart.tsx:20 | the sum of the consumers' kWh; PartAtMostTotal and SharesSumToHundred state its meaning |
| Chart.TotalCost | components/ConsumptionChart.tsx:85 | the footer's cost sum; Render puts it in the view |
| Chart.MaxKwh | components/ConsumptionChart.tsx:19 | `Math.max` over a non-empty list is at least every kWh and equals one of them |
| Chart.PartAtMostTotal | components/ConsumptionChart.tsx:20 | one non-negative consumer never exceeds the total |
| Chart.TopData | components/ConsumptionChart.tsx:23 | at most five bars: min(5, n) |
| Chart.TopDataAreLargest | components/ConsumptionChart.tsx:23 | the bars are in non-increasing kWh. Bars and left-out consumers together make up the list, and no left-out consumer uses more than a bar |
| Chart.BarIsConsumer | components/ConsumptionChart.tsx:23 | every bar is one of the input consumers |
| Chart.FirstBarIsMax | components/ConsumptionChart.tsx:19-23 | the first bar is the largest consumer |
| Chart.Percentage | components/ConsumptionChart.tsx:31 | a consumer's share of the total, in %; PercentageBounded, SharesSumToHundred and TierOf state its meaning |
| Chart.PercentageBounded | components/ConsumptionChart.tsx:31 | with non-negative consumers and a positive total, each share lies in [0, 100] % |
| Chart.SharesSum | components/ConsumptionChart.tsx:31 | the shares of a list add up to its kWh as a share of the total |
| Chart.SharesSumToHundred | components/ConsumptionChart.tsx:31 | with a non-zero total, all shares (shown or not) add up to 100 % |
| Chart.BarWidth | components/ConsumptionChart.tsx:32 | a bar's width relative to the largest consumer, in %; BarWidthBounded states its range |
| Chart.BarWidthBounded | components/ConsumptionChart.tsx:32 | with positive consumers, every bar width lies in (0, 100] % and the first is exactly 100 % |
| Chart.TierOf | components/ConsumptionChart.tsx:52-53 | red above 30 %, amber above 15 % up to 30 %, green otherwise (also for `NaN`); each case holds exactly when its range does |
| Chart.TierMonotone | components/ConsumptionChart.tsx:52-53 | a larger share never gets a milder colour |
| Chart.TierBoundaries | components/ConsumptionChart.tsx:52-53 | exactly 30 % is amber and exactly 15 % is green |
| Chart.MoreCount | components/ConsumptionChart.tsx:73-75 | the "N more" footer's count; MoreCountCountsHidden states when it appears and what it counts |
| Chart.MoreCountCountsHidden | components/ConsumptionChart.tsx:73-75 | the "N more" footer appears exactly when some consumer is left out, and N plus the bars is the whole list |
| Chart.Render | components/ConsumptionChart.tsx:17 | the chart renders nothing exactly when the list is empty |
| Chart.BarAt | components/ConsumptionChart.tsx:30-55 | one rendered bar: its rank, the item, its share, its width and its colour tier; RenderShowsTopData states which bars are drawn |
| Chart.RenderShowsTopData | components/ConsumptionChart.tsx:30-32 | the bars are the top consumers in rank order (rank i+1), each with its own share and width, and the footer counts the rest |

## Left out

- Storage and remote services are not modelled. These are `localStorage`, the Firebase sync, the sign-in redirect and sign-out, `prompt`/`alert`, and saving a scenario. The scenario record is only modelled as a datatype.
- The sign-in page (`app/page.tsx`) is modelled only for its order: normalise, then validate. The stored RUT is displayed through `formatRut` (Rut.ValidateNormalized, Rut.FormatRoundTrip).
- `lib/format.ts` (number and currency formatting) and all JSX markup and styling are not modelled. This includes the gradient colour codes: the chart's colour is modelled only as its tier.
- IEEE arithmetic is left out: all numbers are exact reals.
  - `NaN` from `parseFloat`/`parseInt` of an empty form field is not modelled: the form setters take a number.
  - `Infinity` for "no payback" is `None`.
  - A zero chart total or maximum gives `None` in place of `NaN`/`Infinity`. The chart colours `None` green. In the source, a zero total with a positive item gives `+Infinity`, which is above 30 and paints that bar red. This can only happen when some entries are negative.
- The profile's region arrives through `localStorage`. The class takes it as a constructor parameter and keeps it fixed.
- Constants.Appliance: looks up only the own keys of the `APPLIANCES` object literal. JavaScript also finds names inherited from `Object.prototype` ("toString", "constructor", …), with no name or watts; the model returns `None` for them. The page's selects offer only own keys.
- Region codes are the enum `Constants.Region`, as TypeScript's `keyof typeof REGIONS` makes them. `Constants.RegionOfCode` reads a stored code back.
- Dashboard.CompareMonthlyKwh, Dashboard.MonthlySavingCLP and Dashboard.InvestmentRecoveryMonths require the keys to be in the catalog. The page only passes keys offered by its selects, and `DashboardState.Valid` keeps them so. In the source, a key that is neither an own nor an inherited property of `APPLIANCES` throws a TypeError. An inherited `Object.prototype` name such as "toString" gives `undefined` watts and so a NaN result.
- Rut.ComputeDV requires an all-digit body: the source only calls it after its `/^\d+$/` test.
- The ranking's `{ ...e, kwh, cost }` rows are modelled as `RankedRow(entry, kwh, cost)`, a wrapper around the entry instead of a flattened record.
- Object identity is modelled only where it matters: the `indexOf` of the delete button, through `Dashboard.ObjectRef`.
- `toUpperCase` is modelled for ASCII letters only. The RUT alphabet is digits and 'K'.
- Rut.NormalizeRut, Rut.Formatted and Rut.FormatRut: strings are sequences of Unicode code points, while JavaScript's `length`, `slice(0, -1)`, `slice(-1)` and `split('')` count UTF-16 code units. On input with a character outside the Basic Multilingual Plane the source can split a surrogate pair (the hyphen of `normalizeRut`, a dot of `formatRut` between the two halves) and the model does not. Validation is unaffected, since such a body is never all digits.

## Findings

| source | as written | input that shows it | evidently intended | confidence | as-written member | corrected member |
|---|---|---|---|---|---|---|
| app/dashboard/page.tsx:190 | the "Eliminar" button calls `removeEntry(entries.indexOf(e))`, where `e` is a ranked row. Each row is a new object built by `{ ...e, kwh, cost }` (lines 49-55), so `indexOf` always returns -1, and the filter at lines 69-71 then keeps every entry | any non-empty list: press "Eliminar" on any row | remove the list entry that the row shows | not executed | Dashboard.DeleteRowAsWrittenRemovesNothing | Dashboard.DeleteRowRemovesThatEntry |
