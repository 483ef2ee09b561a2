/** The record shapes shared by the dashboard and the saved scenarios.
    JavaScript numbers are modelled as reals; the quantity, which the form
    reads with `parseInt`, as an integer. */
module Types {
  import opened Wrappers

  /** A catalog entry: display name and rated power in watts. */
  datatype ApplianceDefinition = ApplianceDefinition(name: string, watts: real)

  /** One line of the user's list: which catalog item, its power, daily use
      and how many of them. */
  datatype ApplianceEntry = ApplianceEntry(
    key: string,
    name: string,
    watts: real,
    hoursPerDay: real,
    quantity: int)

  /** Monthly figures of a list of entries. */
  datatype Totals = Totals(kwh: real, cost: real, co2: real)

  /** A saved scenario; `id` is absent until the store assigns one. */
  datatype ScenarioDoc = ScenarioDoc(
    id: Option<string>,
    name: string,
    region: string,
    entries: seq<ApplianceEntry>,
    totals: Totals,
    createdAt: string)
}
