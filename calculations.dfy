/** Monthly energy, cost and emissions of an appliance. A month is 30 days;
    power is given in watts and converted to kilowatts. */
module Calculations {

  /** `calculateMonthlyKwh(watts, hoursPerDay, quantity)`. */
  function MonthlyKwh(watts: real, hoursPerDay: real, quantity: real): (kwh: real)
    ensures watts >= 0.0 && hoursPerDay >= 0.0 && quantity >= 0.0 ==> kwh >= 0.0
  {
    var kw := watts / 1000.0;
    kw * hoursPerDay * 30.0 * quantity
  }

  /** The call without a quantity: the default is one appliance. */
  function MonthlyKwhOfOne(watts: real, hoursPerDay: real): real
  {
    MonthlyKwh(watts, hoursPerDay, 1.0)
  }

  /** `calculateCostCLP(kwh, price)`: pesos for `kwh` at `price` per kWh. */
  function CostCLP(kwh: real, priceCLPPerKwh: real): (cost: real)
    ensures priceCLPPerKwh > 0.0 ==> (cost > 0.0 <==> kwh > 0.0) && (cost < 0.0 <==> kwh < 0.0)
  {
    kwh * priceCLPPerKwh
  }

  /** `calculateEmissionsKg(kwh, factor)`: kilograms of CO2 for `kwh`. */
  function EmissionsKg(kwh: real, carbonFactorKgPerKwh: real): (kg: real)
    ensures kwh >= 0.0 && carbonFactorKgPerKwh >= 0.0 ==> kg >= 0.0
  {
    kwh * carbonFactorKgPerKwh
  }

  /** 1000 W for one hour a day is 1 kWh a day, 30 kWh a month. */
  lemma MonthlyKwhOfOneKilowatt()
    ensures MonthlyKwhOfOne(1000.0, 1.0) == 30.0
  {
  }

  /** `n` identical appliances use `n` times the energy of one. */
  lemma MonthlyKwhLinearInQuantity(watts: real, hoursPerDay: real, quantity: real)
    ensures MonthlyKwh(watts, hoursPerDay, quantity) == quantity * MonthlyKwhOfOne(watts, hoursPerDay)
  {
  }

  /** More power, or more hours, never means less energy. */
  lemma MonthlyKwhMonotone(w1: real, w2: real, h1: real, h2: real, quantity: real)
    requires 0.0 <= w1 <= w2 && 0.0 <= h1 <= h2 && quantity >= 0.0
    ensures MonthlyKwh(w1, h1, quantity) <= MonthlyKwh(w2, h2, quantity)
  {
    var c := 30.0 * quantity / 1000.0;
    assert MonthlyKwh(w1, h1, quantity) == w1 * h1 * c;
    assert MonthlyKwh(w2, h2, quantity) == w2 * h2 * c;
    assert w1 * h1 <= w2 * h1 <= w2 * h2;
  }

  /** Cost is additive in energy, so the cost of a difference is the
      difference of the costs. */
  lemma CostAdditive(k1: real, k2: real, price: real)
    ensures CostCLP(k1 + k2, price) == CostCLP(k1, price) + CostCLP(k2, price)
    ensures CostCLP(k1 - k2, price) == CostCLP(k1, price) - CostCLP(k2, price)
  {
  }

  /** Emissions are additive in energy. */
  lemma EmissionsAdditive(k1: real, k2: real, factor: real)
    ensures EmissionsKg(k1 + k2, factor) == EmissionsKg(k1, factor) + EmissionsKg(k2, factor)
  {
  }
}
