/**
 * The liability-exposure formula of the calculator: the full value of home and
 * vehicle, ten times the annual income, the part of ten times the income not
 * already covered by life insurance, and half of the investments.
 *
 * The income term enters the total twice: once as the income multiplier and
 * once more through the life-insurance gap. Negative inputs are not clamped.
 */
module Liability {
  import opened Numeric

  /** The five financial inputs once parsed. */
  datatype Amounts = Amounts(homeValue: real, vehicleValue: real, income: real,
                             lifeInsurance: real, investments: real)

  /** The five components the calculator displays; their sum is the exposure. */
  datatype Breakdown = Breakdown(homeValue: real, vehicleValue: real, incomeMultiplier: real,
                                 lifeInsuranceGap: real, investmentProtection: real)
  {
    function Total(): real {
      homeValue + vehicleValue + incomeMultiplier + lifeInsuranceGap + investmentProtection
    }
  }

  /** `Math.max(0, income * 10 - lifeInsurance)`: the least non-negative amount at or above the shortfall. */
  function LifeInsuranceGap(income: real, lifeInsurance: real): (gap: real)
    ensures gap >= 0.0 && gap >= 10.0 * income - lifeInsurance
    ensures gap == 0.0 || gap == 10.0 * income - lifeInsurance
  {
    if 10.0 * income - lifeInsurance > 0.0 then 10.0 * income - lifeInsurance else 0.0
  }

  /** Each input read as `parseFloat(x) || 0`. */
  function ParseAmounts(homeValue: string, vehicleValue: string, income: string,
                        lifeInsurance: string, investments: string): (a: Amounts)
    ensures ParseFloat(homeValue).None? ==> a.homeValue == 0.0
    ensures ParseFloat(vehicleValue).None? ==> a.vehicleValue == 0.0
    ensures ParseFloat(income).None? ==> a.income == 0.0
    ensures ParseFloat(lifeInsurance).None? ==> a.lifeInsurance == 0.0
    ensures ParseFloat(investments).None? ==> a.investments == 0.0
    ensures ParseFloat(homeValue).Some? ==> a.homeValue == ParseFloat(homeValue).value
    ensures ParseFloat(vehicleValue).Some? ==> a.vehicleValue == ParseFloat(vehicleValue).value
    ensures ParseFloat(income).Some? ==> a.income == ParseFloat(income).value
    ensures ParseFloat(lifeInsurance).Some? ==> a.lifeInsurance == ParseFloat(lifeInsurance).value
    ensures ParseFloat(investments).Some? ==> a.investments == ParseFloat(investments).value
  {
    Amounts(FloatOrZero(homeValue), FloatOrZero(vehicleValue), FloatOrZero(income),
            FloatOrZero(lifeInsurance), FloatOrZero(investments))
  }

  function Components(a: Amounts): (b: Breakdown)
    ensures b.homeValue == a.homeValue && b.vehicleValue == a.vehicleValue
    ensures b.incomeMultiplier == 10.0 * a.income
    ensures b.lifeInsuranceGap >= 0.0
    ensures b.lifeInsuranceGap == LifeInsuranceGap(a.income, a.lifeInsurance)
    ensures b.investmentProtection * 2.0 == a.investments
  {
    Breakdown(a.homeValue, a.vehicleValue, a.income * 10.0,
              LifeInsuranceGap(a.income, a.lifeInsurance), a.investments * 0.5)
  }

  /**
   * The exposure of parsed amounts. Its closed form has two cases: while life
   * insurance covers ten times the income the gap vanishes, otherwise the income
   * counts twenty times and the life insurance is subtracted once.
   */
  function Exposure(a: Amounts): (e: real)
    ensures 10.0 * a.income <= a.lifeInsurance ==>
              e == a.homeValue + a.vehicleValue + 10.0 * a.income + a.investments / 2.0
    ensures 10.0 * a.income > a.lifeInsurance ==>
              e == a.homeValue + a.vehicleValue + 20.0 * a.income - a.lifeInsurance + a.investments / 2.0
    ensures e >= a.homeValue + a.vehicleValue + 10.0 * a.income + a.investments / 2.0
  {
    Components(a).Total()
  }

  /** `calculateLiabilityExposure(clientData)` over the five text fields of a client. */
  function CalculateLiabilityExposure(homeValue: string, vehicleValue: string, income: string,
                                      lifeInsurance: string, investments: string): (e: real)
    ensures var a := ParseAmounts(homeValue, vehicleValue, income, lifeInsurance, investments);
            e == a.homeValue + a.vehicleValue + 10.0 * a.income
                 + LifeInsuranceGap(a.income, a.lifeInsurance) + a.investments / 2.0
  {
    Exposure(ParseAmounts(homeValue, vehicleValue, income, lifeInsurance, investments))
  }

  /** Non-negative inputs give a non-negative exposure. */
  lemma NonNegativeExposure(a: Amounts)
    requires a.homeValue >= 0.0 && a.vehicleValue >= 0.0 && a.income >= 0.0 && a.investments >= 0.0
    ensures Exposure(a) >= 0.0
  {
  }

  /**
   * The exposure never falls when an asset or the income grows, and never grows
   * when the life insurance grows.
   */
  lemma ExposureMonotone(a: Amounts, b: Amounts)
    requires a.homeValue <= b.homeValue && a.vehicleValue <= b.vehicleValue
    requires a.income <= b.income && a.investments <= b.investments
    requires a.lifeInsurance >= b.lifeInsurance
    ensures Exposure(a) <= Exposure(b)
  {
  }

  /** Any field that does not parse contributes exactly what the text "0" contributes there. */
  lemma UnparsableIsZero(h: string, v: string, i: string, l: string, n: string)
    ensures ParseFloat(h).None? ==> CalculateLiabilityExposure(h, v, i, l, n) == CalculateLiabilityExposure("0", v, i, l, n)
    ensures ParseFloat(v).None? ==> CalculateLiabilityExposure(h, v, i, l, n) == CalculateLiabilityExposure(h, "0", i, l, n)
    ensures ParseFloat(i).None? ==> CalculateLiabilityExposure(h, v, i, l, n) == CalculateLiabilityExposure(h, v, "0", l, n)
    ensures ParseFloat(l).None? ==> CalculateLiabilityExposure(h, v, i, l, n) == CalculateLiabilityExposure(h, v, i, "0", n)
    ensures ParseFloat(n).None? ==> CalculateLiabilityExposure(h, v, i, l, n) == CalculateLiabilityExposure(h, v, i, l, "0")
  {
    ZeroText();
  }

  /** Fields holding whole numbers written in decimal contribute exactly those numbers. */
  lemma WholeNumberFields(h: nat, v: nat, i: nat, l: nat, n: nat)
    ensures CalculateLiabilityExposure(NatText(h), NatText(v), NatText(i), NatText(l), NatText(n))
            == Exposure(Amounts(h as real, v as real, i as real, l as real, n as real))
  {
    ParseNatText(h);
    ParseNatText(v);
    ParseNatText(i);
    ParseNatText(l);
    ParseNatText(n);
  }

  /** 300000, 20000, 80000, 200000, 100000 gives 1,770,000 (gap 600,000, investment part 50,000). */
  lemma ExampleHighExposure()
    ensures var a := Amounts(300000.0, 20000.0, 80000.0, 200000.0, 100000.0);
            Components(a) == Breakdown(300000.0, 20000.0, 800000.0, 600000.0, 50000.0) &&
            Exposure(a) == 1770000.0
  {
  }

  /** 50000, 10000, 5000, 50000, 0 gives 110,000: the gap is 0 but the income multiplier is 50,000. */
  lemma ExampleModestExposure()
    ensures var a := Amounts(50000.0, 10000.0, 5000.0, 50000.0, 0.0);
            Components(a) == Breakdown(50000.0, 10000.0, 50000.0, 0.0, 0.0) &&
            Exposure(a) == 110000.0
  {
  }
}
