/**
 * The stand-alone asset calculator form. It reads the same five fields, repeats
 * the exposure formula inline, classifies the total and shows the tier's note.
 */
module Calculator {
  import opened Numeric
  import opened Liability
  import opened Tiers

  datatype CalculatorResult = CalculatorResult(breakdown: Breakdown, totalExposure: real, tier: Tier)

  /**
   * `handleAssetCalculation` without its DOM output: each field is read with
   * `parseFloat(x) || 0` and the amounts go through the inline formula.
   */
  function AssetCalculation(homeText: string, vehicleText: string, incomeText: string,
                            lifeInsuranceText: string, investmentsText: string): (r: CalculatorResult)
    ensures r.totalExposure == CalculateLiabilityExposure(homeText, vehicleText, incomeText,
                                                         lifeInsuranceText, investmentsText)
    ensures r.tier == GetInsuranceTier(r.totalExposure)
  {
    InlineFormula(ParseAmounts(homeText, vehicleText, incomeText, lifeInsuranceText, investmentsText))
  }

  /**
   * The formula as `handleAssetCalculation` spells it out again: it agrees with
   * `calculateLiabilityExposure`, its total is the sum of the components it
   * shows, and the tier it shows is the classifier's tier of that total.
   */
  function InlineFormula(a: Amounts): (r: CalculatorResult)
    ensures r.totalExposure == r.breakdown.Total() == Exposure(a)
    ensures r.breakdown == Components(a)
    ensures r.breakdown.lifeInsuranceGap >= 0.0
    ensures r.tier == GetInsuranceTier(r.totalExposure)
  {
    var incomeMultiplier := a.income * 10.0;
    var lifeInsuranceGap := if 0.0 >= incomeMultiplier - a.lifeInsurance then 0.0 else incomeMultiplier - a.lifeInsurance;
    var investmentProtection := a.investments * 0.5;
    var total := a.homeValue + a.vehicleValue + incomeMultiplier + lifeInsuranceGap + investmentProtection;
    CalculatorResult(Breakdown(a.homeValue, a.vehicleValue, incomeMultiplier, lifeInsuranceGap, investmentProtection),
                     total, GetInsuranceTier(total))
  }

  /** The tier note the calculator shows is never the empty one the switch leaves for unknown labels. */
  lemma CalculatorNoteAlwaysSet(homeText: string, vehicleText: string, incomeText: string,
                                lifeInsuranceText: string, investmentsText: string)
    ensures var r := AssetCalculation(homeText, vehicleText, incomeText, lifeInsuranceText, investmentsText);
            CalculatorRecommendation(r.tier.Label()).cssClass != ""
  {
    var r := AssetCalculation(homeText, vehicleText, incomeText, lifeInsuranceText, investmentsText);
    ClassifiedLabelsRecognized(r.totalExposure);
  }

  /** The two worked examples land in tier 4 and tier 2. */
  lemma ExampleTiers()
    ensures GetInsuranceTier(Exposure(Amounts(300000.0, 20000.0, 80000.0, 200000.0, 100000.0))) == Tier4
    ensures GetInsuranceTier(Exposure(Amounts(50000.0, 10000.0, 5000.0, 50000.0, 0.0))) == Tier2
  {
    ExampleHighExposure();
    ExampleModestExposure();
  }
}
