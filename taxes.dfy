// The three tax estimates of the calculator: Estonian CIT (a tax on the
// profit paid out), the flat-rate personal tax with its health contribution,
// and the two-tier tax of a limited liability company. All arithmetic is
// exact over the reals, with the decimal constants of script.js.
module Taxes {

  /** Gross revenue up to and including this amount qualifies for the reduced bracket. */
  const EstonianCitThreshold: real := 8569000.0
  /** Taxable income above this amount pays the 27.9% rate. */
  const IncomeThreshold: real := 1000000.0
  /** Taxable income above this amount pays 23.9% instead of the minimum contribution plus 19%. */
  const HealthInsuranceThreshold: real := 77096.4
  /** The health contribution of the flat-rate tax is 4.9% of income ... */
  const HealthRate: real := 0.049
  /** ... but at most this amount. */
  const MaxHealthDeduction: real := 12900.0
  /** The fixed component of the lowest branch of the flat-rate tax. */
  const MinimumFlatTax: real := 3779.52

  /** The two size brackets; script.js tells them apart by gross revenue. */
  datatype Bracket = Reduced | Standard

  function BracketOf(grossRevenue: real): Bracket {
    if grossRevenue <= EstonianCitThreshold then Reduced else Standard
  }

  /** The share of the distributed profit that Estonian CIT takes in a bracket. */
  function DistributionRate(b: Bracket): real {
    match b
    case Reduced => 0.20
    case Standard => 0.25
  }

  /** The LLC tax rates in a bracket: on the profit paid out, and on the income kept. */
  function PayoutRate(b: Bracket): real {
    match b
    case Reduced => 0.2629
    case Standard => 0.3439
  }

  function RetainedRate(b: Bracket): real {
    match b
    case Reduced => 0.09
    case Standard => 0.19
  }

  /** calculateEstonianCIT: the bracket's rate of the profit to distribute. */
  function EstonianCIT(grossRevenue: real, profitToDistribute: real): (r: real)
    ensures r == profitToDistribute * DistributionRate(BracketOf(grossRevenue))
    ensures 0.0 <= profitToDistribute ==> 0.0 <= r <= profitToDistribute * 0.25
  {
    if grossRevenue <= EstonianCitThreshold then profitToDistribute * 0.20
    else profitToDistribute * 0.25
  }

  /** calculateLLCTax: the same bracket rule, with a rate on the payout and one on the rest. */
  function LLCTax(grossRevenue: real, income: real, profitToDistribute: real): (r: real)
    ensures var b := BracketOf(grossRevenue);
      r == profitToDistribute * PayoutRate(b) + (income - profitToDistribute) * RetainedRate(b)
    ensures 0.0 <= profitToDistribute <= income ==> r >= 0.0
  {
    if grossRevenue <= EstonianCitThreshold then
      (profitToDistribute * 0.2629) + ((income - profitToDistribute) * 0.09)
    else
      (profitToDistribute * 0.3439) + ((income - profitToDistribute) * 0.19)
  }

  /** The health contribution of the flat-rate tax: 4.9% of income, capped. */
  function HealthContribution(income: real): (r: real)
    ensures r <= income * HealthRate && r <= MaxHealthDeduction
    ensures r == income * HealthRate || r == MaxHealthDeduction
  {
    var contribution := income * 0.049;
    if contribution < 12900.0 then contribution else 12900.0
  }

  /** Income less the health contribution. */
  function TaxableIncome(income: real): (r: real)
    ensures r >= income - MaxHealthDeduction && r >= income * 0.951
    ensures r <= 0.0 <==> income <= 0.0
    ensures 0.0 <= income ==> r <= income
    ensures income * HealthRate <= MaxHealthDeduction ==> r == income * 0.951
    ensures income * HealthRate >= MaxHealthDeduction ==> r == income - MaxHealthDeduction
  {
    income - HealthContribution(income)
  }

  /** The three-branch flat-rate formula, as a function of taxable income. */
  function TaxOnTaxable(taxable: real): (r: real)
    ensures r >= MinimumFlatTax
    ensures taxable <= 0.0 ==> r == MinimumFlatTax
  {
    if taxable > IncomeThreshold then (taxable - IncomeThreshold) * 0.279 + (IncomeThreshold * 0.239)
    else if taxable > HealthInsuranceThreshold then taxable * 0.239
    else if taxable > 0.0 then 3779.52 + (taxable * 0.19)
    else 3779.52
  }

  /** calculateLinearTax: never below the fixed minimum, which is all that is due without taxable income. */
  function LinearTax(income: real): (r: real)
    ensures r >= MinimumFlatTax
    ensures income <= 0.0 ==> r == MinimumFlatTax
  {
    TaxOnTaxable(TaxableIncome(income))
  }

  // ---------------------------------------------------------------------
  // Brackets

  /** Revenue of exactly the threshold still gets the reduced rates; one grosz more does not. */
  lemma BracketBoundary()
    ensures BracketOf(8569000.0) == Reduced && EstonianCIT(8569000.0, 100.0) == 20.0
    ensures BracketOf(8569000.01) == Standard && EstonianCIT(8569000.01, 100.0) == 25.0
  {
  }

  /** For consistent inputs, Estonian CIT never exceeds the LLC tax. */
  lemma EstonianCITAtMostLLCTax(grossRevenue: real, income: real, profitToDistribute: real)
    requires 0.0 <= profitToDistribute <= income
    ensures EstonianCIT(grossRevenue, profitToDistribute) <= LLCTax(grossRevenue, income, profitToDistribute)
  {
  }

  /** More revenue never lowers Estonian CIT on the same payout. */
  lemma EstonianCITMonotoneInRevenue(g1: real, g2: real, profitToDistribute: real)
    requires g1 <= g2 && 0.0 <= profitToDistribute
    ensures EstonianCIT(g1, profitToDistribute) <= EstonianCIT(g2, profitToDistribute)
  {
  }

  // ---------------------------------------------------------------------
  // Shape of the flat-rate tax

  /** Continuous at taxable income 1,000,000: both neighbouring formulas give 239,000 there. */
  lemma ContinuousAtIncomeThreshold(taxable: real)
    requires taxable > HealthInsuranceThreshold
    ensures TaxOnTaxable(IncomeThreshold) == 239000.0
    ensures var d := TaxOnTaxable(taxable) - TaxOnTaxable(IncomeThreshold);
      var dist := if taxable >= IncomeThreshold then taxable - IncomeThreshold else IncomeThreshold - taxable;
      -0.279 * dist <= d <= 0.279 * dist
  {
  }

  /** Continuous at taxable income 0, where the variable part of the lowest branch starts. */
  lemma ContinuousAtZero(taxable: real)
    requires 0.0 < taxable <= HealthInsuranceThreshold
    ensures TaxOnTaxable(taxable) - TaxOnTaxable(0.0) == taxable * 0.19
  {
  }

  /**
   * NOT continuous at 77,096.4: the lowest branch gives 18,427.836 there,
   * while the middle branch starts from 18,426.0396, so the tax drops by
   * 1.7964 just past the breakpoint.
   */
  lemma JumpAtHealthInsuranceThreshold(taxable: real)
    requires HealthInsuranceThreshold < taxable <= IncomeThreshold
    ensures TaxOnTaxable(HealthInsuranceThreshold) == 18427.836
    ensures TaxOnTaxable(taxable) == 18426.0396 + (taxable - HealthInsuranceThreshold) * 0.239
  {
  }

  /** Hence the flat-rate tax is not monotone in income: 81,068 pays more than 81,075. */
  lemma LinearTaxNotMonotone()
    ensures 81068.0 < 81075.0 && LinearTax(81068.0) > LinearTax(81075.0)
  {
    assert TaxableIncome(81068.0) == 77095.668;
    assert TaxableIncome(81075.0) == 77102.325;
  }

  /** Taxable income grows with income. */
  lemma TaxableIncomeMonotone(a: real, b: real)
    requires a <= b
    ensures TaxableIncome(a) <= TaxableIncome(b)
  {
  }

  /** On each side of the 77,096.4 breakpoint the flat-rate tax does grow with income. */
  lemma LinearTaxMonotoneWithinSide(a: real, b: real)
    requires a <= b
    requires (TaxableIncome(b) <= HealthInsuranceThreshold) || (TaxableIncome(a) > HealthInsuranceThreshold)
    ensures LinearTax(a) <= LinearTax(b)
  {
    TaxableIncomeMonotone(a, b);
  }

  // ---------------------------------------------------------------------
  // Worked values

  /** Income 100,000, payout 50,000, revenue 200,000: the reduced bracket and the 23.9% branch. */
  lemma WorkedExampleReduced()
    ensures EstonianCIT(200000.0, 50000.0) == 10000.0
    ensures LLCTax(200000.0, 100000.0, 50000.0) == 17645.0
    ensures TaxableIncome(100000.0) == 95100.0
    ensures LinearTax(100000.0) == 22728.9
  {
  }

  /** Income 2,000,000, no payout, revenue 9,000,000: the standard bracket and the 27.9% branch. */
  lemma WorkedExampleStandard()
    ensures EstonianCIT(9000000.0, 0.0) == 0.0
    ensures LLCTax(9000000.0, 2000000.0, 0.0) == 380000.0
    ensures TaxableIncome(2000000.0) == 1987100.0
    ensures LinearTax(2000000.0) == 514400.9
  {
  }
}
