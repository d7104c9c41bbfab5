// The calculate handler: reformat the three fields, read them back,
// validate each field, then the ordering between them, and only then
// compute the three taxes. The locale formatter the handler writes back
// into each field is a parameter (`format`), since its output is not
// part of this model; displaying the results and the button and
// animation changes are left out.
module Calculator {
  import opened Amounts
  import opened Taxes
  import opened Validation

  datatype TaxResult = TaxResult(estonianCIT: real, linearTax: real, llcTax: real)

  /** Either the validation errors that stopped the calculation, or the three taxes, never both. */
  datatype Outcome =
    | FieldsRejected(grossRevenue: FieldCheck, income: FieldCheck, profitToDistribute: FieldCheck)
    | OrderRejected(order: OrderCheck)
    | Computed(taxes: TaxResult)

  /** The text left in a field after calculate reformats it: format(parsePLN(raw)). */
  function Reformat(format: real -> seq<char>, raw: seq<char>): seq<char> {
    format(ParsePLN(raw).value)
  }

  /**
   * The decision calculate takes once the three amounts are read: all field
   * checks, then the ordering check, then the taxes.
   */
  function Decide(grossRevenue: real, income: real, profitToDistribute: real): (r: Outcome)
    ensures r.FieldsRejected? <==>
      !(0.0 <= grossRevenue <= MaxAmount && 0.0 <= income <= MaxAmount && 0.0 <= profitToDistribute <= MaxAmount)
    ensures r.FieldsRejected? ==>
      && r.grossRevenue != Rejected(InvalidNumber)
      && r.income != Rejected(InvalidNumber)
      && r.profitToDistribute != Rejected(InvalidNumber)
    ensures r.FieldsRejected? ==>
      r == FieldsRejected(CheckAmount(Finite(grossRevenue)), CheckAmount(Finite(income)),
                          CheckAmount(Finite(profitToDistribute)))
    ensures r.OrderRejected? ==>
      && !r.order.Ok()
      && r.order == ValidateValues(grossRevenue, income, profitToDistribute)
    ensures r.Computed? <==>
      0.0 <= profitToDistribute <= income <= grossRevenue <= MaxAmount
    ensures r.Computed? ==>
      && MinimumFlatTax <= r.taxes.linearTax
      && 0.0 <= r.taxes.estonianCIT <= r.taxes.llcTax
      && r.taxes.estonianCIT == profitToDistribute * DistributionRate(BracketOf(grossRevenue))
      && r.taxes == TaxResult(EstonianCIT(grossRevenue, profitToDistribute), LinearTax(income),
                              LLCTax(grossRevenue, income, profitToDistribute))
  {
    var grossCheck := CheckAmount(Finite(grossRevenue));
    var incomeCheck := CheckAmount(Finite(income));
    var profitCheck := CheckAmount(Finite(profitToDistribute));
    if !grossCheck.Accepted? || !incomeCheck.Accepted? || !profitCheck.Accepted? then
      FieldsRejected(grossCheck, incomeCheck, profitCheck)
    else
      var order := ValidateValues(grossRevenue, income, profitToDistribute);
      if !order.Ok() then OrderRejected(order)
      else
        EstonianCITAtMostLLCTax(grossRevenue, income, profitToDistribute);
        Computed(TaxResult(
          EstonianCIT(grossRevenue, profitToDistribute),
          LinearTax(income),
          LLCTax(grossRevenue, income, profitToDistribute)))
  }

  /**
   * calculate: each field is reformatted and parsed again; the field checks
   * run on the reformatted text, and the decision is taken on the amounts
   * read back from it.
   */
  function Calculate(format: real -> seq<char>, rawGrossRevenue: seq<char>, rawIncome: seq<char>,
                     rawProfitToDistribute: seq<char>): (r: Outcome)
    ensures r == Decide(ParsePLN(Reformat(format, rawGrossRevenue)).value,
                        ParsePLN(Reformat(format, rawIncome)).value,
                        ParsePLN(Reformat(format, rawProfitToDistribute)).value)
  {
    var grossText := Reformat(format, rawGrossRevenue);
    var incomeText := Reformat(format, rawIncome);
    var profitText := Reformat(format, rawProfitToDistribute);
    var grossRevenue := ParsePLN(grossText).value;
    var income := ParsePLN(incomeText).value;
    var profitToDistribute := ParsePLN(profitText).value;
    var grossCheck := ValidateInput(grossText);
    var incomeCheck := ValidateInput(incomeText);
    var profitCheck := ValidateInput(profitText);
    if !grossCheck.Accepted? || !incomeCheck.Accepted? || !profitCheck.Accepted? then
      FieldsRejected(grossCheck, incomeCheck, profitCheck)
    else
      var order := ValidateValues(grossRevenue, income, profitToDistribute);
      if !order.Ok() then OrderRejected(order)
      else
        Computed(TaxResult(
          EstonianCIT(grossRevenue, profitToDistribute),
          LinearTax(income),
          LLCTax(grossRevenue, income, profitToDistribute)))
  }

  /**
   * When the formatter writes amounts that parse back to themselves, the
   * outcome depends only on the amounts parsed from what the user typed.
   */
  lemma CalculateOnParsedAmounts(format: real -> seq<char>, rawGrossRevenue: seq<char>,
                                 rawIncome: seq<char>, rawProfitToDistribute: seq<char>)
    requires ParsePLN(Reformat(format, rawGrossRevenue)) == ParsePLN(rawGrossRevenue)
    requires ParsePLN(Reformat(format, rawIncome)) == ParsePLN(rawIncome)
    requires ParsePLN(Reformat(format, rawProfitToDistribute)) == ParsePLN(rawProfitToDistribute)
    ensures Calculate(format, rawGrossRevenue, rawIncome, rawProfitToDistribute)
         == Decide(ParsePLN(rawGrossRevenue).value, ParsePLN(rawIncome).value, ParsePLN(rawProfitToDistribute).value)
  {
  }

  // ---------------------------------------------------------------------
  // Worked outcomes

  lemma OutcomeReducedBracket()
    ensures Decide(200000.0, 100000.0, 50000.0) == Computed(TaxResult(10000.0, 22728.9, 17645.0))
  {
    WorkedExampleReduced();
  }

  lemma OutcomeStandardBracket()
    ensures Decide(9000000.0, 2000000.0, 0.0) == Computed(TaxResult(0.0, 514400.9, 380000.0))
  {
    WorkedExampleStandard();
  }

  /** Income above revenue: stopped by the ordering check, no tax computed. */
  lemma OutcomeIncomeAboveRevenue()
    ensures Decide(100.0, 500.0, 0.0) == OrderRejected(OrderCheck(true, false))
  {
  }

  /** Every field is checked, so a negative revenue and a too large payout are both reported. */
  lemma OutcomeFieldErrors()
    ensures Decide(-1.0, 5.0, 2000000000.0)
         == FieldsRejected(Rejected(Negative), Accepted, Rejected(TooLarge))
  {
  }
}
