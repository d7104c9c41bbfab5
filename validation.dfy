// The validation rules of the calculator: the range check that
// validateInput applies to one field, and the ordering check that
// validateValues applies across the three fields. The DOM side (error
// classes, visibility) is not modelled; each check returns which error,
// if any, it would display, and the message text for it.
module Validation {
  import opened Amounts

  /** The largest amount a field accepts. */
  const MaxAmount: real := 999999999.0

  /** What validateInput can complain about, in the order it tests. */
  datatype FieldError = InvalidNumber | Negative | TooLarge

  datatype FieldCheck = Accepted | Rejected(error: FieldError)

  /** The message shown under the field for each error: never empty, one per error. */
  function FieldMessage(e: FieldError): (m: string)
    ensures |m| > 0
  {
    match e
    case InvalidNumber => "Proszę wprowadzić prawidłową kwotę"
    case Negative => "Kwota nie może być ujemna"
    case TooLarge => "Kwota jest zbyt duża"
  }

  /**
   * The chain of tests in validateInput on the parsed value: NaN first,
   * then negative, then too large; exactly one outcome for every value.
   */
  function CheckAmount(x: JsNumber): (r: FieldCheck)
    ensures r == Accepted <==> x.Finite? && 0.0 <= x.value <= MaxAmount
    ensures r == Rejected(InvalidNumber) <==> x.NaN?
    ensures r == Rejected(Negative) <==> x.Finite? && x.value < 0.0
    ensures r == Rejected(TooLarge) <==> x.Finite? && x.value > MaxAmount
  {
    if x.NaN? then Rejected(InvalidNumber)
    else if x.value < 0.0 then Rejected(Negative)
    else if x.value > 999999999.0 then Rejected(TooLarge)
    else Accepted
  }

  /**
   * validateInput on the text of a field. Because parsePLN never yields NaN,
   * the "invalid number" message can never be shown.
   */
  function ValidateInput(text: seq<char>): (r: FieldCheck)
    ensures r != Rejected(InvalidNumber)
    ensures r == Accepted <==> 0.0 <= ParsePLN(text).value <= MaxAmount
    ensures r == Rejected(Negative) <==> ParsePLN(text).value < 0.0
  {
    CheckAmount(ParsePLN(text))
  }

  /** Different errors show different messages. */
  lemma FieldMessagesDistinct(e1: FieldError, e2: FieldError)
    ensures FieldMessage(e1) == FieldMessage(e2) <==> e1 == e2
  {
    if e1 != e2 {
      assert FieldMessage(e1)[5] != FieldMessage(e2)[5] || |FieldMessage(e1)| != |FieldMessage(e2)|;
    }
  }

  /** The text under a field after a check: empty when it is accepted, else the error's message. */
  function ErrorText(c: FieldCheck): (m: string)
    ensures m == "" <==> c.Accepted?
    ensures c.Rejected? ==> m == FieldMessage(c.error)
  {
    match c
    case Accepted => ""
    case Rejected(e) => FieldMessage(e)
  }

  /**
   * The message validateInput leaves under a field: empty exactly when the
   * amount is in range, the negative-amount message exactly when it is
   * below 0, and never the invalid-number message.
   */
  lemma InputMessage(text: seq<char>)
    ensures ErrorText(ValidateInput(text)) == "" <==> 0.0 <= ParsePLN(text).value <= MaxAmount
    ensures ErrorText(ValidateInput(text)) == FieldMessage(Negative) <==> ParsePLN(text).value < 0.0
    ensures ErrorText(ValidateInput(text)) == FieldMessage(TooLarge) <==> ParsePLN(text).value > MaxAmount
    ensures ErrorText(ValidateInput(text)) != FieldMessage(InvalidNumber)
  {
    var c := ValidateInput(text);
    if c.Rejected? {
      FieldMessagesDistinct(c.error, Negative);
      FieldMessagesDistinct(c.error, TooLarge);
      FieldMessagesDistinct(c.error, InvalidNumber);
    }
  }

  /** Text without a minus sign is never rejected as negative. */
  lemma NoMinusNeverNegative(text: seq<char>)
    requires '-' !in text
    ensures ValidateInput(text) != Rejected(Negative)
  {
    NoMinusNoNegative(text);
  }

  /**
   * The result of validateValues: the two ordering errors, each tested on
   * its own so that both can be reported at once.
   */
  datatype OrderCheck = OrderCheck(incomeAboveRevenue: bool, profitAboveIncome: bool) {
    predicate Ok() { !incomeAboveRevenue && !profitAboveIncome }
  }

  /** Shown under the income field. */
  const IncomeAboveRevenueMessage: string := "Dochód nie może być większy niż przychód brutto"
  /** Shown under the profit-to-distribute field. */
  const ProfitAboveIncomeMessage: string := "Zysk do wypłacenia nie może być większy niż dochód"

  /** validateValues: income may not exceed gross revenue, nor profit to distribute income; equality is fine. */
  function ValidateValues(grossRevenue: real, income: real, profitToDistribute: real): (r: OrderCheck)
    ensures r.Ok() <==> profitToDistribute <= income <= grossRevenue
    ensures r.incomeAboveRevenue <==> income > grossRevenue
    ensures r.profitAboveIncome <==> profitToDistribute > income
  {
    var incomeError := income > grossRevenue;
    var profitError := profitToDistribute > income;
    OrderCheck(incomeError, profitError)
  }

  /** The messages displayed for an ordering check, income field first. */
  function OrderMessages(c: OrderCheck): (ms: seq<string>)
    ensures |ms| <= 2
    ensures ms == [] <==> c.Ok()
    ensures IncomeAboveRevenueMessage in ms <==> c.incomeAboveRevenue
    ensures ProfitAboveIncomeMessage in ms <==> c.profitAboveIncome
  {
    (if c.incomeAboveRevenue then [IncomeAboveRevenueMessage] else [])
    + (if c.profitAboveIncome then [ProfitAboveIncomeMessage] else [])
  }

  /** Neither ordering test stops the other: with 100, 500, 600 both messages appear. */
  lemma BothOrderErrorsReported()
    ensures OrderMessages(ValidateValues(100.0, 500.0, 600.0))
      == [IncomeAboveRevenueMessage, ProfitAboveIncomeMessage]
  {
  }
}
