# CIT-E calculator: a Dafny model of the tax and validation engine

The calculator compares three ways a Polish business can be taxed:
- Estonian CIT, a tax only on the profit paid out;
- the flat-rate ("linear") personal income tax with its health contribution;
- the combined corporate-plus-dividend tax of a limited liability company (LLC).

The user types gross revenue, income and profit to distribute. The page reads them through `parsePLN`, checks each field's range and then the ordering between the fields, and only then computes the three figures.

The model has four modules, one per part of `script.js`:

- `Amounts` (amounts.dfy): `parsePLN`. It drops every character other than digits, commas and minus signs, turns the first comma into a point, and reads a decimal prefix the way `parseFloat` does. A JavaScript number is `JsNumber = NaN | Finite(real)`, and the `|| 0` fallback turns NaN into 0. The lemmas show that the result is never NaN and that only the first comma counts. They also show that an amount written with a decimal comma, with or without a leading minus sign, reads back as itself, whatever grouping spaces or currency suffix surround it.
- `Taxes` (taxes.dfy): `calculateEstonianCIT`, `calculateLLCTax` and `calculateLinearTax`, with the constants of `script.js`. The lemmas cover the inclusive revenue threshold, the shared bracket and where the flat-rate tax is continuous. At 77,096.4 it is not, so it is not monotone in income.
- `Validation` (validation.dfy): the range chain of `validateInput` (NaN, then negative, then above 999,999,999) and the two independent ordering tests of `validateValues`. Each check returns the error it would show, and `Validation.ErrorText` gives the message left under the field.
- `Calculator` (calculator.dfy): `calculate`. It reformats each field, reads it back, checks the three fields, then the ordering, and computes the taxes only when everything passes.

All arithmetic is exact over `real`, with the decimal constants of `script.js`. The results are the exact values that the floating-point code approximates.

Consequences of the code worth knowing:
- The flat-rate tax drops by 1.7964 just past taxable income 77,096.4. The lowest branch gives 18,427.836 there, and the middle branch starts at 18,426.0396 (`Taxes.JumpAtHealthInsuranceThreshold`, `Taxes.LinearTaxNotMonotone`).
- For income 100,000 the taxable income is 95,100. That is above 77,096.4, so the flat-rate tax is 95,100 · 0.239 = 22,728.9 (`Taxes.WorkedExampleReduced`).
- For income 2,000,000 the taxable income is 2,000,000 − 12,900 = 1,987,100, and the flat-rate tax is 987,100 · 0.279 + 239,000 = 514,400.9 (`Taxes.WorkedExampleStandard`).
- `parsePLN` turns unparsable text into 0, so the invalid-number message of `validateInput` can never appear (`Validation.ValidateInput`, `Validation.InputMessage`).

## Model

| member | source | states |
|---|---|---|
| `Amounts.StripForeign` | script.js:36 | every character of the result is a digit, a comma or a minus sign, and the result is no longer than the input |
| `Amounts.StripForeignCount` | script.js:36 | each digit, comma and minus sign is kept exactly as often as it occurs; every other character is removed |
| `Amounts.FirstCommaToPoint` | script.js:36 | the replacement keeps the length of the text |
| `Amounts.FirstCommaToPointAt` | script.js:36 | a character changes only if it is the first comma, and it then becomes a point; every other character is unchanged |
| `Amounts.ParseFloat` | script.js:36 | NaN exactly when no digit (or point followed by a digit) follows the optional minus sign; otherwise the value's sign follows the minus sign |
| `Amounts.ParseUnsigned` | script.js:36 | the unsigned part of the reading is a number exactly when the text starts with a digit or a point and a digit, and it is never negative |
| `Amounts.OrZero` | script.js:36 | the fallback to 0 never yields NaN, turns NaN into 0 and leaves every non-NaN value as it is |
| `Amounts.ParsePLN` | script.js:35-37 | parsePLN never returns NaN; text with no number in it gives 0, and otherwise the value that parseFloat reads from the normalised text |
| `Amounts.ParseUnsignedWhole` | script.js:36 | a run of digits followed by nothing, or by a character that is neither a digit nor a point, reads as the number the digits spell |
| `Amounts.ParseUnsignedDecimal` | script.js:36 | digits, a point and digits (either run may be empty, not both), followed by anything but a digit, read as whole part plus fraction |
| `Amounts.ParseFloatSign` | script.js:36 | a leading minus sign negates what the rest reads as and keeps NaN as NaN; without one, the reading is the unsigned one |
| `Amounts.ParseFloatDecimal` | script.js:36 | digits, a point and digits read as whole part plus fraction |
| `Amounts.ParseFormattedAmount` | script.js:35-37 | any text whose digits, commas and minus signs spell an optional minus sign, a whole amount, a decimal comma and fraction digits parses back to that amount, negated when the sign is there, whatever other characters surround it |
| `Amounts.NormalizeFormatted` | script.js:36 | normalising such a text keeps the sign and the digits and turns the decimal comma into a point |
| `Amounts.NoMinusNoNegative` | script.js:36 | text without a minus sign never parses to a negative amount |
| `Amounts.SecondCommaStopsNumber` | script.js:36 | only the first comma becomes a decimal point: "1,5,7" reads as 1.5 |
| `Amounts.ParseNegativeAmount` | script.js:36 | a leading minus sign survives the filter: "-5" reads as −5 |
| `Amounts.ParseGarbage` | script.js:36 | text without digits reads as 0 |
| `Amounts.ParseLeadingComma` | script.js:36 | a leading comma becomes a leading point: ",5" reads as 0.5 |
| `Amounts.ParseInnerMinus` | script.js:36 | a minus sign inside the number ends it: "12-3" reads as 12 |
| `Amounts.ParseDoubleMinus` | script.js:36 | two leading minus signs leave no number, so "--5" reads as 0 |
| `Taxes.EstonianCIT` | script.js:109-113 | the tax is the bracket's rate (20% reduced, 25% standard) of the profit to distribute, and lies between 0 and 25% of it for a non-negative payout |
| `Taxes.LLCTax` | script.js:132-138 | the tax is the bracket's payout rate on the profit plus its retained rate on the rest of the income, with the bracket Estonian CIT uses; it is non-negative when 0 ≤ profit ≤ income |
| `Taxes.HealthContribution` | script.js:116-119 | the contribution is 4.9% of income or 12,900, whichever is smaller |
| `Taxes.TaxableIncome` | script.js:116-121 | taxable income is 95.1% of income while 4.9% of income stays within 12,900, and income − 12,900 from there on; it is at least income − 12,900 and at least 95.1% of income; it is at most income for non-negative income, and it is ≤ 0 exactly when income is |
| `Taxes.TaxOnTaxable` | script.js:123-129 | the three-branch formula never gives less than 3,779.52 and gives exactly 3,779.52 for taxable income ≤ 0 |
| `Taxes.LinearTax` | script.js:115-130 | the flat-rate tax is at least 3,779.52 and exactly 3,779.52 for income ≤ 0 |
| `Taxes.BracketBoundary` | script.js:19 | revenue of exactly 8,569,000 is taxed at the reduced rate and 8,569,000.01 at the standard one |
| `Taxes.EstonianCITAtMostLLCTax` | script.js:109-138 | for 0 ≤ profit ≤ income, Estonian CIT never exceeds the LLC tax |
| `Taxes.EstonianCITMonotoneInRevenue` | script.js:109-113 | more revenue never lowers Estonian CIT on a non-negative payout |
| `Taxes.ContinuousAtIncomeThreshold` | script.js:123-126 | both formulas give 239,000 at taxable income 1,000,000, and above 77,096.4 the tax moves at most 27.9% of the distance from 1,000,000 |
| `Taxes.ContinuousAtZero` | script.js:127-128 | just above taxable income 0 the tax grows from 3,779.52 by 19% of taxable income, with no jump |
| `Taxes.JumpAtHealthInsuranceThreshold` | script.js:125-128 | the tax is 18,427.836 at taxable income 77,096.4 and 18,426.0396 + 23.9% of the excess just above it: a downward jump |
| `Taxes.LinearTaxNotMonotone` | script.js:115-130 | income 81,068 pays more flat-rate tax than income 81,075 |
| `Taxes.TaxableIncomeMonotone` | script.js:116-121 | taxable income never decreases as income grows |
| `Taxes.LinearTaxMonotoneWithinSide` | script.js:115-130 | the flat-rate tax grows with income as long as both incomes stay on the same side of taxable income 77,096.4 |
| `Taxes.WorkedExampleReduced` | script.js:109-138 | revenue 200,000, income 100,000, payout 50,000 give CIT 10,000, LLC 17,645, taxable income 95,100 and flat-rate 22,728.9 |
| `Taxes.WorkedExampleStandard` | script.js:109-138 | revenue 9,000,000, income 2,000,000, payout 0 give CIT 0, LLC 380,000, taxable income 1,987,100 and flat-rate 514,400.9 |
| `Validation.CheckAmount` | script.js:55-70 | exactly one outcome per value: invalid number iff NaN, negative iff below 0, too large iff above 999,999,999, accepted iff in between |
| `Validation.FieldMessage` | script.js:55-69 | every field error has a non-empty message |
| `Validation.FieldMessagesDistinct` | script.js:55-69 | two errors show the same message only when they are the same error |
| `Validation.ErrorText` | script.js:47-70 | the message under a field is empty exactly when the field is accepted, and otherwise is its error's message |
| `Validation.InputMessage` | script.js:42-80 | after validateInput the message is empty iff the amount is in range, the negative message iff it is below 0, the too-large message iff it is above 999,999,999, and never the invalid-number message |
| `Validation.ValidateInput` | script.js:42-80 | a field is accepted iff its parsed amount lies in [0, 999,999,999], rejected as negative iff it is below 0, and never rejected as an invalid number |
| `Validation.NoMinusNeverNegative` | script.js:53-64 | a field typed without a minus sign is never rejected as negative |
| `Validation.ValidateValues` | script.js:82-104 | the income error is raised iff income > revenue and the profit error iff profit > income, each on its own; the check passes iff profit ≤ income ≤ revenue |
| `Validation.OrderMessages` | script.js:85-101 | each of the two messages is shown exactly when its error was raised, and none is shown when the check passes |
| `Validation.BothOrderErrorsReported` | script.js:85-101 | revenue 100, income 500, profit 600 show both messages, income first |
| `Calculator.Decide` | script.js:153-170 | the fields are rejected iff some amount is outside [0, 999,999,999]; taxes are computed iff 0 ≤ profit ≤ income ≤ revenue ≤ 999,999,999; then the flat-rate tax is at least 3,779.52, 0 ≤ CIT ≤ LLC tax, and the three figures are those of calculateEstonianCIT, calculateLinearTax and calculateLLCTax; a field rejection reports each field's own range check, and an ordering rejection reports validateValues on the three amounts |
| `Calculator.Calculate` | script.js:143-170 | checking the reformatted texts and computing from the amounts read back from them gives the same outcome as deciding on those amounts |
| `Calculator.CalculateOnParsedAmounts` | script.js:145-151 | when the formatter's text reads back as the amount it was given, the outcome depends only on the amounts parsed from what was typed |
| `Calculator.OutcomeReducedBracket` | script.js:167-170 | revenue 200,000, income 100,000, payout 50,000 are accepted and give taxes 10,000, 22,728.9 and 17,645 |
| `Calculator.OutcomeStandardBracket` | script.js:167-170 | revenue 9,000,000, income 2,000,000, payout 0 are accepted and give taxes 0, 514,400.9 and 380,000 |
| `Calculator.OutcomeIncomeAboveRevenue` | script.js:162-165 | income 500 against revenue 100 is stopped by the ordering check with only the income error, and no tax is computed |
| `Calculator.OutcomeFieldErrors` | script.js:153-160 | all three fields are checked: negative revenue and a payout of 2,000,000,000 are both reported |

## Left out

- `formatPLN` (script.js:26-33) wraps `Intl.NumberFormat` for the pl-PL locale, whose output is not modelled. `Calculator.Calculate` takes the formatter as a parameter. So the model proves no round trip through the real formatter, only `Amounts.ParseFormattedAmount` for any text that spells the amount.
- Floating-point rounding: every figure is the exact real value. For very long digit strings `parseFloat` would also overflow to Infinity; the model reads them exactly.
- `Amounts.ParseFloat` models only the part of `parseFloat`'s grammar that filtered text can reach: a minus sign, digits and one point. Leading whitespace, `+`, exponents and `Infinity` cannot survive the filter.
- DOM effects: error classes and message elements, writing the reformatted text into the inputs, writing the results, and showing or hiding the results and the button (script.js:43-51, 72-77, 87-99, 173-185). Each check returns the error it would display, and `Validation.ErrorText` the message text.
- The `setTimeout` animation and the event listeners (script.js:180-182, 191-232). The blur listeners rewrite a non-empty field to `formatPLN(parsePLN(text))` (`Calculator.Reformat`). The input listeners run `validateInput` on the raw text (`Validation.ValidateInput`) and rerun `calculate` when the results are visible. The model covers these computations, not when they happen.
- A page variant where the user picks the CIT bracket directly is not modelled.
