// The input normaliser of the calculator: turning the free text of an
// amount field ("1 234,50 zł") into a number, the way parsePLN does with
// `parseFloat(value.replace(/[^\d,-]/g, "").replace(",", ".")) || 0`.
// JavaScript numbers are modelled as exact reals plus the NaN value that
// parseFloat returns when it finds no number at the start of its text.
module Amounts {

  /** A JavaScript number: NaN, or a value (computed exactly, without rounding). */
  datatype JsNumber = NaN | Finite(value: real)

  predicate IsDigit(c: char) { '0' <= c <= '9' }

  /** The characters the pattern [^\d,-] does NOT remove. */
  predicate Survives(c: char) { IsDigit(c) || c == ',' || c == '-' }

  predicate AllDigits(s: seq<char>) { forall i :: 0 <= i < |s| ==> IsDigit(s[i]) }

  function DigitValue(c: char): (d: nat)
    requires IsDigit(c)
    ensures d < 10
  {
    (c - '0') as nat
  }

  function DigitChar(d: nat): (c: char)
    requires d < 10
    ensures IsDigit(c) && DigitValue(c) == d
  {
    ('0' as int + d) as char
  }

  function Pow10(k: nat): (p: nat)
    ensures p >= 1
  {
    if k == 0 then 1 else 10 * Pow10(k - 1)
  }

  /** The value of a string of decimal digits, most significant first. */
  function DigitsValue(s: seq<char>): (n: nat)
    requires AllDigits(s)
    ensures n < Pow10(|s|)
  {
    if s == [] then 0 else 10 * DigitsValue(s[..|s| - 1]) + DigitValue(s[|s| - 1])
  }

  /** The decimal digits of n, without leading zeros (a single "0" for zero). */
  function DecimalText(n: nat): (s: seq<char>)
    ensures |s| >= 1 && AllDigits(s)
  {
    if n < 10 then [DigitChar(n)] else DecimalText(n / 10) + [DigitChar(n % 10)]
  }

  /** `value.replace(/[^\d,-]/g, "")`: keeps digits, commas and minus signs, drops everything else. */
  function StripForeign(s: seq<char>): (r: seq<char>)
    ensures forall i :: 0 <= i < |r| ==> Survives(r[i])
    ensures |r| <= |s|
  {
    if s == [] then [] else (if Survives(s[0]) then [s[0]] else []) + StripForeign(s[1..])
  }

  /** `.replace(",", ".")`: a string pattern, so only the FIRST comma becomes a point. */
  function FirstCommaToPoint(s: seq<char>): (r: seq<char>)
    ensures |r| == |s|
  {
    if s == [] then []
    else if s[0] == ',' then ['.'] + s[1..]
    else [s[0]] + FirstCommaToPoint(s[1..])
  }

  /** The number of decimal digits at the start of s. */
  function LeadingDigits(s: seq<char>): (n: nat)
    ensures n <= |s|
    ensures AllDigits(s[..n])
    ensures n < |s| ==> !IsDigit(s[n])
  {
    if s == [] || !IsDigit(s[0]) then 0
    else
      var n := 1 + LeadingDigits(s[1..]);
      assert s[..n] == [s[0]] + s[1..][..n - 1];
      n
  }

  /** The fraction that the digits after a decimal point denote. */
  function FractionValue(f: seq<char>): (x: real)
    requires AllDigits(f)
    ensures 0.0 <= x < 1.0
  {
    var n, p := DigitsValue(f) as real, Pow10(|f|) as real;
    ProperFraction(n, p);
    n / p
  }

  lemma ProperFraction(n: real, p: real)
    requires 0.0 <= n < p
    ensures 0.0 <= n / p < 1.0
  {
    assert n / p * p == n;
  }

  /**
   * parseFloat on the text that reaches it: an optional minus sign, digits,
   * then optionally a point and more digits, read as the longest such prefix.
   * NaN when that prefix holds no digit at all.
   */
  function ParseFloat(s: seq<char>): (r: JsNumber)
    ensures var body := if |s| > 0 && s[0] == '-' then s[1..] else s;
      r.Finite? <==> StartsNumber(body)
    ensures r.Finite? && |s| > 0 && s[0] == '-' ==> r.value <= 0.0
    ensures r.Finite? && (|s| == 0 || s[0] != '-') ==> r.value >= 0.0
  {
    if |s| > 0 && s[0] == '-' then
      match ParseUnsigned(s[1..])
      case NaN => NaN
      case Finite(v) => Finite(-v)
    else ParseUnsigned(s)
  }

  /** A digit, or a point followed by a digit: what parseFloat needs to find a number. */
  predicate StartsNumber(body: seq<char>) {
    (|body| > 0 && IsDigit(body[0])) || (|body| > 1 && body[0] == '.' && IsDigit(body[1]))
  }

  /** The part of parseFloat after the sign: digits, then optionally a point and digits. */
  function ParseUnsigned(body: seq<char>): (r: JsNumber)
    ensures r.Finite? <==> StartsNumber(body)
    ensures r.Finite? ==> r.value >= 0.0
  {
    var n := LeadingDigits(body);
    var rest := body[n..];
    var frac := if |rest| > 0 && rest[0] == '.' then rest[1..][..LeadingDigits(rest[1..])] else [];
    if n + |frac| == 0 then NaN
    else Finite(DigitsValue(body[..n]) as real + FractionValue(frac))
  }

  /** The `|| 0` fallback: NaN and zero both become 0. */
  function OrZero(x: JsNumber): (r: JsNumber)
    ensures r.Finite?
    ensures x.NaN? ==> r == Finite(0.0)
    ensures x.Finite? ==> r == x
  {
    match x
    case NaN => Finite(0.0)
    case Finite(v) => if v == 0.0 then Finite(0.0) else x
  }

  /** The text parseFloat is given, after the two replacements. */
  function Normalize(s: seq<char>): seq<char> {
    FirstCommaToPoint(StripForeign(s))
  }

  /** parsePLN: never NaN; text with no number in it reads as 0. */
  function ParsePLN(s: seq<char>): (r: JsNumber)
    ensures r.Finite?
    ensures ParseFloat(Normalize(s)).NaN? ==> r == Finite(0.0)
    ensures ParseFloat(Normalize(s)).Finite? ==> r == ParseFloat(Normalize(s))
  {
    OrZero(ParseFloat(Normalize(s)))
  }

  // ---------------------------------------------------------------------
  // Properties of the normaliser

  lemma {:induction false} DecimalTextValue(n: nat)
    ensures DigitsValue(DecimalText(n)) == n
  {
    if n >= 10 {
      var s := DecimalText(n);
      DecimalTextValue(n / 10);
      assert s[..|s| - 1] == DecimalText(n / 10);
    }
  }

  /** Every digit, comma and minus sign is kept, as often as it occurs; nothing else is. */
  lemma {:induction false} StripForeignCount(s: seq<char>, c: char)
    ensures multiset(StripForeign(s))[c] == if Survives(c) then multiset(s)[c] else 0
  {
    if s != [] {
      assert s == [s[0]] + s[1..];
      StripForeignCount(s[1..], c);
    }
  }

  lemma {:induction false} StripForeignKeepsSurvivors(s: seq<char>)
    requires forall i :: 0 <= i < |s| ==> Survives(s[i])
    ensures StripForeign(s) == s
  {
    if s != [] {
      StripForeignKeepsSurvivors(s[1..]);
    }
  }

  lemma {:induction false} StripForeignConcat(a: seq<char>, b: seq<char>)
    ensures StripForeign(a + b) == StripForeign(a) + StripForeign(b)
  {
    if a != [] {
      assert (a + b)[0] == a[0];
      assert (a + b)[1..] == a[1..] + b;
      StripForeignConcat(a[1..], b);
      var h := if Survives(a[0]) then [a[0]] else [];
      assert StripForeign(a + b) == h + StripForeign(a[1..] + b);
      assert h + (StripForeign(a[1..]) + StripForeign(b)) == (h + StripForeign(a[1..])) + StripForeign(b);
    } else {
      assert a + b == b;
    }
  }

  /** The digit run at the start of d + rest is d itself when rest does not start with a digit. */
  lemma {:induction false} LeadingDigitsStop(d: seq<char>, rest: seq<char>)
    requires AllDigits(d)
    requires rest == [] || !IsDigit(rest[0])
    ensures LeadingDigits(d + rest) == |d|
  {
    if d != [] {
      assert (d + rest)[1..] == d[1..] + rest;
      LeadingDigitsStop(d[1..], rest);
    } else {
      assert d + rest == rest;
    }
  }

  /**
   * Position by position: a character changes only if it is a comma with no
   * comma before it, and then it becomes a point.
   */
  lemma {:induction false} FirstCommaToPointAt(s: seq<char>, i: nat)
    requires i < |s|
    ensures FirstCommaToPoint(s)[i] == if s[i] == ',' && ',' !in s[..i] then '.' else s[i]
  {
    if s[0] != ',' && i > 0 {
      FirstCommaToPointAt(s[1..], i - 1);
      assert s[..i] == [s[0]] + s[1..][..i - 1];
    }
  }

  /** A minus sign can only come from the text itself. */
  lemma NoMinusNoNegative(s: seq<char>)
    requires '-' !in s
    ensures ParsePLN(s).value >= 0.0
  {
    var t := StripForeign(s);
    StripForeignCount(s, '-');
    assert '-' !in t by { assert multiset(s)['-'] == 0; }
    var u := FirstCommaToPoint(t);
    if |u| > 0 {
      FirstCommaToPointAt(t, 0);
      assert t[0] in t;
    }
  }

  /** Only the first comma becomes a point: a second one stops the number. */
  lemma SecondCommaStopsNumber()
    ensures ParsePLN("1,5,7").value == 1.5
  {
    assert StripForeign("1,5,7") == "1,5,7" by { StripForeignKeepsSurvivors("1,5,7"); }
    var u := FirstCommaToPoint("1,5,7");
    assert u == "1.5,7";
    assert LeadingDigits(u) == 1;
    assert LeadingDigits(u[2..]) == 1;
    assert DigitsValue("1") == 1;
    assert DigitsValue("5") == 5;
  }

  /**
   * Round trip with the formatted form of an amount: whatever grouping
   * spaces, currency suffix or other characters surround it (as long as
   * they hold no digit, comma or minus sign), the text whose surviving
   * characters are an optional minus sign, the whole part, a decimal comma
   * and the fraction digits parses back to that amount.
   */
  lemma {:induction false} ParseFormattedAmount(s: seq<char>, negative: bool, whole: nat, frac: seq<char>)
    requires AllDigits(frac)
    requires StripForeign(s) == (if negative then ['-'] else []) + DecimalText(whole) + [','] + frac
    ensures var amount := whole as real + FractionValue(frac);
      ParsePLN(s) == Finite(if negative then -amount else amount)
  {
    var w := DecimalText(whole);
    var body := w + (['.'] + frac);
    var amount := whole as real + FractionValue(frac);
    NormalizeFormatted(s, negative, w, frac);
    assert ParseUnsigned(body) == Finite(amount) by {
      ParseUnsignedDecimal(w, frac, []);
      assert frac + [] == frac;
      DecimalTextValue(whole);
    }
    ParseFloatSign(body);
    if negative {
      assert ParseFloat(Normalize(s)) == Finite(-amount);
    } else {
      assert Normalize(s) == body;
      assert body[0] == w[0] && IsDigit(w[0]);
      assert ParseFloat(body) == ParseUnsigned(body);
    }
  }

  /** Normalising the formatted text replaces its decimal comma by a point and changes nothing else. */
  lemma NormalizeFormatted(s: seq<char>, negative: bool, w: seq<char>, frac: seq<char>)
    requires AllDigits(w)
    requires StripForeign(s) == (if negative then ['-'] else []) + w + [','] + frac
    ensures Normalize(s) == (if negative then ['-'] else []) + (w + (['.'] + frac))
  {
    var sign: seq<char> := if negative then ['-'] else [];
    assert ',' !in sign + w by {
      forall j | 0 <= j < |sign + w| ensures (sign + w)[j] != ',' {
        if j >= |sign| { assert (sign + w)[j] == w[j - |sign|]; assert IsDigit(w[j - |sign|]); }
      }
    }
    assert sign + w + [','] + frac == (sign + w) + ([','] + frac);
    FirstCommaSkips(sign + w, [','] + frac);
  }

  /** The first comma is the first one after a run without commas. */
  lemma {:induction false} FirstCommaSkips(w: seq<char>, rest: seq<char>)
    requires ',' !in w
    ensures FirstCommaToPoint(w + rest) == w + FirstCommaToPoint(rest)
  {
    if w == [] {
      assert w + rest == rest;
    } else {
      assert (w + rest)[0] == w[0];
      assert (w + rest)[1..] == w[1..] + rest;
      FirstCommaSkips(w[1..], rest);
      assert w + FirstCommaToPoint(rest) == [w[0]] + (w[1..] + FirstCommaToPoint(rest));
    }
  }

  /** Digits followed by anything but a digit or a point read as that whole number. */
  lemma ParseUnsignedWhole(w: seq<char>, tail: seq<char>)
    requires |w| >= 1 && AllDigits(w)
    requires tail == [] || (!IsDigit(tail[0]) && tail[0] != '.')
    ensures ParseUnsigned(w + tail) == Finite(DigitsValue(w) as real)
  {
    var u := w + tail;
    assert LeadingDigits(u) == |w| by {
      LeadingDigitsStop(w, tail);
    }
    var rest := u[|w|..];
    assert u[..|w|] == w && rest == tail;
    assert !(|rest| > 0 && rest[0] == '.');
    NoFractionDigits();
  }

  /** An empty run of fraction digits adds nothing. */
  lemma NoFractionDigits()
    ensures FractionValue([]) == 0.0
  {
    assert DigitsValue([]) == 0 && Pow10(0) == 1;
  }

  /**
   * Digits, a point and digits, followed by anything but a digit, read as
   * whole part plus fraction; either digit run may be empty, not both.
   */
  lemma ParseUnsignedDecimal(w: seq<char>, f: seq<char>, tail: seq<char>)
    requires AllDigits(w) && AllDigits(f) && |w| + |f| >= 1
    requires tail == [] || !IsDigit(tail[0])
    ensures ParseUnsigned(w + (['.'] + (f + tail))) == Finite(DigitsValue(w) as real + FractionValue(f))
  {
    var u := w + (['.'] + (f + tail));
    var rest := u[|w|..];
    assert LeadingDigits(u) == |w| && u[..|w|] == w by {
      LeadingDigitsStop(w, ['.'] + (f + tail));
    }
    assert rest[1..][..LeadingDigits(rest[1..])] == f by {
      assert rest == ['.'] + (f + tail);
      assert rest[1..] == f + tail;
      LeadingDigitsStop(f, tail);
    }
  }

  /** A leading minus sign negates whatever the rest reads as, and keeps NaN as NaN. */
  lemma ParseFloatSign(t: seq<char>)
    ensures ParseFloat(['-'] + t).NaN? <==> ParseUnsigned(t).NaN?
    ensures ParseUnsigned(t).Finite? ==> ParseFloat(['-'] + t) == Finite(-ParseUnsigned(t).value)
    ensures t == [] || t[0] != '-' ==> ParseFloat(t) == ParseUnsigned(t)
  {
    assert (['-'] + t)[1..] == t;
  }

  /** parseFloat reads digits, a point and digits as the decimal number they spell. */
  lemma ParseFloatDecimal(w: seq<char>, frac: seq<char>)
    requires |w| >= 1 && AllDigits(w) && AllDigits(frac)
    ensures ParseFloat(w + (['.'] + frac)) == Finite(DigitsValue(w) as real + FractionValue(frac))
  {
    ParseUnsignedDecimal(w, frac, []);
    assert frac + [] == frac;
    assert (w + (['.'] + frac))[0] == w[0];
  }

  /** A leading minus sign survives the filter and makes the amount negative. */
  lemma ParseNegativeAmount()
    ensures ParsePLN("-5") == Finite(-5.0)
  {
    StripForeignKeepsSurvivors("-5");
    assert FirstCommaToPoint("-5") == "-5";
    assert LeadingDigits("5") == 1;
    assert DigitsValue("5") == 5;
  }

  /** Text without a number in it reads as 0, never as NaN. */
  lemma ParseGarbage()
    ensures ParsePLN("abc") == Finite(0.0)
  {
    assert StripForeign("abc") == [];
  }

  /** A leading comma becomes a leading point, which parseFloat accepts: ",5" reads as 0.5. */
  lemma ParseLeadingComma()
    ensures ParsePLN(",5") == Finite(0.5)
  {
    assert Normalize(",5") == [] + (['.'] + (['5'] + []));
    ParseUnsignedDecimal([], ['5'], []);
    assert DigitsValue(['5']) == 5;
  }

  /** A minus sign inside the number ends it: "12-3" reads as 12. */
  lemma ParseInnerMinus()
    ensures ParsePLN("12-3") == Finite(12.0)
  {
    assert Normalize("12-3") == ['1', '2'] + ['-', '3'];
    ParseUnsignedWhole(['1', '2'], ['-', '3']);
    assert DigitsValue(['1', '2']) == 12 by {
      assert ['1', '2'][..1] == ['1'];
    }
  }

  /** A second minus sign leaves nothing parseFloat can read, so "--5" falls back to 0. */
  lemma ParseDoubleMinus()
    ensures ParsePLN("--5") == Finite(0.0)
  {
    assert Normalize("--5") == ['-'] + ['-', '5'];
    ParseFloatSign(['-', '5']);
  }
}
