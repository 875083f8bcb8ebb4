/** The number grammar of section 6 of RFC 8259, the exact value of a spelling,
    and a maximal-munch parser proved to recognise exactly that grammar. */
module NumberGrammar {
  import opened Decimals
  import opened Options

  datatype Exponent = Exponent(mark: char, sign: string, digits: string)

  datatype JsonNumber = JsonNumber(
    negative: bool, whole: string, fraction: Option<string>, exponent: Option<Exponent>)

  predicate WellFormedExponent(e: Exponent) {
    && (e.mark == 'e' || e.mark == 'E')
    && (e.sign == "" || e.sign == "+" || e.sign == "-")
    && |e.digits| > 0 && AllDigits(e.digits)
  }

  predicate WellFormed(p: JsonNumber) {
    && IsCanonical(p.whole)
    && (p.fraction.Some? ==> |p.fraction.value| > 0 && AllDigits(p.fraction.value))
    && (p.exponent.Some? ==> WellFormedExponent(p.exponent.value))
  }

  function SpellFraction(f: Option<string>): string {
    if f.Some? then "." + f.value else ""
  }

  function SpellExponent(e: Option<Exponent>): string {
    if e.Some? then [e.value.mark] + (e.value.sign + e.value.digits) else ""
  }

  function Spelling(p: JsonNumber): string {
    (if p.negative then "-" else "") + (p.whole + (SpellFraction(p.fraction) + SpellExponent(p.exponent)))
  }

  function FractionDigits(p: JsonNumber): string {
    if p.fraction.Some? then p.fraction.value else ""
  }

  /** All digits before the exponent, in order. */
  function Mantissa(p: JsonNumber): string {
    p.whole + FractionDigits(p)
  }

  function SignedExponent(p: JsonNumber): int
    requires WellFormed(p)
  {
    if p.exponent.None? then 0
    else if p.exponent.value.sign == "-" then 0 - Value(p.exponent.value.digits)
    else Value(p.exponent.value.digits)
  }

  /** The spelling stands for `mantissa * 10^shift`; it denotes the integer `n` when the two are equal. */
  predicate Denotes(p: JsonNumber, n: int)
    requires WellFormed(p)
  {
    var m := if p.negative then 0 - Value(Mantissa(p)) else Value(Mantissa(p));
    var shift := SignedExponent(p) - |FractionDigits(p)|;
    if shift >= 0 then n == m * Power10(shift) else n * Power10(-shift) == m
  }

  ghost predicate DenotesInteger(token: string, n: int) {
    exists p :: WellFormed(p) && Spelling(p) == token && Denotes(p, n)
  }

  // ---- the parser ----

  predicate Starts(t: string, c: char) {
    t != "" && t[0] == c
  }

  predicate StartsWithDigit(t: string) {
    t != "" && IsDigit(t[0])
  }

  /** The longest prefix of digits. */
  function LeadingDigits(t: string): (d: string)
    ensures d <= t && AllDigits(d) && !StartsWithDigit(t[|d|..])
  {
    if StartsWithDigit(t) then [t[0]] + LeadingDigits(t[1..]) else ""
  }

  function Rest(t: string, d: string): (rest: string)
    requires d <= t
    ensures t == d + rest
  {
    t[|d|..]
  }

  /** Each stage returns what it read and what is left. */
  function ParseWhole(t: string): (r: Option<(string, string)>)
    ensures r.Some? ==> t == r.value.0 + r.value.1 && IsCanonical(r.value.0)
  {
    if Starts(t, '0') then Some(("0", t[1..]))
    else if StartsWithDigit(t) then var d := LeadingDigits(t); Some((d, Rest(t, d)))
    else None
  }

  function ParseFraction(t: string): (r: Option<(Option<string>, string)>)
    ensures r.Some? ==> t == SpellFraction(r.value.0) + r.value.1
    ensures r.Some? && r.value.0.Some? ==> |r.value.0.value| > 0 && AllDigits(r.value.0.value)
  {
    if Starts(t, '.') then
      var d := LeadingDigits(t[1..]);
      if d == "" then None else Some((Some(d), Rest(t[1..], d)))
    else Some((None, t))
  }

  function ExponentSign(t: string): (s: string)
    ensures s <= t
  {
    if Starts(t, '-') || Starts(t, '+') then [t[0]] else ""
  }

  lemma Regroup(sign: string, digits: string, rest: string)
    ensures sign + (digits + rest) == (sign + digits) + rest
  {}

  /** The sign and digits after the exponent mark. */
  function ParsePower(t: string): (r: Option<(string, string, string)>)
    ensures r.Some? ==> t == (r.value.0 + r.value.1) + r.value.2 && |r.value.1| > 0 && AllDigits(r.value.1)
    ensures r.Some? ==> r.value.0 == "" || r.value.0 == "+" || r.value.0 == "-"
  {
    var sign := ExponentSign(t);
    var body := Rest(t, sign);
    var d := LeadingDigits(body);
    Regroup(sign, d, Rest(body, d));
    if d == "" then None else Some((sign, d, Rest(body, d)))
  }

  lemma MarkFirst(t: string, body: string, rest: string)
    requires t != "" && t[1..] == body + rest
    ensures t == ([t[0]] + body) + rest
  {
    assert t == [t[0]] + t[1..];
  }

  function ParseExponent(t: string): (r: Option<(Option<Exponent>, string)>)
    ensures r.Some? ==> t == SpellExponent(r.value.0) + r.value.1
    ensures r.Some? && r.value.0.Some? ==> WellFormedExponent(r.value.0.value)
  {
    if Starts(t, 'e') || Starts(t, 'E') then
      var power := ParsePower(t[1..]);
      if power.None? then None
      else
        MarkFirst(t, power.value.0 + power.value.1, power.value.2);
        Some((Some(Exponent(t[0], power.value.0, power.value.1)), power.value.2))
    else Some((None, t))
  }

  function Unsigned(t: string): string {
    if Starts(t, '-') then t[1..] else t
  }

  function ParseEnd(negative: bool, whole: string, fraction: Option<string>, t: string): Option<JsonNumber> {
    var exponent := ParseExponent(t);
    if exponent.None? || exponent.value.1 != "" then None
    else Some(JsonNumber(negative, whole, fraction, exponent.value.0))
  }

  function ParseTail(negative: bool, whole: string, t: string): Option<JsonNumber> {
    var fraction := ParseFraction(t);
    if fraction.None? then None
    else ParseEnd(negative, whole, fraction.value.0, fraction.value.1)
  }

  function Parse(t: string): (r: Option<JsonNumber>) {
    var whole := ParseWhole(Unsigned(t));
    if whole.None? then None
    else ParseTail(Starts(t, '-'), whole.value.0, whole.value.1)
  }

  lemma ParseSound(t: string)
    requires Parse(t).Some?
    ensures WellFormed(Parse(t).value) && Spelling(Parse(t).value) == t
  {
    var whole := ParseWhole(Unsigned(t)).value;
    var fraction := ParseFraction(whole.1).value;
    var exponent := ParseExponent(fraction.1).value;
    assert exponent.1 == "" && fraction.1 == SpellExponent(exponent.0) + "" == SpellExponent(exponent.0);
    assert t == (if Starts(t, '-') then "-" else "") + Unsigned(t);
  }

  lemma {:induction false} LeadingDigitsWhole(d: string, rest: string)
    requires AllDigits(d) && !StartsWithDigit(rest)
    ensures LeadingDigits(d + rest) == d && Rest(d + rest, d) == rest
  {
    if d == "" {
      assert d + rest == rest;
    } else {
      LeadingDigitsWhole(d[1..], rest);
      assert (d + rest)[1..] == d[1..] + rest;
    }
  }

  lemma ParsePowerComplete(sign: string, digits: string)
    requires (sign == "" || sign == "+" || sign == "-") && |digits| > 0 && AllDigits(digits)
    ensures ParsePower(sign + digits) == Some((sign, digits, ""))
  {
    assert ExponentSign(sign + digits) == sign;
    assert Rest(sign + digits, sign) == digits;
    LeadingDigitsWhole(digits, "");
    assert digits + "" == digits;
  }

  lemma ParseExponentComplete(e: Option<Exponent>)
    requires e.Some? ==> WellFormedExponent(e.value)
    ensures ParseExponent(SpellExponent(e)) == Some((e, ""))
  {
    if e.Some? {
      ParsePowerComplete(e.value.sign, e.value.digits);
      assert SpellExponent(e)[1..] == e.value.sign + e.value.digits;
    }
  }

  lemma ParseFractionComplete(f: Option<string>, rest: string)
    requires f.Some? ==> |f.value| > 0 && AllDigits(f.value)
    requires rest != "" ==> rest[0] == 'e' || rest[0] == 'E'
    ensures ParseFraction(SpellFraction(f) + rest) == Some((f, rest))
  {
    var t := SpellFraction(f) + rest;
    if f.Some? {
      assert t[1..] == f.value + rest;
      LeadingDigitsWhole(f.value, rest);
    } else {
      assert t == rest;
    }
  }

  lemma ParseWholeComplete(whole: string, rest: string)
    requires IsCanonical(whole) && !StartsWithDigit(rest)
    ensures ParseWhole(whole + rest) == Some((whole, rest))
  {
    LeadingDigitsWhole(whole, rest);
    if whole[0] == '0' {
      assert (whole + rest)[1..] == rest;
    }
  }

  lemma ParseComplete(p: JsonNumber)
    requires WellFormed(p)
    ensures Parse(Spelling(p)) == Some(p)
  {
    var tail := SpellExponent(p.exponent);
    var middle := SpellFraction(p.fraction) + tail;
    var body := p.whole + middle;
    ParseWholeComplete(p.whole, middle);
    ParseFractionComplete(p.fraction, tail);
    ParseExponentComplete(p.exponent);
    if p.negative {
      assert Spelling(p)[1..] == body;
    } else {
      assert Spelling(p) == body;
    }
    assert Unsigned(Spelling(p)) == body;
  }

  /** The parser accepts exactly the grammar, and the grammar is unambiguous. */
  lemma ParseExact(t: string, p: JsonNumber)
    ensures Parse(t) == Some(p) <==> WellFormed(p) && Spelling(p) == t
  {
    if Parse(t) == Some(p) { ParseSound(t); }
    if WellFormed(p) && Spelling(p) == t { ParseComplete(p); }
  }
}
