/** The decimal-token normaliser of the Rust runtime: an index-driven scan with a
    saturating exponent, proved to compute the exact integer a token denotes. */
module ExactNumbers {
  import opened Decimals
  import opened Options
  import opened NumberGrammar

  /** The largest text the runtime parses is a manifest of this many bytes. */
  const MAX_TOKEN_BYTES := 262_144
  const EXPONENT_CEILING := 1_000_000

  /** `n` is exactly `m * 10^scale`, with the sign. */
  predicate Scaled(negative: bool, m: nat, scale: int, n: int) {
    var signed := if negative then 0 - m else m;
    if scale >= 0 then n == signed * Power10(scale) else n * Power10(-scale) == signed
  }

  /** What the normaliser ought to return: the canonical decimal of the safe
      integer the token denotes, if it denotes one. */
  ghost function Canonical(token: string): (r: Option<string>) {
    if n :| DenotesInteger(token, n) && Safe(n) then Some(Decimal(n)) else None
  }

  lemma DenotesParsed(token: string, n: int)
    ensures DenotesInteger(token, n) <==>
              Parse(token).Some? && WellFormed(Parse(token).value) && Denotes(Parse(token).value, n)
  {
    forall p {
      ParseExact(token, p);
    }
    if Parse(token).Some? {
      ParseExact(token, Parse(token).value);
    }
  }

  // ---- scaling a digit string ----

  lemma CancelPower(a: int, b: int, k: nat)
    requires a * Power10(k) == b * Power10(k)
    ensures a == b
  {
    assert (a - b) * Power10(k) == 0;
  }

  lemma PowerSixteen()
    ensures Power10(16) == 10_000_000_000_000_000
  {
    assert Power10(4) == 10_000;
    PowerAdd(4, 4);
    PowerAdd(8, 8);
  }

  lemma ProductAtLeast(a: nat, b: nat, c: nat, d: nat)
    requires a <= b && c <= d
    ensures a * c <= b * d
  {}

  /** Scaling up past sixteen digits leaves the safe range. */
  lemma ScaleUpUnsafe(negative: bool, sig: string, scale: int, n: int)
    requires |sig| > 0 && AllDigits(sig) && sig[0] != '0'
    requires scale >= 0 && |sig| + scale > 16
    ensures !(Scaled(negative, Value(sig), scale, n) && Safe(n))
  {
    if Scaled(negative, Value(sig), scale, n) {
      ValueAbovePower(sig);
      var k := |sig| - 1 + scale;
      PowerAdd(|sig| - 1, scale);
      ProductAtLeast(Power10(|sig| - 1), Value(sig), Power10(scale), Power10(scale));
      PowerMonotone(16, k);
      PowerSixteen();
      assert (0 - Value(sig)) * Power10(scale) == 0 - Value(sig) * Power10(scale);
    }
  }

  /** Scaling down by more than the digits there are cannot be integral. */
  lemma ScaleDownTooFar(negative: bool, sig: string, scale: int, n: int)
    requires |sig| > 0 && AllDigits(sig) && sig[0] != '0'
    requires scale < 0 && -scale > |sig|
    ensures !Scaled(negative, Value(sig), scale, n)
  {
    if Scaled(negative, Value(sig), scale, n) {
      ValueAbovePower(sig);
      ValueBelowPower(sig);
      PowerMonotone(|sig|, -scale);
      var size := if n < 0 then -n else n;
      assert size * Power10(-scale) == Value(sig) by {
        assert (-n) * Power10(-scale) == 0 - n * Power10(-scale);
      }
      if size > 0 { ProductAtLeast(1, size, Power10(-scale), Power10(-scale)); }
    }
  }

  /** Scaling down is integral exactly when the digits dropped are zeros, and then drops them. */
  lemma ScaleDown(negative: bool, sig: string, remove: nat, n: int)
    requires AllDigits(sig) && 0 < remove <= |sig|
    ensures var kept := sig[..|sig| - remove];
            Scaled(negative, Value(sig), 0 - remove, n) <==>
            Value(sig[|sig| - remove..]) == 0 && n == (if negative then 0 - Value(kept) else Value(kept))
  {
    var kept, dropped := sig[..|sig| - remove], sig[|sig| - remove..];
    assert sig == kept + dropped;
    ValueConcat(kept, dropped);
    ValueBelowPower(dropped);
    var size := if negative then -n else n;
    assert (-n) * Power10(remove) == 0 - n * Power10(remove);
    assert Scaled(negative, Value(sig), 0 - remove, n) <==>
             size * Power10(remove) == Value(kept) * Power10(remove) + Value(dropped);
    Quotient(size, Value(kept), Power10(remove), Value(dropped));
  }

  lemma Quotient(a: int, b: nat, p: nat, rest: nat)
    requires rest < p
    ensures a * p == b * p + rest <==> rest == 0 && a == b
  {
    if a > b {
      ProductAtLeast(b + 1, a, p, p);
      assert (b + 1) * p == b * p + p;
    } else if a < b {
      ProductAtLeast(1, b - a, p, p);
      assert a * p == b * p - (b - a) * p;
    }
  }

  lemma {:induction false} ZerosValue(z: string)
    requires forall i :: 0 <= i < |z| ==> z[i] == '0'
    ensures AllDigits(z) && Value(z) == 0
  {
    ZeroDigits(z);
  }

  lemma ScaleUp(sig: string, scale: nat, zeros: string)
    requires AllDigits(sig) && |zeros| == scale && forall i :: 0 <= i < scale ==> zeros[i] == '0'
    ensures AllDigits(sig + zeros) && Value(sig + zeros) == Value(sig) * Power10(scale)
  {
    ZerosValue(zeros);
    ValueConcat(sig, zeros);
  }

  /** More than sixteen digits never fit. */
  lemma DigitsOverflow(s: string)
    requires |s| > 16 && AllDigits(s) && s[0] != '0'
    ensures Value(s) > MAX_SAFE_INTEGER
  {
    hide Value, Power10;
    ValueAbovePower(s);
    PowerMonotone(16, |s| - 1);
    PowerSixteen();
  }

  lemma DigitsAndSafety(s: string)
    requires |s| > 0 && AllDigits(s) && s[0] != '0'
    ensures |s| > 16 ==> Value(s) > MAX_SAFE_INTEGER
    ensures Decimal(Value(s)) == s && Decimal(0 - Value(s)) == "-" + s
  {
    hide Value, Power10, Numeral;
    ValueAbovePower(s);
    CanonicalIsNumeral(s);
    if |s| > 16 { DigitsOverflow(s); }
  }

  /** The second half of `exact_number`: shift the significant digits by `scale`. */
  method Rescale(negative: bool, significant: string, scale: int) returns (r: Option<string>)
    requires |significant| > 0 && AllDigits(significant) && significant[0] != '0'
    ensures forall n :: Scaled(negative, Value(significant), scale, n) && Safe(n) ==> r == Some(Decimal(n))
    ensures r.Some? ==> exists n :: Scaled(negative, Value(significant), scale, n) && Safe(n)
  {
    var integer := significant;
    if scale < 0 {
      var remove := -scale;
      if remove > |integer| {
        forall n { ScaleDownTooFar(negative, significant, scale, n); }
        return None;
      }
      var dropped := integer[|integer| - remove..];
      forall n
        ensures Scaled(negative, Value(significant), scale, n) <==>
                Value(dropped) == 0 && n == (if negative then 0 - Value(integer[..|integer| - remove])
                                             else Value(integer[..|integer| - remove]))
      {
        ScaleDown(negative, significant, remove, n);
      }
      ZeroDigits(dropped);
      if !(forall i :: 0 <= i < |dropped| ==> dropped[i] == '0') {
        return None;
      }
      integer := integer[..|integer| - remove];
    } else {
      if |integer| + scale > 16 {
        forall n { ScaleUpUnsafe(negative, significant, scale, n); }
        return None;
      }
      var zeros := seq(scale, _ => '0');
      ScaleUp(significant, scale, zeros);
      integer := integer + zeros;
      assert (0 - Value(significant)) * Power10(scale) == 0 - Value(significant) * Power10(scale);
    }
    ghost var value := if negative then 0 - Value(integer) else Value(integer);
    assert forall n :: Scaled(negative, Value(significant), scale, n) <==> n == value;
    DigitsAndSafety(integer);
    if |integer| > 16 || Value(integer) > MAX_SAFE_INTEGER {
      return None;
    }
    r := Some(if negative then "-" + integer else integer);
    assert Scaled(negative, Value(significant), scale, value) && Safe(value);
  }

  // ---- the scan ----

  function TrimZeros(s: string): (t: string)
    ensures |t| <= |s| && (t != "" ==> t[0] != '0')
  {
    if s != "" && s[0] == '0' then TrimZeros(s[1..]) else s
  }

  lemma {:induction false} TrimZerosValue(s: string)
    requires AllDigits(s)
    ensures AllDigits(TrimZeros(s)) && Value(TrimZeros(s)) == Value(s)
  {
    if s != "" && s[0] == '0' {
      TrimZerosValue(s[1..]);
      assert s == s[..1] + s[1..];
      ValueConcat(s[..1], s[1..]);
      ZeroDigits(s[..1]);
    }
  }

  function Clip(exponent: int): int {
    if exponent > EXPONENT_CEILING then EXPONENT_CEILING
    else if exponent < -EXPONENT_CEILING then -EXPONENT_CEILING
    else exponent
  }

  /** Within the byte bound no safe integer is gained or lost by clipping the exponent. */
  lemma ClippingHarmless(negative: bool, sig: string, fractional: nat, exponent: int, n: int)
    requires |sig| > 0 && AllDigits(sig) && sig[0] != '0'
    requires |sig| <= MAX_TOKEN_BYTES && fractional <= MAX_TOKEN_BYTES && Safe(n)
    ensures Scaled(negative, Value(sig), exponent - fractional, n)
       <==> Scaled(negative, Value(sig), Clip(exponent) - fractional, n)
  {
    if exponent > EXPONENT_CEILING {
      ScaleUpUnsafe(negative, sig, exponent - fractional, n);
      ScaleUpUnsafe(negative, sig, Clip(exponent) - fractional, n);
    } else if exponent < -EXPONENT_CEILING {
      ScaleDownTooFar(negative, sig, exponent - fractional, n);
      ScaleDownTooFar(negative, sig, Clip(exponent) - fractional, n);
    }
  }

  /** The value of a spelling once its exponent is clipped. */
  predicate DenotesClipped(p: JsonNumber, n: int)
    requires WellFormed(p)
  {
    Scaled(p.negative, Value(Mantissa(p)), Clip(SignedExponent(p)) - |FractionDigits(p)|, n)
  }

  ghost predicate DenotesClippedInteger(token: string, n: int) {
    exists p :: WellFormed(p) && Spelling(p) == token && DenotesClipped(p, n)
  }

  /** Where the run of digits at `at` ends. */
  function RunEnd(token: string, at: nat): (end: nat)
    requires at <= |token|
    ensures at <= end <= |token|
    decreases |token| - at
  {
    if at < |token| && IsDigit(token[at]) then RunEnd(token, at + 1) else at
  }

  lemma {:induction false} RunIsLeadingDigits(token: string, at: nat)
    requires at <= |token|
    ensures LeadingDigits(token[at..]) == token[at..RunEnd(token, at)]
    ensures Rest(token[at..], token[at..RunEnd(token, at)]) == token[RunEnd(token, at)..]
    decreases |token| - at
  {
    var end := RunEnd(token, at);
    if at < |token| && IsDigit(token[at]) {
      RunIsLeadingDigits(token, at + 1);
      assert token[at..][1..] == token[at + 1..];
      assert token[at..end] == [token[at]] + token[at + 1..end];
    }
    assert token[at..][end - at..] == token[end..];
  }

  /** Consume a run of digits starting at `start`. */
  method ScanDigits(token: string, start: nat) returns (digits: string, at: nat)
    requires start <= |token|
    ensures digits == LeadingDigits(token[start..])
    ensures start <= at <= |token| && at == start + |digits| && token[at..] == Rest(token[start..], digits)
  {
    at := start;
    digits := "";
    while at < |token| && IsDigit(token[at])
      invariant start <= at <= |token| && digits == token[start..at]
      invariant RunEnd(token, at) == RunEnd(token, start)
      decreases |token| - at
    {
      digits := digits + [token[at]];
      at := at + 1;
    }
    RunIsLeadingDigits(token, start);
  }

  lemma {:induction false} ExtendValue(token: string, start: nat, at: nat)
    requires start <= at < |token| && AllDigits(token[start..at]) && IsDigit(token[at])
    ensures AllDigits(token[start..at + 1])
    ensures Value(token[start..at + 1]) == 10 * Value(token[start..at]) + DigitValue(token[at])
  {
    assert token[start..at + 1] == token[start..at] + [token[at]];
    assert token[start..at + 1][..at - start] == token[start..at];
  }

  /** Consume a run of exponent digits, clipping the value as it goes. */
  method ScanExponentDigits(token: string, start: nat) returns (exponent: nat, at: nat)
    requires start <= |token|
    ensures var d := LeadingDigits(token[start..]);
            at == start + |d| <= |token| && token[at..] == Rest(token[start..], d) && exponent == Clip(Value(d))
  {
    at := start;
    exponent := 0;
    while at < |token| && IsDigit(token[at])
      invariant start <= at <= |token| && AllDigits(token[start..at])
      invariant RunEnd(token, at) == RunEnd(token, start)
      invariant exponent == Clip(Value(token[start..at]))
      decreases |token| - at
    {
      ExtendValue(token, start, at);
      var next := exponent * 10 + DigitValue(token[at]);
      exponent := if next > EXPONENT_CEILING then EXPONENT_CEILING else next;
      at := at + 1;
    }
    RunIsLeadingDigits(token, start);
  }

  lemma Tail(token: string, at: nat)
    requires at < |token|
    ensures token[at..][0] == token[at] && token[at..][1..] == token[at + 1..]
  {}

  method ScanWhole(token: string, start: nat) returns (digits: Option<string>, at: nat)
    requires start <= |token|
    ensures digits.Some? ==> at <= |token| && ParseWhole(token[start..]) == Some((digits.value, token[at..]))
    ensures digits.None? ==> ParseWhole(token[start..]) == None
  {
    at := start;
    if at < |token| {
      Tail(token, at);
    }
    if at < |token| && token[at] == '0' {
      digits, at := Some("0"), at + 1;
    } else if !(at < |token| && '1' <= token[at] <= '9') {
      digits := None;
    } else {
      var run;
      run, at := ScanDigits(token, at);
      digits := Some(run);
    }
  }

  method ScanFraction(token: string, start: nat) returns (run: Option<Option<string>>, at: nat)
    requires start <= |token|
    ensures run.Some? ==> at <= |token| && ParseFraction(token[start..]) == Some((run.value, token[at..]))
    ensures run.None? ==> ParseFraction(token[start..]) == None
  {
    at, run := start, Some(None);
    if at < |token| && token[at] == '.' {
      Tail(token, at);
      var digits;
      digits, at := ScanDigits(token, at + 1);
      run := if digits == "" then None else Some(Some(digits));
    }
  }

  function Clipped(sign: string, digits: string): int
    requires AllDigits(digits)
  {
    if sign == "-" then -Clip(Value(digits)) else Clip(Value(digits))
  }

  method ScanSign(token: string, start: nat) returns (minus: bool, at: nat)
    requires start <= |token|
    ensures at <= |token| && token[at..] == Rest(token[start..], ExponentSign(token[start..]))
    ensures minus <==> ExponentSign(token[start..]) == "-"
  {
    at := start;
    minus := at < |token| && token[at] == '-';
    if at < |token| && (token[at] == '-' || token[at] == '+') {
      Tail(token, at);
      at := at + 1;
    }
  }

  /** The sign and digits after an exponent mark. */
  method ScanPower(token: string, start: nat) returns (exponent: Option<int>, at: nat)
    requires start <= |token|
    ensures at <= |token|
    ensures exponent.None? <==> ParsePower(token[start..]).None?
    ensures exponent.Some? ==> var power := ParsePower(token[start..]).value;
                               exponent.value == Clipped(power.0, power.1) && power.2 == token[at..]
  {
    var minus;
    minus, at := ScanSign(token, start);
    var begin := at;
    var size;
    size, at := ScanExponentDigits(token, at);
    var signed: int := size;
    exponent := if at == begin then None else Some(if minus then -signed else signed);
  }

  function ClippedExponent(e: Option<Exponent>): int
    requires e.Some? ==> WellFormedExponent(e.value)
  {
    if e.None? then 0 else Clipped(e.value.sign, e.value.digits)
  }

  lemma Marked(t: string, rest: string)
    requires t != "" && t[1..] == rest && (t[0] == 'e' || t[0] == 'E')
    ensures ParsePower(rest).None? <==> ParseExponent(t).None?
    ensures ParsePower(rest).Some? ==>
              var e, power := ParseExponent(t).value, ParsePower(rest).value;
              e.0.Some? && e.0.value.sign == power.0 && e.0.value.digits == power.1 && e.1 == power.2
  {}

  method ScanExponent(token: string, start: nat) returns (exponent: Option<int>, at: nat)
    requires start <= |token|
    ensures at <= |token|
    ensures exponent.None? <==> ParseExponent(token[start..]).None?
    ensures exponent.Some? ==> var e := ParseExponent(token[start..]).value;
                               exponent.value == ClippedExponent(e.0) && e.1 == token[at..]
  {
    at := start;
    if at < |token| && (token[at] == 'e' || token[at] == 'E') {
      exponent, at := ScanPower(token, at + 1);
      Marked(token[start..], token[start + 1..]);
    } else {
      exponent := Some(0);
    }
  }

  datatype Scanned = Scanned(negative: bool, digits: string, exponent: int, fractional: nat)

  /** The pieces the scan is meant to find. */
  ghost predicate Finds(n: Scanned, p: JsonNumber) {
    && (p.exponent.Some? ==> WellFormedExponent(p.exponent.value))
    && n.negative == p.negative && n.digits == Mantissa(p)
    && n.exponent == ClippedExponent(p.exponent) && n.fractional == |FractionDigits(p)|
  }

  method ScanTail(token: string, start: nat, negative: bool, whole: string) returns (r: Option<Scanned>)
    requires start <= |token|
    ensures var p := ParseTail(negative, whole, token[start..]);
            (r.Some? <==> p.Some?) && (r.Some? ==> Finds(r.value, p.value))
  {
    var fraction, at := ScanFraction(token, start);
    if fraction.None? {
      return None;
    }
    ghost var rest := token[at..];
    assert ParseTail(negative, whole, token[start..]) == ParseEnd(negative, whole, fraction.value, rest);
    var exponent;
    exponent, at := ScanExponent(token, at);
    assert at == |token| <==> token[at..] == "";
    if exponent.None? || at != |token| {
      return None;
    }
    var run := if fraction.value.Some? then fraction.value.value else "";
    r := Some(Scanned(negative, whole + run, exponent.value, |run|));
  }

  /** The grammatical half: the pieces of the token, or nothing when it is not a number. */
  method ScanNumber(token: string) returns (r: Option<Scanned>)
    ensures (r.Some? <==> Parse(token).Some?) && (r.Some? ==> Finds(r.value, Parse(token).value))
  {
    var at := if |token| > 0 && token[0] == '-' then 1 else 0;
    var negative := at == 1;
    assert token[at..] == Unsigned(token);
    var whole;
    whole, at := ScanWhole(token, at);
    if whole.None? {
      return None;
    }
    r := ScanTail(token, at, negative, whole.value);
  }

  /** `exact_number`: on every token of bounded size it succeeds exactly on the spellings of safe integers and
      returns their canonical decimal; beyond the bound it does so for the value with the exponent clipped. */
  method ExactNumber(token: string) returns (r: Option<string>)
    ensures r.Some? <==> exists n :: DenotesClippedInteger(token, n) && Safe(n)
    ensures forall n :: DenotesClippedInteger(token, n) && Safe(n) ==> r == Some(Decimal(n))
    ensures |token| <= MAX_TOKEN_BYTES ==> (r.Some? <==> exists n :: DenotesInteger(token, n) && Safe(n))
    ensures |token| <= MAX_TOKEN_BYTES ==> forall n :: DenotesInteger(token, n) && Safe(n) ==> r == Some(Decimal(n))
    ensures |token| <= MAX_TOKEN_BYTES ==> r == Canonical(token)
  {
    var scanned := ScanNumber(token);
    r := None;
    if scanned.Some? {
      r := ShiftScanned(scanned.value, token);
    }
    ConcludeClipped(token, r);
    if |token| <= MAX_TOKEN_BYTES { Conclude(token, r); }
  }

  /** What the scan and the shift establish about the parsed token. */
  ghost predicate Computes(token: string, r: Option<string>) {
    if Parse(token).None? then r == None
    else
      && WellFormed(Parse(token).value)
      && (r.Some? ==> exists n :: DenotesClipped(Parse(token).value, n) && Safe(n))
      && (forall n :: DenotesClipped(Parse(token).value, n) && Safe(n) ==> r == Some(Decimal(n)))
  }

  lemma ClippedParsed(token: string, n: int)
    ensures DenotesClippedInteger(token, n) <==>
              Parse(token).Some? && WellFormed(Parse(token).value) && DenotesClipped(Parse(token).value, n)
  {
    hide DenotesClipped, Spelling, Parse;
    forall p {
      ParseExact(token, p);
    }
    if Parse(token).Some? {
      ParseExact(token, Parse(token).value);
    }
  }

  lemma ConcludeClipped(token: string, r: Option<string>)
    requires Computes(token, r)
    ensures r.Some? <==> exists n :: DenotesClippedInteger(token, n) && Safe(n)
    ensures forall n :: DenotesClippedInteger(token, n) && Safe(n) ==> r == Some(Decimal(n))
  {
    hide DenotesClipped, DenotesClippedInteger, Parse, Decimal;
    if r.Some? {
      var n :| DenotesClipped(Parse(token).value, n) && Safe(n);
      ClippedParsed(token, n);
    }
    forall n | DenotesClippedInteger(token, n) && Safe(n) ensures r == Some(Decimal(n)) {
      ClippedParsed(token, n);
    }
  }

  /** On a bounded token clipping changes nothing. */
  lemma ClippedExact(token: string, n: int)
    requires |token| <= MAX_TOKEN_BYTES && Safe(n)
    ensures DenotesClippedInteger(token, n) <==> DenotesInteger(token, n)
  {
    hide DenotesClipped, Denotes, DenotesClippedInteger, DenotesInteger, Parse;
    ClippedParsed(token, n);
    DenotesParsed(token, n);
    if Parse(token).Some? {
      ParseSound(token);
      MantissaBounded(Parse(token).value);
      SpellingExact(Parse(token).value, n);
    }
  }

  lemma SpellingExact(p: JsonNumber, n: int)
    requires WellFormed(p) && |Mantissa(p)| <= MAX_TOKEN_BYTES && AllDigits(Mantissa(p))
    requires |FractionDigits(p)| <= |Mantissa(p)| && Safe(n)
    ensures DenotesClipped(p, n) <==> Denotes(p, n)
  {
    if Value(Mantissa(p)) == 0 {
      ZeroScaled(p.negative, SignedExponent(p) - |FractionDigits(p)|, n);
      ZeroScaled(p.negative, Clip(SignedExponent(p)) - |FractionDigits(p)|, n);
    } else {
      var significant := TrimZeros(Mantissa(p));
      TrimZerosValue(Mantissa(p));
      ClippingHarmless(p.negative, significant, |FractionDigits(p)|, SignedExponent(p), n);
    }
  }

  lemma ZeroScaled(negative: bool, scale: int, n: int)
    ensures Scaled(negative, 0, scale, n) <==> n == 0
  {
    if scale < 0 && n * Power10(-scale) == 0 { CancelPower(n, 0, -scale); }
  }

  lemma Conclude(token: string, r: Option<string>)
    requires Computes(token, r) && |token| <= MAX_TOKEN_BYTES
    ensures r.Some? <==> exists n :: DenotesInteger(token, n) && Safe(n)
    ensures forall n :: DenotesInteger(token, n) && Safe(n) ==> r == Some(Decimal(n))
    ensures r == Canonical(token)
  {
    hide DenotesClippedInteger, DenotesInteger, Computes, Decimal;
    ConcludeClipped(token, r);
    forall n | Safe(n) ensures DenotesClippedInteger(token, n) <==> DenotesInteger(token, n) {
      ClippedExact(token, n);
    }
    if r.Some? {
      var n :| DenotesClippedInteger(token, n) && Safe(n);
      assert DenotesInteger(token, n);
    }
  }

  lemma ClippedSigned(p: JsonNumber)
    requires WellFormed(p)
    ensures ClippedExponent(p.exponent) == Clip(SignedExponent(p))
  {
    hide Value;
  }

  method ShiftScanned(scanned: Scanned, ghost token: string) returns (r: Option<string>)
    requires Parse(token).Some? && Finds(scanned, Parse(token).value)
    ensures Computes(token, r)
  {
    hide Parse, Value, Mantissa, FractionDigits, Spelling, SignedExponent, ClippedExponent, Clip, DenotesClipped,
         WellFormed, Decimal;
    ParseSound(token);
    MantissaBounded(Parse(token).value);
    ClippedSigned(Parse(token).value);
    r := ShiftDigits(scanned.negative, scanned.digits, scanned.exponent, scanned.fractional, Parse(token).value);
  }

  lemma MantissaBounded(p: JsonNumber)
    requires WellFormed(p)
    ensures AllDigits(Mantissa(p)) && |Mantissa(p)| <= |Spelling(p)| && |FractionDigits(p)| <= |Mantissa(p)|
  {}

  /** Drop leading zeros, place the decimal point, and range-check. */
  method ShiftDigits(negative: bool, digits: string, exponent: int, fractional: nat, ghost p: JsonNumber)
    returns (r: Option<string>)
    requires WellFormed(p) && AllDigits(Mantissa(p))
    requires p.negative == negative && Mantissa(p) == digits && |FractionDigits(p)| == fractional <= |digits|
    requires exponent == Clip(SignedExponent(p))
    ensures r.Some? ==> exists n :: DenotesClipped(p, n) && Safe(n)
    ensures forall n :: DenotesClipped(p, n) && Safe(n) ==> r == Some(Decimal(n))
  {
    var significant := TrimZeros(digits);
    TrimZerosValue(digits);
    if significant == "" {
      forall n ensures DenotesClipped(p, n) <==> n == 0 { ZeroScaled(negative, exponent - fractional, n); }
      assert DenotesClipped(p, 0);
      return Some("0");
    }
    r := Rescale(negative, significant, exponent - fractional);
  }

  // ---- a token beyond the bound ----

  function Zeros(n: nat): (z: string)
    ensures |z| == n && forall i :: 0 <= i < n ==> z[i] == '0'
  {
    seq(n, _ => '0')
  }

  /** 1 spelt with a million and one fraction digits: a million zeros, a one, and an exponent to match. */
  ghost function LongOne(): JsonNumber {
    JsonNumber(false, "0", Some(Zeros(EXPONENT_CEILING) + "1"), Some(Exponent('e', "", "1000001")))
  }

  lemma OneAfterZeros(n: nat)
    ensures AllDigits(Zeros(n) + "1") && AllDigits("0" + (Zeros(n) + "1")) && Value("0" + (Zeros(n) + "1")) == 1
  {
    var zeros := "0" + Zeros(n);
    assert zeros + "1" == "0" + (Zeros(n) + "1");
    ZeroDigits(zeros);
    ValueConcat(zeros, "1");
    assert "1"[..0] == "" && Value("1") == 1;
    assert 0 * Power10(1) == 0;
  }

  lemma MillionAndOne()
    ensures AllDigits("1000001") && Value("1000001") == EXPONENT_CEILING + 1
  {
    assert "1"[..0] == "" && Value("1") == 1;
    assert "10"[..1] == "1" && Value("10") == 10;
    assert "100"[..2] == "10" && Value("100") == 100;
    assert "1000"[..3] == "100" && Value("1000") == 1_000;
    assert "10000"[..4] == "1000" && Value("10000") == 10_000;
    assert "100000"[..5] == "10000" && Value("100000") == 100_000;
    assert "1000001"[..6] == "100000";
  }

  lemma LongOneShape()
    ensures WellFormed(LongOne()) && Mantissa(LongOne()) == "0" + (Zeros(EXPONENT_CEILING) + "1")
    ensures SignedExponent(LongOne()) == EXPONENT_CEILING + 1 && |FractionDigits(LongOne())| == EXPONENT_CEILING + 1
  {
    hide Value, Zeros;
    OneAfterZeros(EXPONENT_CEILING);
    MillionAndOne();
  }

  lemma DenotesOne(p: JsonNumber)
    requires WellFormed(p) && !p.negative && Value(Mantissa(p)) == 1 && SignedExponent(p) == |FractionDigits(p)|
    ensures Denotes(p, 1)
  {
    hide Value, Mantissa, SignedExponent;
    assert Power10(0) == 1;
  }

  lemma ClippedTenth(p: JsonNumber, n: int)
    requires WellFormed(p) && !p.negative && Value(Mantissa(p)) == 1
    requires Clip(SignedExponent(p)) + 1 == |FractionDigits(p)|
    ensures !DenotesClipped(p, n)
  {
    hide Value, Mantissa, SignedExponent;
    assert Power10(1) == 10;
  }

  /** Beyond the bound clipping loses a value: this spelling denotes 1 and is refused, since with the exponent
      clipped it denotes no integer. */
  lemma ClippingNeedsBound()
    ensures var token := Spelling(LongOne());
            DenotesInteger(token, 1) && Safe(1) && forall n :: !DenotesClippedInteger(token, n)
  {
    hide Value, Zeros, Mantissa, Spelling, WellFormed, SignedExponent, FractionDigits, LongOne, Denotes, DenotesClipped,
         DenotesClippedInteger, Parse;
    var p := LongOne();
    LongOneShape();
    OneAfterZeros(EXPONENT_CEILING);
    LongOnePositive();
    DenotesOne(p);
    ParseExact(Spelling(p), p);
    forall n ensures !DenotesClippedInteger(Spelling(p), n) {
      ClippedTenth(p, n);
      ClippedParsed(Spelling(p), n);
    }
  }

  lemma LongOnePositive()
    ensures !LongOne().negative
  {}
}
