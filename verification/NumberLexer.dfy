/** The pass that rewrites every number token of a JSON text to its canonical
    decimal before the decoder sees it, leaving every other byte alone. */
module NumberLexer {
  import opened Decimals
  import opened Options
  import opened NumberGrammar
  import opened ExactNumbers

  /** A text is a run of string literals, number tokens and single other characters. */
  datatype Segment = Literal(text: string) | Number(text: string) | Other(text: string)

  predicate IsDelimiter(c: char) {
    c in [' ', '\t', '\r', '\n', ',', ']', '}', ':', '[', '{', '"']
  }

  predicate StartsNumber(c: char) {
    IsDigit(c) || c == '-'
  }

  /** One step of the scan inside a string literal: where it moves, and whether the literal closed. */
  function LiteralStep(t: string, at: nat): (r: (nat, bool))
    requires at < |t|
    ensures at < r.0 <= |t|
  {
    if t[at] == '\\' then (if at + 2 <= |t| then at + 2 else |t|, false)
    else (at + 1, t[at] == '"')
  }

  /** Where the string literal being scanned at `at` ends. */
  function LiteralEnd(t: string, at: nat): (end: nat)
    requires at <= |t|
    ensures at <= end <= |t| && (at < |t| ==> at < end)
    decreases |t| - at
  {
    if at == |t| then at
    else
      var (next, closed) := LiteralStep(t, at);
      if closed then next else LiteralEnd(t, next)
  }

  function TokenEnd(t: string, at: nat): (end: nat)
    requires at <= |t|
    ensures at <= end <= |t|
    ensures forall i :: at <= i < end ==> !IsDelimiter(t[i])
    ensures end < |t| ==> IsDelimiter(t[end])
    decreases |t| - at
  {
    if at < |t| && !IsDelimiter(t[at]) then TokenEnd(t, at + 1) else at
  }

  function First(t: string): (s: Segment)
    requires t != ""
    ensures s.text != "" && s.text <= t
  {
    if t[0] == '"' then Literal(t[..LiteralEnd(t, 1)])
    else if StartsNumber(t[0]) then
      assert !IsDelimiter(t[0]);
      Number(t[..TokenEnd(t, 0)])
    else Other(t[..1])
  }

  function Lex(t: string): seq<Segment> {
    if t == "" then [] else [First(t)] + Lex(t[|First(t).text|..])
  }

  function Flatten(segments: seq<Segment>): string {
    if segments == [] then "" else segments[0].text + Flatten(segments[1..])
  }

  /** Every number token denotes a safe integer. */
  ghost predicate Accepted(segments: seq<Segment>) {
    forall s :: s in segments && s.Number? ==> Canonical(s.text).Some?
  }

  ghost function RewriteOne(s: Segment): Segment
    requires s.Number? ==> Canonical(s.text).Some?
  {
    if s.Number? then Number(Canonical(s.text).value) else s
  }

  ghost function Rewrite(segments: seq<Segment>): (r: seq<Segment>)
    requires Accepted(segments)
    ensures |r| == |segments|
    ensures forall i :: 0 <= i < |r| ==> r[i] == RewriteOne(segments[i])
  {
    seq(|segments|, i requires 0 <= i < |segments| => RewriteOne(segments[i]))
  }

  lemma FlattenCons(s: Segment, rest: seq<Segment>)
    ensures Flatten([s] + rest) == s.text + Flatten(rest)
  {
    assert ([s] + rest)[1..] == rest;
  }

  lemma {:induction false} FlattenLex(t: string)
    ensures Flatten(Lex(t)) == t
  {
    if t != "" {
      var rest := t[|First(t).text|..];
      FlattenLex(rest);
      assert Lex(t) == [First(t)] + Lex(rest);
      hide First, Lex, Flatten;
      FlattenCons(First(t), Lex(rest));
      assert t == First(t).text + rest;
    }
  }

  // ---- re-lexing the rewritten text ----

  /** A literal that closed before the end of the text closes there whatever follows. */
  lemma {:induction false} LiteralLocal(x: string, rest: string, other: string, at: nat)
    requires 1 <= at <= |x|
    requires LiteralEnd(x + rest, at) == |x| && (rest == "" <==> other == "")
    ensures LiteralEnd(x + other, at) == |x|
    decreases |x| - at
  {
    if rest == "" {
      assert x + rest == x + other;
    } else if at < |x| {
      var (next, closed) := LiteralStep(x + rest, at);
      assert LiteralStep(x + other, at) == LiteralStep(x + rest, at);
      if !closed { LiteralLocal(x, rest, other, next); }
    }
  }

  lemma {:induction false} TokenLocal(x: string, rest: string, at: nat)
    requires at <= |x| && (forall i :: 0 <= i < |x| ==> !IsDelimiter(x[i]))
    requires rest != "" ==> IsDelimiter(rest[0])
    ensures TokenEnd(x + rest, at) == |x|
    decreases |x| - at
  {
    if at < |x| { TokenLocal(x, rest, at + 1); }
  }

  /** The shape of a rewritten token: it starts like a number, holds no delimiter, and is its own rewriting. */
  ghost predicate Settled(c: string) {
    c != "" && StartsNumber(c[0]) && (forall i :: 0 <= i < |c| ==> !IsDelimiter(c[i])) && Canonical(c) == Some(c)
  }

  ghost function DecimalParts(n: int): JsonNumber {
    JsonNumber(n < 0, Numeral(if n < 0 then -n else n), None, None)
  }

  lemma DecimalSpelt(n: int)
    ensures WellFormed(DecimalParts(n)) && Spelling(DecimalParts(n)) == Decimal(n)
    ensures forall m :: Denotes(DecimalParts(n), m) <==> m == n
  {
    hide Value, Numeral;
    var size := if n < 0 then -n else n;
    NumeralValue(size);
    assert Mantissa(DecimalParts(n)) == Numeral(size);
  }

  lemma DecimalDenotes(n: int)
    ensures DenotesInteger(Decimal(n), n)
    ensures forall m :: DenotesInteger(Decimal(n), m) ==> m == n
  {
    hide Denotes, Spelling, WellFormed, Parse, Decimal;
    DecimalSpelt(n);
    ParseComplete(DecimalParts(n));
    forall m | DenotesInteger(Decimal(n), m) ensures m == n {
      DenotesParsed(Decimal(n), m);
    }
  }

  lemma DigitNoDelimiter(c: char)
    requires IsDigit(c)
    ensures !IsDelimiter(c)
  {}

  lemma SignNoDelimiter()
    ensures !IsDelimiter('-')
  {}

  lemma DecimalSettled(n: int)
    requires Safe(n)
    ensures Settled(Decimal(n))
  {
    hide Value, Numeral, DenotesInteger, IsDelimiter;
    DecimalDenotes(n);
    var s := Numeral(if n < 0 then -n else n);
    forall i | 0 <= i < |s| ensures !IsDelimiter(s[i]) { DigitNoDelimiter(s[i]); }
    SignNoDelimiter();
  }

  lemma CanonicalSettled(token: string)
    requires Canonical(token).Some?
    ensures Settled(Canonical(token).value)
  {
    var n :| DenotesInteger(token, n) && Safe(n) && Canonical(token) == Some(Decimal(n));
    DecimalSettled(n);
  }

  /** The rewritten segment is still the first one the lexer finds. */
  lemma FirstAfterRewrite(t: string, rest: string)
    requires t != "" && (First(t).Number? ==> Canonical(First(t).text).Some?)
    requires var tail := t[|First(t).text|..];
             (tail == "" <==> rest == "") && (tail != "" && IsDelimiter(tail[0]) ==> rest[0] == tail[0])
    ensures var s := RewriteOne(First(t)); s.text + rest != "" && First(s.text + rest) == s
  {
    var f := First(t);
    var tail := t[|f.text|..];
    assert t == f.text + tail;
    match f {
      case Literal(x) =>
        LiteralLocal(x, tail, rest, 1);
        assert (x + rest)[..|x|] == x;
      case Number(x) =>
        CanonicalSettled(x);
        var c := Canonical(x).value;
        TokenLocal(c, rest, 0);
        assert (c + rest)[..|c|] == c;
      case Other(x) =>
        assert (x + rest)[..1] == x;
    }
  }

  lemma LexStep(t: string)
    requires t != ""
    ensures Lex(t) == [First(t)] + Lex(t[|First(t).text|..])
  {}

  lemma RewriteTail(t: string)
    requires t != "" && Accepted(Lex(t))
    ensures Accepted(Lex(t[|First(t).text|..]))
    ensures Rewrite(Lex(t)) == [RewriteOne(First(t))] + Rewrite(Lex(t[|First(t).text|..]))
  {
    hide First, Canonical, Lex;
    var tail := t[|First(t).text|..];
    LexStep(t);
    assert forall s :: s in Lex(tail) ==> s in Lex(t);
    assert Rewrite(Lex(t)) == [RewriteOne(First(t))] + Rewrite(Lex(tail));
  }

  /** Re-lexing the rewritten text finds the same segmentation. */
  lemma {:induction false} Relex(t: string)
    requires Accepted(Lex(t))
    ensures Lex(Flatten(Rewrite(Lex(t)))) == Rewrite(Lex(t))
    ensures t == "" <==> Flatten(Rewrite(Lex(t))) == ""
    ensures t != "" && IsDelimiter(t[0]) ==> Flatten(Rewrite(Lex(t)))[0] == t[0]
  {
    if t != "" {
      var f := First(t);
      var tail := t[|f.text|..];
      RewriteTail(t);
      Relex(tail);
      var rest := Flatten(Rewrite(Lex(tail)));
      var s := RewriteOne(f);
      FirstAfterRewrite(t, rest);
      var out := s.text + rest;
      assert Rewrite(Lex(t))[1..] == Rewrite(Lex(tail));
      assert Flatten(Rewrite(Lex(t))) == out;
      assert out[|s.text|..] == rest;
    }
  }

  /** Rewriting is idempotent: its output is accepted and rewritten to itself. */
  lemma RewriteIdempotent(t: string)
    requires Accepted(Lex(t))
    ensures var out := Flatten(Rewrite(Lex(t)));
            Accepted(Lex(out)) && Flatten(Rewrite(Lex(out))) == out
  {
    var segments := Lex(t);
    var out := Rewrite(segments);
    Relex(t);
    forall i | 0 <= i < |out| && out[i].Number?
      ensures Canonical(out[i].text) == Some(out[i].text)
    {
      assert segments[i] in segments;
      CanonicalSettled(segments[i].text);
    }
    assert Rewrite(out) == out;
  }

  // ---- the pass itself ----

  /** What the pass ought to return. */
  ghost function Normalized(t: string): Option<string> {
    if Accepted(Lex(t)) then Some(Flatten(Rewrite(Lex(t)))) else None
  }

  ghost function Prepend(prefix: string, r: Option<string>): Option<string> {
    if r.None? then None else Some(prefix + r.value)
  }

  lemma PrependTwice(a: string, b: string, r: Option<string>)
    ensures Prepend(a, Prepend(b, r)) == Prepend(a + b, r)
  {
    if r.Some? { assert a + (b + r.value) == (a + b) + r.value; }
  }

  lemma NormalizedStep(t: string)
    requires t != ""
    ensures var s := First(t);
            Normalized(t) == if s.Number? && Canonical(s.text).None? then None
                             else Prepend(RewriteOne(s).text, Normalized(t[|s.text|..]))
  {
    var s := First(t);
    var tail := t[|s.text|..];
    assert Lex(t) == [s] + Lex(tail);
    assert s in Lex(t);
    if !(s.Number? && Canonical(s.text).None?) {
      assert Accepted(Lex(t)) <==> Accepted(Lex(tail)) by {
        assert forall x :: x in Lex(t) <==> x == s || x in Lex(tail);
      }
      if Accepted(Lex(t)) {
        RewriteTail(t);
        assert Rewrite(Lex(t))[1..] == Rewrite(Lex(tail));
      }
    }
  }

  /** The end of the first segment of `text[at..]`, counted from the start of the text. */
  function SegmentEnd(text: string, at: nat): (end: nat)
    requires at < |text|
    ensures at < end <= |text| && First(text[at..]).text == text[at..end]
    ensures text[at..][|text[at..end]|..] == text[end..]
  {
    at + |First(text[at..]).text|
  }

  lemma {:induction false} LiteralEndShift(t: string, at: nat, k: nat)
    requires at <= |t| && k <= |t| - at
    ensures LiteralEnd(t[at..], k) + at == LiteralEnd(t, at + k)
    decreases |t| - at - k
  {
    if at + k < |t| {
      assert t[at..][k] == t[at + k];
      var (next, closed) := LiteralStep(t[at..], k);
      assert LiteralStep(t, at + k) == (at + next, closed);
      if !closed { LiteralEndShift(t, at, next); }
    }
  }

  lemma {:induction false} TokenEndShift(t: string, at: nat, k: nat)
    requires at <= |t| && k <= |t| - at
    ensures TokenEnd(t[at..], k) + at == TokenEnd(t, at + k)
    decreases |t| - at - k
  {
    if at + k < |t| {
      assert t[at..][k] == t[at + k];
      if !IsDelimiter(t[at + k]) { TokenEndShift(t, at, k + 1); }
    }
  }

  /** Copying one segment moves its rewritten text from what remains to what is done. */
  lemma CopySegment(text: string, at: nat, prefix: string)
    requires at < |text|
    requires First(text[at..]).Number? ==> Canonical(First(text[at..]).text).Some?
    ensures Prepend(prefix, Normalized(text[at..])) ==
            Prepend(prefix + RewriteOne(First(text[at..])).text, Normalized(text[SegmentEnd(text, at)..]))
  {
    NormalizedStep(text[at..]);
    PrependTwice(prefix, RewriteOne(First(text[at..])).text, Normalized(text[SegmentEnd(text, at)..]));
  }

  /** Scan past the closing quote of the literal opened just before `start`. */
  method SkipLiteral(text: string, start: nat) returns (at: nat)
    requires start <= |text|
    ensures at == LiteralEnd(text, start)
  {
    at := start;
    while at < |text|
      invariant start <= at <= |text| && LiteralEnd(text, at) == LiteralEnd(text, start)
      decreases |text| - at
    {
      if text[at] == '\\' {
        at := if at + 2 <= |text| then at + 2 else |text|;
      } else if text[at] == '"' {
        at := at + 1;
        return;
      } else {
        at := at + 1;
      }
    }
  }

  method SkipToken(text: string, start: nat) returns (at: nat)
    requires start <= |text|
    ensures at == TokenEnd(text, start)
  {
    at := start;
    while at < |text| && !IsDelimiter(text[at])
      invariant start <= at <= |text| && TokenEnd(text, at) == TokenEnd(text, start)
      decreases |text| - at
    {
      at := at + 1;
    }
  }

  method SkipPlain(text: string, start: nat) returns (at: nat)
    requires start < |text| && !StartsNumber(text[start])
    ensures at == SegmentEnd(text, start) && !First(text[start..]).Number?
  {
    if text[start] == '"' {
      LiteralEndShift(text, start, 1);
      at := SkipLiteral(text, start + 1);
    } else {
      at := start + 1;
    }
  }

  method ReadNumber(text: string, start: nat) returns (number: Option<string>, at: nat)
    requires start < |text| && StartsNumber(text[start]) && |First(text[start..]).text| <= MAX_TOKEN_BYTES
    ensures at == SegmentEnd(text, start) && First(text[start..]).Number?
    ensures number == Canonical(First(text[start..]).text)
  {
    TokenEndShift(text, start, 0);
    at := SkipToken(text, start);
    number := ExactNumber(text[start..at]);
  }

  /** No number token exceeds the byte bound. */
  predicate ShortTokens(t: string) {
    forall s :: s in Lex(t) && s.Number? ==> |s.text| <= MAX_TOKEN_BYTES
  }

  lemma FirstKind(text: string, at: nat)
    requires at < |text|
    ensures First(text[at..]).Number? <==> StartsNumber(text[at])
  {
    assert text[at..][0] == text[at];
  }

  lemma ShortRest(text: string, at: nat)
    requires at < |text| && ShortTokens(text[at..])
    ensures First(text[at..]).Number? ==> |First(text[at..]).text| <= MAX_TOKEN_BYTES
    ensures ShortTokens(text[SegmentEnd(text, at)..])
  {
    var t := text[at..];
    assert Lex(t) == [First(t)] + Lex(text[SegmentEnd(text, at)..]);
    hide Lex, First, SegmentEnd;
    assert First(t) in Lex(t);
    assert forall s :: s in Lex(text[SegmentEnd(text, at)..]) ==> s in Lex(t);
  }

  /** `normalize_numbers`: fails exactly when some number token is not a safe integer, and otherwise
      returns the text with each number token replaced and every other segment copied. */
  method NormalizeNumbers(text: string) returns (r: Option<string>)
    requires ShortTokens(text)
    ensures r == Normalized(text) && Flatten(Lex(text)) == text
  {
    hide ShortTokens, Normalized, Lex, First, Flatten, Canonical, SegmentEnd;
    var result, at, start := "", 0, 0;
    Boundaries(text);
    FlattenLex(text);
    while at < |text|
      invariant start <= at <= |text|
      invariant Prepend(result + text[start..at], Normalized(text[at..])) == Normalized(text) && ShortTokens(text[at..])
      decreases |text| - at
    {
      ghost var before, prefix := at, result + text[start..at];
      ShortRest(text, at);
      FirstKind(text, at);
      if IsDigit(text[at]) || text[at] == '-' {
        var number, end := ReadNumber(text, at);
        if number.None? {
          NormalizedStep(text[at..]);
          return None;
        }
        CopySegment(text, at, prefix);
        result := result + text[start..at] + number.value;
        start, at := end, end;
        assert result + text[start..at] == result;
      } else {
        at := SkipPlain(text, at);
        CopySegment(text, before, prefix);
        Extend(result, text, start, before, at);
      }
    }
    assert text[start..] == text[start..at] && text[at..] == "";
    r := Some(result + text[start..]);
  }

  lemma DecimalShort(n: int)
    requires Safe(n)
    ensures |Decimal(n)| <= 17
  {
    hide Value, Numeral;
    var size := if n < 0 then -n else n;
    NumeralValue(size);
    if |Numeral(size)| > 16 { DigitsOverflow(Numeral(size)); }
  }

  lemma RewrittenShort(t: string)
    requires Accepted(Lex(t))
    ensures ShortTokens(Flatten(Rewrite(Lex(t))))
  {
    Relex(t);
    hide Lex, Flatten;
    forall i | 0 <= i < |Lex(t)| && Lex(t)[i].Number? ensures |Rewrite(Lex(t))[i].text| <= MAX_TOKEN_BYTES {
      assert Lex(t)[i] in Lex(t);
      var n :| DenotesInteger(Lex(t)[i].text, n) && Safe(n) && Canonical(Lex(t)[i].text) == Some(Decimal(n));
      DecimalShort(n);
    }
  }

  /** Normalising what was normalised changes nothing. */
  method NormalizeTwice(text: string) returns (r: Option<string>, again: Option<string>)
    requires ShortTokens(text)
    ensures r == Normalized(text) && (r.Some? ==> again == r)
  {
    hide ShortTokens, Lex, Flatten, Accepted, Rewrite;
    again := None;
    r := NormalizeNumbers(text);
    if r.Some? {
      RewrittenShort(text);
      RewriteIdempotent(text);
      again := NormalizeNumbers(r.value);
    }
  }

  lemma Boundaries(text: string)
    ensures text[0..] == text && Prepend("" + text[0..0], Normalized(text[0..])) == Normalized(text)
    ensures forall p :: Prepend(p, Normalized("")) == Some(p)
  {
    assert text[0..] == text && "" + text[0..0] == "";
    if Normalized(text).Some? { assert "" + Normalized(text).value == Normalized(text).value; }
    assert Lex("") == [] && Rewrite([]) == [] && Normalized("") == Some("");
    forall p ensures Prepend(p, Normalized("")) == Some(p) { assert p + "" == p; }
  }

  lemma Extend(result: string, text: string, start: nat, at: nat, end: nat)
    requires start <= at <= end <= |text|
    ensures result + text[start..end] == (result + text[start..at]) + text[at..end]
  {
    assert text[start..end] == text[start..at] + text[at..end];
  }
}
