/** JSON texts by their tokens, and what the number pass makes of such a text. */
module JsonTokens {
  import opened Decimals
  import opened Options
  import opened NumberGrammar
  import opened ExactNumbers
  import opened NumberLexer

  /** One character of a string literal as it is spelt: itself, or any character after a backslash. */
  datatype Piece = Plain(c: char) | Escaped(c: char)

  /** The tokens of sections 2 to 7 of RFC 8259. */
  datatype Token =
    | Text(pieces: seq<Piece>)
    | Num(number: JsonNumber)
    | Name(name: string)
    | Mark(mark: char)
    | Blank(blank: char)

  predicate PiecesOk(pieces: seq<Piece>) {
    forall i :: 0 <= i < |pieces| && pieces[i].Plain? ==> pieces[i].c != '"' && pieces[i].c != '\\'
  }

  predicate TokenOk(t: Token) {
    match t
    case Text(pieces) => PiecesOk(pieces)
    case Num(number) => WellFormed(number)
    case Name(name) => name == "true" || name == "false" || name == "null"
    case Mark(c) => c == '[' || c == ']' || c == '{' || c == '}' || c == ':' || c == ','
    case Blank(c) => c == ' ' || c == '\t' || c == '\n' || c == '\r'
  }

  /** No number runs into another number or a name. */
  predicate Separated(ts: seq<Token>) {
    forall i :: 0 <= i < |ts| - 1 && ts[i].Num? ==> !ts[i + 1].Num? && !ts[i + 1].Name?
  }

  predicate TokensOk(ts: seq<Token>) {
    (forall i :: 0 <= i < |ts| ==> TokenOk(ts[i])) && Separated(ts)
  }

  function SpellPiece(p: Piece): string {
    if p.Plain? then [p.c] else ['\\', p.c]
  }

  function SpellPieces(pieces: seq<Piece>): string {
    if pieces == [] then "" else SpellPiece(pieces[0]) + SpellPieces(pieces[1..])
  }

  function Spell(t: Token): string {
    match t
    case Text(pieces) => "\"" + (SpellPieces(pieces) + "\"")
    case Num(number) => Spelling(number)
    case Name(name) => name
    case Mark(c) => [c]
    case Blank(c) => [c]
  }

  function SpellAll(ts: seq<Token>): string {
    if ts == [] then "" else Spell(ts[0]) + SpellAll(ts[1..])
  }

  // ---- what the pass ought to do ----

  /** The number stands for an integer of at most 2^53 - 1 in size. */
  ghost predicate Integral(p: JsonNumber) {
    WellFormed(p) && exists n :: Denotes(p, n) && Safe(n)
  }

  ghost function IntegerOf(p: JsonNumber): (n: int)
    requires Integral(p)
    ensures Denotes(p, n) && Safe(n)
  {
    var n :| Denotes(p, n) && Safe(n);
    n
  }

  ghost predicate AllIntegral(ts: seq<Token>) {
    forall i :: 0 <= i < |ts| && ts[i].Num? ==> Integral(ts[i].number)
  }

  /** A number in its plain decimal spelling, anything else as it is. */
  ghost function ReducedOne(t: Token): Token
    requires t.Num? ==> Integral(t.number)
  {
    if t.Num? then Num(DecimalParts(IntegerOf(t.number))) else t
  }

  ghost function Reduced(ts: seq<Token>): (us: seq<Token>)
    requires AllIntegral(ts)
    ensures |us| == |ts| && forall i :: 0 <= i < |ts| ==> us[i] == ReducedOne(ts[i])
  {
    seq(|ts|, i requires 0 <= i < |ts| => ReducedOne(ts[i]))
  }

  ghost function Expected(ts: seq<Token>): Option<string> {
    if AllIntegral(ts) then Some(SpellAll(Reduced(ts))) else None
  }

  // ---- how the lexer reads a spelt token ----

  lemma {:induction false} LiteralSpelt(prefix: string, pieces: seq<Piece>, rest: string)
    requires PiecesOk(pieces)
    ensures LiteralEnd(prefix + (SpellPieces(pieces) + ("\"" + rest)), |prefix|) == |prefix| + |SpellPieces(pieces)| + 1
    decreases |pieces|
  {
    var t := prefix + (SpellPieces(pieces) + ("\"" + rest));
    if pieces == [] {
      assert t[|prefix|] == '"';
    } else {
      var head := SpellPiece(pieces[0]);
      var more := prefix + head;
      assert t == more + (SpellPieces(pieces[1..]) + ("\"" + rest));
      LiteralSpelt(more, pieces[1..], rest);
      assert t[|prefix|] == head[0];
      assert LiteralStep(t, |prefix|) == (|more|, false);
    }
  }

  lemma LiteralRead(body: string, rest: string)
    requires LiteralEnd("\"" + (body + ("\"" + rest)), 1) == |body| + 2
    ensures First("\"" + (body + "\"") + rest) == Literal("\"" + (body + "\""))
  {
    hide LiteralEnd, TokenEnd, StartsNumber;
    var x := "\"" + (body + "\"");
    assert x + rest == "\"" + (body + ("\"" + rest));
    assert (x + rest)[..|x|] == x && (x + rest)[0] == '"';
  }

  lemma TextFirst(pieces: seq<Piece>, rest: string)
    requires PiecesOk(pieces)
    ensures First(Spell(Text(pieces)) + rest) == Literal(Spell(Text(pieces)))
  {
    hide LiteralEnd, First, SpellPieces, PiecesOk;
    LiteralSpelt("\"", pieces, rest);
    LiteralRead(SpellPieces(pieces), rest);
  }

  /** The characters a number is spelt with. */
  predicate NumberChar(c: char) {
    IsDigit(c) || c == '-' || c == '+' || c == '.' || c == 'e' || c == 'E'
  }

  lemma NumberChars(p: JsonNumber)
    requires WellFormed(p)
    ensures Spelling(p) != "" && StartsNumber(Spelling(p)[0])
    ensures forall i :: 0 <= i < |Spelling(p)| ==> NumberChar(Spelling(p)[i])
  {
    var sign := if p.negative then "-" else "";
    var fraction, power := SpellFraction(p.fraction), SpellExponent(p.exponent);
    assert forall i :: 0 <= i < |fraction| ==> NumberChar(fraction[i]);
    assert forall i :: 0 <= i < |power| ==> NumberChar(power[i]);
  }

  /** What a number may be followed by. */
  lemma NextDelimits(ts: seq<Token>)
    requires |ts| > 1 && TokensOk(ts) && ts[0].Num?
    ensures SpellAll(ts[1..]) != "" && IsDelimiter(SpellAll(ts[1..])[0])
  {
    var next := ts[1];
    assert ts[1..][0] == next;
    assert TokenOk(next) && !next.Num? && !next.Name?;
    assert Spell(next)[0] == match next case Text(_) => '"' case Mark(c) => c case Blank(c) => c case _ => ' ';
  }

  lemma NumberCharPlain(c: char)
    requires NumberChar(c)
    ensures !IsDelimiter(c)
  {}

  lemma NumberRead(x: string, rest: string)
    requires x != "" && StartsNumber(x[0]) && (forall i :: 0 <= i < |x| ==> NumberChar(x[i]))
    requires rest != "" ==> IsDelimiter(rest[0])
    ensures First(x + rest) == Number(x)
  {
    hide IsDelimiter, NumberChar;
    forall i | 0 <= i < |x| ensures !IsDelimiter(x[i]) { NumberCharPlain(x[i]); }
    TokenLocal(x, rest, 0);
    assert (x + rest)[..|x|] == x;
  }

  lemma NumFirst(ts: seq<Token>)
    requires ts != [] && TokensOk(ts) && ts[0].Num?
    ensures First(SpellAll(ts)) == Number(Spell(ts[0]))
  {
    hide IsDelimiter, NumberChar, First, WellFormed, Spelling, StartsNumber, Separated;
    assert TokenOk(ts[0]);
    NumberChars(ts[0].number);
    if |ts| > 1 { NextDelimits(ts); }
    NumberRead(Spelling(ts[0].number), SpellAll(ts[1..]));
  }

  /** Characters outside literals and numbers are copied. */
  predicate Copied(s: string) {
    forall i :: 0 <= i < |s| ==> s[i] != '"' && !StartsNumber(s[i])
  }

  lemma {:induction false} CopiedThrough(s: string, rest: string)
    requires Copied(s)
    ensures Normalized(s + rest) == Prepend(s, Normalized(rest))
    ensures ShortTokens(rest) ==> ShortTokens(s + rest)
    decreases |s|
  {
    if s == "" {
      assert s + rest == rest;
      PrependNothing(Normalized(rest));
    } else {
      var t, c := s + rest, s[..1];
      assert t[0] == s[0] && t[..1] == c;
      assert First(t) == Other(c);
      assert t[1..] == s[1..] + rest;
      CopiedThrough(s[1..], rest);
      PassOne(t, Other(c), s[1..] + rest);
      PrependTwice(c, s[1..], Normalized(rest));
      assert c + s[1..] == s;
    }
  }

  lemma PrependNothing(r: Option<string>)
    ensures Prepend("", r) == r
  {
    if r.Some? { assert "" + r.value == r.value; }
  }

  /** One segment at the front. */
  lemma PassOne(t: string, s: Segment, rest: string)
    requires t != "" && First(t) == s && t[|s.text|..] == rest
    ensures Normalized(t) == if s.Number? && Canonical(s.text).None? then None
                             else Prepend(RewriteOne(s).text, Normalized(rest))
    ensures ShortTokens(rest) && (s.Number? ==> |s.text| <= MAX_TOKEN_BYTES) ==> ShortTokens(t)
  {
    hide First, Canonical, Normalized;
    NormalizedStep(t);
    LexStep(t);
    hide Lex;
    assert forall x :: x in Lex(t) <==> x == s || x in Lex(rest);
  }

  lemma NameCopied(name: string)
    requires TokenOk(Name(name))
    ensures Copied(name)
  {}

  /** The canonical form of a spelt number is the decimal of what it denotes. */
  lemma SpeltCanonical(p: JsonNumber)
    requires WellFormed(p)
    ensures Canonical(Spelling(p)).Some? <==> Integral(p)
    ensures Integral(p) ==> Canonical(Spelling(p)) == Some(Spelling(DecimalParts(IntegerOf(p))))
  {
    hide Denotes, Spelling, WellFormed, Decimal;
    if Integral(p) {
      var n := IntegerOf(p);
      assert DenotesInteger(Spelling(p), n);
      SpeltUnique(p, n);
      DecimalSpelt(n);
    }
    if n :| DenotesInteger(Spelling(p), n) && Safe(n) {
      SpeltUnique(p, n);
    }
  }

  lemma SpeltUnique(p: JsonNumber, n: int)
    requires WellFormed(p) && DenotesInteger(Spelling(p), n)
    ensures Denotes(p, n) && forall m :: DenotesInteger(Spelling(p), m) ==> m == n
  {
    hide Spelling, WellFormed, Parse, Value, Mantissa, DenotesInteger;
    ParseComplete(p);
    DenotesParsed(Spelling(p), n);
    forall m | DenotesInteger(Spelling(p), m) ensures m == n {
      DenotesParsed(Spelling(p), m);
      var shift := SignedExponent(p) - |FractionDigits(p)|;
      if shift < 0 { CancelPower(m, n, -shift); }
    }
  }

  // ---- the whole text ----

  lemma TailOk(ts: seq<Token>)
    requires ts != [] && TokensOk(ts)
    ensures TokenOk(ts[0]) && TokensOk(ts[1..])
  {
    forall i | 0 <= i < |ts[1..]| ensures ts[1..][i] == ts[i + 1] {}
  }

  lemma ExpectedStep(ts: seq<Token>)
    requires ts != []
    ensures Expected(ts) == if ts[0].Num? && !Integral(ts[0].number) then None
                            else Prepend(Spell(ReducedOne(ts[0])), Expected(ts[1..]))
  {
    hide Integral, IntegerOf;
    var rest := ts[1..];
    forall i | 0 <= i < |rest| ensures rest[i] == ts[i + 1] {}
    if !(ts[0].Num? && !Integral(ts[0].number)) {
      assert AllIntegral(ts) <==> AllIntegral(rest) by {
        if AllIntegral(rest) {
          forall i | 0 <= i < |ts| && ts[i].Num? ensures Integral(ts[i].number) {
            if i > 0 { assert rest[i - 1] == ts[i]; }
          }
        }
      }
      if AllIntegral(ts) {
        assert Reduced(ts)[1..] == Reduced(rest);
        assert Reduced(ts)[0] == ReducedOne(ts[0]);
      }
    }
  }

  /** No number is spelt with more bytes than the exact reader is exact for. */
  predicate ShortNumbers(ts: seq<Token>) {
    forall i :: 0 <= i < |ts| && ts[i].Num? ==> |Spell(ts[i])| <= MAX_TOKEN_BYTES
  }

  lemma FirstPassed(ts: seq<Token>)
    requires ts != [] && TokensOk(ts)
    ensures Normalized(SpellAll(ts)) == if ts[0].Num? && !Integral(ts[0].number) then None
                                        else Prepend(Spell(ReducedOne(ts[0])), Normalized(SpellAll(ts[1..])))
    ensures ShortTokens(SpellAll(ts[1..])) && (ts[0].Num? ==> |Spell(ts[0])| <= MAX_TOKEN_BYTES) ==>
              ShortTokens(SpellAll(ts))
  {
    hide Normalized, ShortTokens, Integral, Canonical, Separated, First, WellFormed, Spelling, IntegerOf;
    var t, rest := ts[0], SpellAll(ts[1..]);
    TailOk(ts);
    assert SpellAll(ts) == Spell(t) + rest;
    match t
    case Text(pieces) =>
      TextFirst(pieces, rest);
      assert (Spell(t) + rest)[|Spell(t)|..] == rest;
      PassOne(Spell(t) + rest, Literal(Spell(t)), rest);
    case Num(p) =>
      NumberChars(p);
      NumFirst(ts);
      SpeltCanonical(p);
      assert (Spell(t) + rest)[|Spell(t)|..] == rest;
      PassOne(Spell(t) + rest, Number(Spell(t)), rest);
    case Name(name) =>
      NameCopied(name);
      CopiedThrough(name, rest);
    case Mark(c) => CopiedThrough([c], rest);
    case Blank(c) => CopiedThrough([c], rest);
  }

  lemma {:induction false} TokensNormalized(ts: seq<Token>)
    requires TokensOk(ts)
    ensures Normalized(SpellAll(ts)) == Expected(ts)
    ensures ShortNumbers(ts) ==> ShortTokens(SpellAll(ts))
    decreases |ts|
  {
    hide Normalized, ShortTokens, Expected, TokensOk, Integral;
    if ts == [] {
      Boundaries("");
      NothingExpected();
    } else {
      TailOk(ts);
      TokensNormalized(ts[1..]);
      FirstPassed(ts);
      ExpectedStep(ts);
      forall i | 0 <= i < |ts[1..]| ensures ts[1..][i] == ts[i + 1] {}
    }
  }

  lemma NothingExpected()
    ensures Normalized("") == Some("") == Expected([]) && ShortTokens("")
  {
    assert Lex("") == [] && Rewrite([]) == [];
    assert Reduced([]) == [];
  }

  /** The pass on any JSON text, by its tokens: every number becomes the plain decimal of the integer it denotes and
      nothing else changes, or it fails, exactly because some number denotes no safe integer. */
  method NormalizeTokens(ts: seq<Token>) returns (r: Option<string>)
    requires TokensOk(ts) && ShortNumbers(ts)
    ensures r.Some? <==> forall i :: 0 <= i < |ts| && ts[i].Num? ==> Integral(ts[i].number)
    ensures r.Some? ==> r.value == SpellAll(Reduced(ts))
  {
    hide Normalized, ShortTokens, Lex, Flatten, Integral;
    TokensNormalized(ts);
    r := NormalizeNumbers(SpellAll(ts));
  }
}
