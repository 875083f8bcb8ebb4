/** The JSON text the Rust runtime builds comparison keys from, and why no two
    lists of strings share one text. */
module KeyText {
  import opened Options
  import opened Ordered

  function HexDigit(d: nat): (c: char)
    requires d < 16
  {
    if d < 10 then ('0' as int + d) as char else ('a' as int + d - 10) as char
  }

  /** The short escapes; every other control character is spelt out in hexadecimal. */
  function Escape(c: char): (e: string)
    ensures e != ""
  {
    if c == '"' then "\\\""
    else if c == '\\' then "\\\\"
    else if c == 8 as char then "\\b"
    else if c == 9 as char then "\\t"
    else if c == 10 as char then "\\n"
    else if c == 12 as char then "\\f"
    else if c == 13 as char then "\\r"
    else if c < 32 as char then "\\u00" + [HexDigit(c as int / 16), HexDigit(c as int % 16)]
    else [c]
  }

  /** Escaped characters and the closing quote. */
  function Body(s: string): string {
    if s == "" then "\"" else Escape(s[0]) + Body(s[1..])
  }

  function Quote(s: string): string {
    "\"" + Body(s)
  }

  function Items(xs: seq<string>): string
  {
    if xs == [] then "]"
    else "\"" + (Body(xs[0]) + (if |xs| == 1 then "]" else "," + Items(xs[1..])))
  }

  function ArrayText(xs: seq<string>): string {
    "[" + Items(xs)
  }

  function Entries(names: seq<string>, m: map<string, string>): string
    requires forall n :: n in names ==> n in m
  {
    if names == [] then "}"
    else
      var rest := if |names| == 1 then "}" else "," + Entries(names[1..], m);
      "\"" + (Body(names[0]) + (":\"" + (Body(m[names[0]]) + rest)))
  }

  /** Members are written in ascending key order. */
  function ObjectText(m: map<string, string>): string {
    "{" + Entries(Ascending(m.Keys), m)
  }

  // ---- reading a literal back ----

  /** The value of a hexadecimal digit of either case. */
  function HexValue(c: char): Option<nat> {
    if '0' <= c <= '9' then Some(c as int - '0' as int)
    else if 'a' <= c <= 'f' then Some(c as int - 'a' as int + 10)
    else if 'A' <= c <= 'F' then Some(c as int - 'A' as int + 10)
    else None
  }

  /** The character four hexadecimal digits stand for, surrogates aside. */
  function ReadHex(t: string): Option<char>
    requires |t| == 4
  {
    var a, b, c, d := HexValue(t[0]), HexValue(t[1]), HexValue(t[2]), HexValue(t[3]);
    if a.None? || b.None? || c.None? || d.None? then None
    else
      var n := 4096 * a.value + 256 * b.value + 16 * c.value + d.value;
      if n < 0xD800 || 0xE000 <= n < 0x10000 then Some(n as char) else None
  }

  /** The first character of a string literal's inside, by section 7 of RFC 8259, and what follows it. */
  function ReadOne(t: string): Option<(char, string)>
    requires t != ""
  {
    if t[0] == '"' || t[0] < 32 as char then None
    else if t[0] != '\\' then Some((t[0], t[1..]))
    else if |t| < 2 then None
    else if t[1] == '"' || t[1] == '\\' || t[1] == '/' then Some((t[1], t[2..]))
    else if t[1] == 'b' then Some((8 as char, t[2..]))
    else if t[1] == 'f' then Some((12 as char, t[2..]))
    else if t[1] == 'n' then Some((10 as char, t[2..]))
    else if t[1] == 'r' then Some((13 as char, t[2..]))
    else if t[1] == 't' then Some((9 as char, t[2..]))
    else if t[1] == 'u' && |t| >= 6 && ReadHex(t[2..6]).Some? then Some((ReadHex(t[2..6]).value, t[6..]))
    else None
  }

  /** The string a literal stands for, from behind its opening quote to the end of the text. */
  function Read(t: string): Option<string>
    decreases |t|
  {
    if t == "" then None
    else if t == "\"" then Some("")
    else
      var r := ReadOne(t);
      if r.None? || |r.value.1| >= |t| then None
      else
        var rest := Read(r.value.1);
        if rest.None? then None else Some([r.value.0] + rest.value)
  }

  lemma EscapeRead(c: char, rest: string)
    ensures ReadOne(Escape(c) + rest) == Some((c, rest))
  {
    var t := Escape(c) + rest;
    if |Escape(c)| == 6 {
      var hi, lo := c as int / 16, c as int % 16;
      assert t[2..6] == ['0', '0', HexDigit(hi), HexDigit(lo)];
      assert HexValue(HexDigit(hi)) == Some(hi) && HexValue(HexDigit(lo)) == Some(lo);
    }
  }

  /** A quoted string is a literal that stands for it. */
  lemma {:induction false} QuoteRead(s: string)
    ensures Quote(s)[0] == '"' && Read(Quote(s)[1..]) == Some(s)
  {
    hide Escape, ReadOne;
    if s == "" {
      assert Quote(s)[1..] == "\"";
    } else {
      QuoteRead(s[1..]);
      EscapeRead(s[0], Body(s[1..]));
      assert Quote(s)[1..] == Escape(s[0]) + Body(s[1..]);
      assert Quote(s[1..])[1..] == Body(s[1..]) && Body(s[1..]) != "";
      assert |Escape(s[0]) + Body(s[1..])| > 1;
      assert [s[0]] + s[1..] == s;
    }
  }

  // ---- unique decoding ----

  lemma HexInjective(a: nat, b: nat)
    requires a < 16 && b < 16 && HexDigit(a) == HexDigit(b)
    ensures a == b
  {}

  lemma EscapeShape(c: char)
    ensures |Escape(c)| == 1 <==> c >= 32 as char && c != '"' && c != '\\'
    ensures |Escape(c)| == 1 || |Escape(c)| == 2 || |Escape(c)| == 6
    ensures |Escape(c)| == 1 ==> Escape(c)[0] == c
    ensures |Escape(c)| != 1 ==> Escape(c)[0] == '\\'
    ensures |Escape(c)| == 6 <==> |Escape(c)| != 1 && Escape(c)[1] == 'u'
  {}

  lemma LongEscape(c: char)
    requires |Escape(c)| == 6
    ensures c as int < 32 && Escape(c)[4] == HexDigit(c as int / 16) && Escape(c)[5] == HexDigit(c as int % 16)
  {}

  /** The escapes form a prefix code. */
  lemma EscapePrefixFree(a: char, x: string, b: char, y: string)
    requires Escape(a) + x == Escape(b) + y
    ensures a == b && x == y
  {
    var s, t := Escape(a) + x, Escape(b) + y;
    EscapeShape(a);
    EscapeShape(b);
    assert s[0] == t[0];
    assert |Escape(a)| > 1 ==> s[1] == Escape(a)[1];
    assert |Escape(b)| > 1 ==> t[1] == Escape(b)[1];
    assert |Escape(a)| == |Escape(b)|;
    assert Escape(a) == s[..|Escape(a)|] == t[..|Escape(b)|] == Escape(b);
    assert x == s[|Escape(a)|..] == t[|Escape(b)|..] == y;
    if |Escape(a)| == 6 {
      LongEscape(a);
      LongEscape(b);
      HexInjective(a as int / 16, b as int / 16);
      HexInjective(a as int % 16, b as int % 16);
    }
  }

  lemma BodyFirst(a: string, x: string)
    ensures |Body(a)| > 0 && ((Body(a) + x)[0] == '"' <==> a == "")
  {
    if a != "" { EscapeShape(a[0]); }
  }

  lemma BodyStep(a: string, x: string)
    requires a != ""
    ensures Body(a) + x == Escape(a[0]) + (Body(a[1..]) + x)
  {}

  lemma {:induction false} BodyPrefixFree(a: string, x: string, b: string, y: string)
    requires Body(a) + x == Body(b) + y
    ensures a == b && x == y
  {
    BodyFirst(a, x);
    BodyFirst(b, y);
    if a == "" {
      assert x == (Body(a) + x)[1..] && y == (Body(b) + y)[1..];
    } else {
      BodyStep(a, x);
      BodyStep(b, y);
      EscapePrefixFree(a[0], Body(a[1..]) + x, b[0], Body(b[1..]) + y);
      BodyPrefixFree(a[1..], x, b[1..], y);
      assert a == [a[0]] + a[1..] && b == [b[0]] + b[1..];
    }
  }

  function ItemsTail(xs: seq<string>): string
    requires xs != []
  {
    if |xs| == 1 then "]" else "," + Items(xs[1..])
  }

  lemma ItemsHead(xs: seq<string>)
    requires xs != []
    ensures Items(xs) == "\"" + (Body(xs[0]) + ItemsTail(xs))
  {
    hide Body;
  }

  lemma ItemsStep(xs: seq<string>)
    requires xs != []
    ensures Items(xs)[0] == '"' && Items(xs)[1..] == Body(xs[0]) + ItemsTail(xs)
    ensures ItemsTail(xs)[0] == ']' <==> |xs| == 1
    ensures |xs| > 1 ==> ItemsTail(xs)[1..] == Items(xs[1..])
    ensures |xs| == 1 ==> xs == [xs[0]]
    ensures |xs| > 1 ==> xs == [xs[0]] + xs[1..]
  {
    hide Body, Items;
    ItemsHead(xs);
  }

  lemma {:induction false} ItemsInjective(a: seq<string>, b: seq<string>)
    requires Items(a) == Items(b)
    ensures a == b
  {
    if a != [] { ItemsStep(a); }
    if b != [] { ItemsStep(b); }
    if a != [] && b != [] {
      BodyPrefixFree(a[0], ItemsTail(a), b[0], ItemsTail(b));
      if |a| > 1 { ItemsInjective(a[1..], b[1..]); }
    }
  }

  lemma ArrayTextInjective(a: seq<string>, b: seq<string>)
    requires ArrayText(a) == ArrayText(b)
    ensures a == b
  {
    assert ArrayText(a)[1..] == Items(a) && ArrayText(b)[1..] == Items(b);
    ItemsInjective(a, b);
  }

  function EntriesTail(names: seq<string>, m: map<string, string>): string
    requires names != [] && forall n :: n in names ==> n in m
  {
    if |names| == 1 then "}" else "," + Entries(names[1..], m)
  }

  lemma EntriesStep(names: seq<string>, m: map<string, string>)
    requires names != [] && forall n :: n in names ==> n in m
    ensures var value := Body(m[names[0]]) + EntriesTail(names, m);
            Entries(names, m)[0] == '"' && Entries(names, m)[1..] == Body(names[0]) + (":\"" + value)
            && (":\"" + value)[2..] == value
    ensures EntriesTail(names, m)[0] == '}' <==> |names| == 1
    ensures |names| > 1 ==> EntriesTail(names, m)[1..] == Entries(names[1..], m)
    ensures names == [names[0]] + names[1..]
  {
    hide Body;
    var value := Body(m[names[0]]) + EntriesTail(names, m);
    assert Entries(names, m) == "\"" + (Body(names[0]) + (":\"" + value));
  }

  lemma {:induction false} EntriesInjective(a: seq<string>, m: map<string, string>, b: seq<string>,
                                            w: map<string, string>)
    requires (forall n :: n in a ==> n in m) && (forall n :: n in b ==> n in w)
    requires Entries(a, m) == Entries(b, w)
    ensures a == b && forall n :: n in a ==> m[n] == w[n]
  {
    if a != [] { EntriesStep(a, m); }
    if b != [] { EntriesStep(b, w); }
    if a != [] && b != [] {
      var p, q := Body(m[a[0]]) + EntriesTail(a, m), Body(w[b[0]]) + EntriesTail(b, w);
      BodyPrefixFree(a[0], ":\"" + p, b[0], ":\"" + q);
      BodyPrefixFree(m[a[0]], EntriesTail(a, m), w[b[0]], EntriesTail(b, w));
      if |a| > 1 { EntriesInjective(a[1..], m, b[1..], w); }
    }
  }

  lemma AscendingInjective(a: set<string>, b: set<string>)
    requires Ascending(a) == Ascending(b)
    ensures a == b
  {}

  lemma ObjectTextInjective(m: map<string, string>, w: map<string, string>)
    requires ObjectText(m) == ObjectText(w)
    ensures m == w
  {
    var a, b := Ascending(m.Keys), Ascending(w.Keys);
    assert ObjectText(m) == "{" + Entries(a, m) && ObjectText(w) == "{" + Entries(b, w);
    DropBrace(Entries(a, m), Entries(b, w));
    EntriesInjective(a, m, b, w);
    AscendingInjective(m.Keys, w.Keys);
    assert forall n :: n in m ==> n in a;
  }

  lemma DropBrace(x: string, y: string)
    requires "{" + x == "{" + y
    ensures x == y
  {
    assert ("{" + x)[1..] == x && ("{" + y)[1..] == y;
  }
}
