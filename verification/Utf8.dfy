/** How many bytes a text takes. */
module Utf8 {
  function CharBytes(c: char): nat {
    if c < 128 as char then 1 else if c < 2048 as char then 2 else if c < 65536 as char then 3 else 4
  }

  /** The bytes of a character, by section 3 of RFC 3629: a leading byte that gives their number, and six bits in each
      that follows. */
  function Encode(c: char): (bytes: seq<int>)
    ensures forall i :: 0 < i < |bytes| ==> 0x80 <= bytes[i] < 0xC0
  {
    var n := c as int;
    if n <= 0x7F then [n]
    else if n <= 0x7FF then [0xC0 + n / 64, 0x80 + n % 64]
    else if n <= 0xFFFF then [0xE0 + n / 4096, 0x80 + n / 64 % 64, 0x80 + n % 64]
    else [0xF0 + n / 262144, 0x80 + n / 4096 % 64, 0x80 + n / 64 % 64, 0x80 + n % 64]
  }

  /** What the leading byte says, and what the bytes stand for. */
  function Announced(lead: int): nat {
    if 0 <= lead < 0x80 then 1 else if 0xC0 <= lead < 0xE0 then 2 else if 0xE0 <= lead < 0xF0 then 3
    else if 0xF0 <= lead < 0xF8 then 4 else 0
  }

  function Decode(bytes: seq<int>): int
    requires 1 <= |bytes| <= 4
  {
    match |bytes|
    case 1 => bytes[0]
    case 2 => (bytes[0] - 0xC0) * 64 + (bytes[1] - 0x80)
    case 3 => (bytes[0] - 0xE0) * 4096 + (bytes[1] - 0x80) * 64 + (bytes[2] - 0x80)
    case _ => (bytes[0] - 0xF0) * 262144 + (bytes[1] - 0x80) * 4096 + (bytes[2] - 0x80) * 64 + (bytes[3] - 0x80)
  }

  /** The encoding can be read back, and its length is the one counted. */
  lemma EncodedBytes(c: char)
    ensures |Encode(c)| == CharBytes(c) == Announced(Encode(c)[0]) && Decode(Encode(c)) == c as int
  {
    var n := c as int;
    assert n < 0x11_0000;
    assert n == n / 64 * 64 + n % 64;
    assert n / 64 == n / 4096 * 64 + n / 64 % 64 by { Sixty(n / 64); assert n / 64 / 64 == n / 4096; }
    assert n / 4096 == n / 262144 * 64 + n / 4096 % 64 by { Sixty(n / 4096); assert n / 4096 / 64 == n / 262144; }
  }

  lemma Sixty(m: nat)
    ensures m == m / 64 * 64 + m % 64
  {}

  function TextBytes(s: string): nat {
    if s == "" then 0 else CharBytes(s[0]) + TextBytes(s[1..])
  }
}
