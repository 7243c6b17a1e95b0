/** Octets, and UTF-8 as the platform's text coders do it: encoding, strict decoding, and lossy decoding
    with U+FFFD for each ill-formed piece. */
module Text {
  import opened Credit

  type byte = x: int | 0 <= x < 256

  type bytes = seq<byte>

  const REPLACEMENT: char := '\U{FFFD}'

  function EncodeChar(c: char): (r: bytes)
    ensures 1 <= |r| <= 4
  {
    var n := c as int;
    if n < 0x80 then [n]
    else if n < 0x800 then [0xC0 + n / 64, 0x80 + n % 64]
    else if n < 0x10000 then [0xE0 + n / 4096, 0x80 + n / 64 % 64, 0x80 + n % 64]
    else [0xF0 + n / 262144, 0x80 + n / 4096 % 64, 0x80 + n / 64 % 64, 0x80 + n % 64]
  }

  function Encode(s: string): bytes
  {
    if s == "" then [] else EncodeChar(s[0]) + Encode(s[1..])
  }

  /** Which first continuation bytes may follow the lead byte b, and how many follow in all. */
  function Tail(b: byte): (int, int, nat)
  {
    if 0xC2 <= b <= 0xDF then (0x80, 0xBF, 1)
    else if b == 0xE0 then (0xA0, 0xBF, 2)
    else if b == 0xED then (0x80, 0x9F, 2)
    else if 0xE1 <= b <= 0xEF then (0x80, 0xBF, 2)
    else if b == 0xF0 then (0x90, 0xBF, 3)
    else if b == 0xF4 then (0x80, 0x8F, 3)
    else if 0xF1 <= b <= 0xF3 then (0x80, 0xBF, 3)
    else (0, 0, 0)
  }

  /** How many of the needed continuation bytes are there, from index i on. */
  function Run(bs: bytes, i: nat, lo: int, hi: int, need: nat): (n: nat)
    ensures n <= need && (i <= |bs| ==> i + n <= |bs|)
    decreases need
  {
    if need == 0 || i >= |bs| || bs[i] < lo || bs[i] > hi then 0 else 1 + Run(bs, i + 1, 0x80, 0xBF, need - 1)
  }

  /** The code point a lead's bits and the continuation bytes spell; 0 stands for a missing middle one. */
  function Join(lead: int, a: int, b: int, c: int): int
  {
    if b == 0 then lead * 64 + (c - 0x80)
    else if a == 0 then lead * 4096 + (b - 0x80) * 64 + (c - 0x80)
    else lead * 262144 + (a - 0x80) * 4096 + (b - 0x80) * 64 + (c - 0x80)
  }

  /** Decode one character off the front: the character, or None for an ill-formed piece, and how many
      bytes it takes up. */
  function Front(bs: bytes): (r: (Option<char>, nat))
    requires bs != []
    ensures 1 <= r.1 <= |bs|
  {
    var b: int := bs[0];
    if b < 0x80 then (Some(b as char), 1)
    else
      var (lo, hi, need) := Tail(b);
      var got := Run(bs, 1, lo, hi, need);
      if need == 0 || got < need then (None, 1 + got)
      else
        var n := if need == 1 then Join(b - 0xC0, 0, 0, bs[1])
                 else if need == 2 then Join(b - 0xE0, 0, bs[1], bs[2])
                 else Join(b - 0xF0, bs[1], bs[2], bs[3]);
        (if 0 <= n < 0xD800 || 0xE000 <= n < 0x110000 then Some(n as char) else None, 1 + need)
  }

  /** Strict: any ill-formed piece fails the whole string. */
  function Decode(bs: bytes): Option<string>
    decreases |bs|
  {
    if bs == [] then Some("")
    else
      var (c, n) := Front(bs);
      var rest := Decode(bs[n..]);
      if c.None? || rest.None? then None else Some([c.value] + rest.value)
  }

  /** Lossy: each ill-formed piece becomes U+FFFD. */
  function DecodeLossy(bs: bytes): string
    decreases |bs|
  {
    if bs == [] then ""
    else
      var (c, n) := Front(bs);
      [if c.Some? then c.value else REPLACEMENT] + DecodeLossy(bs[n..])
  }

  lemma Digits(n: nat)
    ensures n == n / 64 * 64 + n % 64
    ensures n == n / 4096 * 4096 + n / 64 % 64 * 64 + n % 64
    ensures n == n / 262144 * 262144 + n / 4096 % 64 * 4096 + n / 64 % 64 * 64 + n % 64
  {
    assert n / 4096 == n / 64 / 64;
    assert n / 262144 == n / 64 / 64 / 64;
  }

  lemma FrontOfTwo(c: char, rest: bytes)
    requires 0x80 <= c as int < 0x800
    ensures Front(EncodeChar(c) + rest) == (Some(c), 2)
  {
    var (n, bs) := (c as int, EncodeChar(c) + rest);
    Digits(n);
    assert bs[0] == 0xC0 + n / 64 && bs[1] == 0x80 + n % 64;
    assert Run(bs, 1, 0x80, 0xBF, 1) == 1;
  }

  lemma FrontOfThree(c: char, rest: bytes)
    requires 0x800 <= c as int < 0x10000
    ensures Front(EncodeChar(c) + rest) == (Some(c), 3)
  {
    var (n, bs) := (c as int, EncodeChar(c) + rest);
    Digits(n);
    assert bs[0] == 0xE0 + n / 4096 && bs[1] == 0x80 + n / 64 % 64 && bs[2] == 0x80 + n % 64;
    var (lo, hi, need) := Tail(bs[0]);
    assert Run(bs, 2, 0x80, 0xBF, 1) == 1;
    assert Run(bs, 1, lo, hi, 2) == 2;
  }

  lemma FrontOfFour(c: char, rest: bytes)
    requires 0x10000 <= c as int
    ensures Front(EncodeChar(c) + rest) == (Some(c), 4)
  {
    var (n, bs) := (c as int, EncodeChar(c) + rest);
    Digits(n);
    assert bs[0] == 0xF0 + n / 262144 && bs[1] == 0x80 + n / 4096 % 64;
    assert bs[2] == 0x80 + n / 64 % 64 && bs[3] == 0x80 + n % 64;
    var (lo, hi, need) := Tail(bs[0]);
    assert Run(bs, 3, 0x80, 0xBF, 1) == 1;
    assert Run(bs, 2, 0x80, 0xBF, 2) == 2;
    assert Run(bs, 1, lo, hi, 3) == 3;
  }

  lemma FrontOfChar(c: char, rest: bytes)
    ensures Front(EncodeChar(c) + rest) == (Some(c), |EncodeChar(c)|)
  {
    var n := c as int;
    if n < 0x80 {
    } else if n < 0x800 {
      FrontOfTwo(c, rest);
    } else if n < 0x10000 {
      FrontOfThree(c, rest);
    } else {
      FrontOfFour(c, rest);
    }
  }

  /** Text survives the wire: strictly, and lossily without a loss. */
  lemma {:induction false} TextRoundTrip(s: string)
    ensures Decode(Encode(s)) == Some(s) && DecodeLossy(Encode(s)) == s
  {
    if s != "" {
      TextRoundTrip(s[1..]);
      FrontOfChar(s[0], Encode(s[1..]));
      assert Encode(s)[|EncodeChar(s[0])|..] == Encode(s[1..]);
      assert s == [s[0]] + s[1..];
    }
  }
}
