/** Standard-alphabet base64 (section 4 of RFC 4648): an encoder that always pads, and a decoder that
    takes padded and unpadded input and rejects everything else. */
module Base64 {
  import opened Credit
  import opened Text

  type six = x: nat | x < 64

  function CharOf(v: six): char
  {
    if v < 26 then (65 + v) as char
    else if v < 52 then (97 + (v - 26)) as char
    else if v < 62 then (48 + (v - 52)) as char
    else if v == 62 then '+' else '/'
  }

  function ValueOf(c: char): Option<six>
  {
    if 'A' <= c <= 'Z' then Some(c as int - 65)
    else if 'a' <= c <= 'z' then Some(c as int - 97 + 26)
    else if '0' <= c <= '9' then Some(c as int - 48 + 52)
    else if c == '+' then Some(62)
    else if c == '/' then Some(63)
    else None
  }

  lemma Alphabet(v: six, c: char)
    ensures ValueOf(CharOf(v)) == Some(v) && CharOf(v) != '='
    ensures ValueOf(c) == Some(v) ==> CharOf(v) == c
  {
  }

  // ------------------------------------------------------------------
  // groups: three bytes are four sextets
  // ------------------------------------------------------------------

  function Second(a: byte, b: byte): six { var (x: int, y: int) := (a, b); x % 4 * 16 + y / 16 }

  function Third(b: byte, c: byte): six { var (x: int, y: int) := (b, c); x % 16 * 4 + y / 64 }

  function High(p: six, q: six): byte { var (x: int, y: int) := (p, q); x * 4 + y / 16 }

  function Middle(q: six, r: six): byte { var (x: int, y: int) := (q, r); x % 16 * 16 + y / 4 }

  function Low(r: six, s: six): byte { var (x: int, y: int) := (r, s); x % 4 * 64 + y }

  /** The sextets of bs; a short last group is filled up with zero bits. */
  function Unpacked(bs: bytes): seq<six>
  {
    if bs == [] then []
    else if |bs| == 1 then [bs[0] / 4, Second(bs[0], 0)]
    else if |bs| == 2 then [bs[0] / 4, Second(bs[0], bs[1]), Third(bs[1], 0)]
    else [bs[0] / 4, Second(bs[0], bs[1]), Third(bs[1], bs[2]), bs[2] % 64] + Unpacked(bs[3..])
  }

  /** The bytes a run of sextets spells; the spare bits of a short last group are dropped. */
  function Packed(vs: seq<six>): bytes
  {
    if |vs| < 2 then []
    else if |vs| == 2 then [High(vs[0], vs[1])]
    else if |vs| == 3 then [High(vs[0], vs[1]), Middle(vs[1], vs[2])]
    else [High(vs[0], vs[1]), Middle(vs[1], vs[2]), Low(vs[2], vs[3])] + Packed(vs[4..])
  }

  function Chars(vs: seq<six>): string { seq(|vs|, i requires 0 <= i < |vs| => CharOf(vs[i])) }

  /** Each group of four characters is filled up. */
  function Padding(bs: bytes): string
  {
    if |bs| > 2 then Padding(bs[3..]) else if |bs| == 1 then "==" else if |bs| == 2 then "=" else ""
  }

  function Encoded(bs: bytes): string { Chars(Unpacked(bs)) + Padding(bs) }

  predicate Legal(s: string) { forall i :: 0 <= i < |s| ==> ValueOf(s[i]).Some? }

  function Values(s: string): seq<six>
    requires Legal(s)
  {
    seq(|s|, i requires 0 <= i < |s| => ValueOf(s[i]).value)
  }

  /** What unpadded characters spell. */
  function Body(s: string): Option<bytes> { if Legal(s) then Some(Packed(Values(s))) else None }

  /** The length of s without its trailing padding. */
  function Unpadded(s: string): (n: nat)
    ensures n <= |s|
  {
    if s != "" && s[|s| - 1] == '=' then Unpadded(s[..|s| - 1]) else |s|
  }

  function Decoded(s: string): Option<bytes>
  {
    var end := Unpadded(s);
    var pad := |s| - end;
    if pad > 2 || (pad > 0 && |s| % 4 != 0) then None
    else if end % 4 == 1 then None
    else Body(s[..end])
  }

  // ------------------------------------------------------------------
  // round trips
  // ------------------------------------------------------------------

  /** The bits of a short last group that no byte uses are zero. */
  predicate SpareZero(vs: seq<six>)
  {
    if |vs| > 3 then SpareZero(vs[4..])
    else (|vs| == 2 ==> vs[1] % 16 == 0) && (|vs| == 3 ==> vs[2] % 4 == 0)
  }

  /** A last group of one sextet alone spells nothing. */
  predicate Whole(vs: seq<six>) { if |vs| > 3 then Whole(vs[4..]) else |vs| != 1 }

  lemma BytesBack(a: byte, b: byte, c: byte)
    ensures High(a / 4, Second(a, b)) == a && Middle(Second(a, b), Third(b, c)) == b && Low(Third(b, c), c % 64) == c
  {
  }

  lemma SextetsBack(p: six, q: six, r: six, s: six)
    ensures High(p, q) / 4 == p && Second(High(p, q), Middle(q, r)) == q
    ensures Third(Middle(q, r), Low(r, s)) == r && Low(r, s) % 64 == s
    ensures q % 16 == 0 <==> Second(High(p, q), 0) == q
    ensures r % 4 == 0 <==> Third(Middle(q, r), 0) == r
  {
  }

  lemma {:induction false} PackUnpack(bs: bytes)
    ensures Packed(Unpacked(bs)) == bs
  {
    if |bs| > 2 {
      PackUnpack(bs[3..]);
      BytesBack(bs[0], bs[1], bs[2]);
      assert Unpacked(bs)[4..] == Unpacked(bs[3..]);
      assert bs == [bs[0], bs[1], bs[2]] + bs[3..];
    } else if |bs| == 2 {
      BytesBack(bs[0], bs[1], 0);
    } else if |bs| == 1 {
      BytesBack(bs[0], 0, 0);
    }
  }

  /** Unpacking undoes packing exactly when the spare bits are zero. */
  lemma {:induction false} UnpackPack(vs: seq<six>)
    requires Whole(vs)
    ensures Unpacked(Packed(vs)) == vs <==> SpareZero(vs)
  {
    if |vs| > 3 {
      UnpackPack(vs[4..]);
      UnpackFour(vs[0], vs[1], vs[2], vs[3], Packed(vs[4..]));
      assert vs == [vs[0], vs[1], vs[2], vs[3]] + vs[4..];
      var us := Unpacked(Packed(vs));
      assert us[4..] == Unpacked(Packed(vs[4..]));
    } else if |vs| == 2 {
      SextetsBack(vs[0], vs[1], 0, 0);
    } else if |vs| == 3 {
      SextetsBack(vs[0], vs[1], vs[2], 0);
    }
  }

  lemma UnpackFour(p: six, q: six, r: six, s: six, rest: bytes)
    ensures Unpacked([High(p, q), Middle(q, r), Low(r, s)] + rest) == [p, q, r, s] + Unpacked(rest)
  {
    SextetsBack(p, q, r, s);
    assert ([High(p, q), Middle(q, r), Low(r, s)] + rest)[3..] == rest;
  }

  lemma {:induction false} UnpackedSize(bs: bytes)
    ensures Whole(Unpacked(bs)) && (|Unpacked(bs)| + |Padding(bs)|) % 4 == 0 && |Padding(bs)| <= 2
  {
    if |bs| > 2 {
      UnpackedSize(bs[3..]);
      assert Unpacked(bs)[4..] == Unpacked(bs[3..]);
    }
  }

  lemma {:induction false} WholeIff(vs: seq<six>)
    ensures Whole(vs) <==> |vs| % 4 != 1
  {
    if |vs| > 3 { WholeIff(vs[4..]); }
  }

  /** How many characters the last group of vs is short of. */
  function Gap(vs: seq<six>): nat { if |vs| > 3 then Gap(vs[4..]) else if |vs| < 2 then 0 else 4 - |vs| }

  lemma {:induction false} GapIs(vs: seq<six>)
    requires Whole(vs)
    ensures Gap(vs) == (4 - |vs| % 4) % 4
  {
    if |vs| > 3 { GapIs(vs[4..]); }
  }

  lemma {:induction false} PackedSize(vs: seq<six>)
    requires Whole(vs)
    ensures |Padding(Packed(vs))| == Gap(vs) && |Unpacked(Packed(vs))| == |vs|
  {
    if |vs| > 3 {
      PackedSize(vs[4..]);
      assert Packed(vs)[3..] == Packed(vs[4..]);
    }
  }

  lemma CharsBack(vs: seq<six>)
    ensures Legal(Chars(vs)) && Values(Chars(vs)) == vs
    ensures Chars(vs) == "" || Chars(vs)[|vs| - 1] != '='
  {
    forall i | 0 <= i < |vs|
      ensures ValueOf(Chars(vs)[i]) == Some(vs[i]) && Chars(vs)[i] != '='
    {
      Alphabet(vs[i], 'A');
    }
  }

  lemma ValuesBack(s: string)
    requires Legal(s)
    ensures Chars(Values(s)) == s
  {
    forall i | 0 <= i < |s|
      ensures Chars(Values(s))[i] == s[i]
    {
      Alphabet(Values(s)[i], s[i]);
    }
  }

  lemma UnpaddedIs(body: string, pad: string)
    requires pad == "" || pad == "=" || pad == "=="
    requires body == "" || body[|body| - 1] != '='
    ensures Unpadded(body + pad) == |body|
  {
    if pad == "==" {
      assert (body + pad)[..|body| + 1] == body + "=";
      assert (body + "=")[..|body|] == body;
    } else if pad == "=" {
      assert (body + pad)[..|body|] == body;
    } else {
      assert body + pad == body;
    }
  }

  lemma {:induction false} PaddingForm(bs: bytes)
    ensures Padding(bs) == "" || Padding(bs) == "=" || Padding(bs) == "=="
  {
    if |bs| > 2 { PaddingForm(bs[3..]); }
  }

  /** Decoding undoes encoding, for all bytes. */
  lemma DecodeEncode(bs: bytes)
    ensures Decoded(Encoded(bs)) == Some(bs)
  {
    var vs := Unpacked(bs);
    UnpackedSize(bs);
    WholeIff(vs);
    PaddingForm(bs);
    CharsBack(vs);
    UnpaddedIs(Chars(vs), Padding(bs));
    assert Encoded(bs)[..|vs|] == Chars(vs);
    PackUnpack(bs);
  }

  /** What a caller can check: full padding, and no stray bits in the last group. */
  predicate Canonical(s: string)
    requires Legal(s[..Unpadded(s)])
  {
    |s| % 4 == 0 && SpareZero(Values(s[..Unpadded(s)]))
  }

  lemma {:induction false} PaddingIs(s: string)
    ensures forall i :: Unpadded(s) <= i < |s| ==> s[i] == '='
  {
    if s != "" && s[|s| - 1] == '=' {
      PaddingIs(s[..|s| - 1]);
      assert forall i :: 0 <= i < |s| - 1 ==> s[..|s| - 1][i] == s[i];
    }
  }

  lemma FullGroups(end: nat, pad: nat)
    requires pad <= 2 && end % 4 != 1
    ensures pad == (4 - end % 4) % 4 <==> (end + pad) % 4 == 0
  {
  }

  lemma AllPadding(a: string, b: string)
    requires forall i :: 0 <= i < |a| ==> a[i] == '='
    requires b == "" || b == "=" || b == "=="
    ensures a == b <==> |a| == |b|
  {
    if |a| == |b| { assert forall i :: 0 <= i < |a| ==> a[i] == b[i]; }
  }

  /** Encoding undoes decoding exactly on the canonical padded strings. */
  lemma EncodeDecode(s: string)
    requires Decoded(s).Some?
    ensures Encoded(Decoded(s).value) == s <==> Canonical(s)
  {
    var (end, bs) := (Unpadded(s), Decoded(s).value);
    var vs := Values(s[..end]);
    assert s == s[..end] + s[end..];
    assert s[end..] == Padding(bs) <==> |s| % 4 == 0 by {
      WholeIff(vs);
      PackedSize(vs);
      GapIs(vs);
      PaddingIs(s);
      PaddingForm(bs);
      AllPadding(s[end..], Padding(bs));
      FullGroups(end, |s| - end);
    }
    EncodeSplit(s, vs);
  }

  lemma EncodeSplit(s: string, vs: seq<six>)
    requires var end := Unpadded(s); |vs| % 4 != 1 && Legal(s[..end]) && Values(s[..end]) == vs
    ensures var end := Unpadded(s);
            Encoded(Packed(vs)) == s <==> s[end..] == Padding(Packed(vs)) && SpareZero(vs)
  {
    var (end, bs) := (Unpadded(s), Packed(vs));
    WholeIff(vs);
    PackedSize(vs);
    ValuesBack(s[..end]);
    UnpackPack(vs);
    CharsBack(Unpacked(bs));
    assert s == s[..end] + s[end..];
    assert Encoded(bs)[..end] == Chars(Unpacked(bs)) && Encoded(bs)[end..] == Padding(bs);
  }

  // ------------------------------------------------------------------
  // the loops
  // ------------------------------------------------------------------

  /** Three bytes as one 24-bit number, cut into sextets, and back. */
  lemma GroupNumber(a: byte, b: byte, c: byte)
    ensures var n := (a as int) * 65536 + (b as int) * 256 + c;
            && n / 262144 % 64 == a / 4 && n / 4096 % 64 == Second(a, b)
            && n / 64 % 64 == Third(b, c) && n % 64 == c % 64
  {
    FirstSextet(a, b, c);
    SecondSextet(a, b, c);
    ThirdSextet(a, b, c);
  }

  lemma FirstSextet(x: int, y: int, z: int)
    requires 0 <= x < 256 && 0 <= y < 256 && 0 <= z < 256
    ensures (x * 65536 + y * 256 + z) / 262144 % 64 == x / 4
  {
    Quotients(x / 4, x % 4 * 65536 + y * 256 + z);
    assert x * 65536 + y * 256 + z == 262144 * (x / 4) + (x % 4 * 65536 + y * 256 + z);
  }

  lemma SecondSextet(x: int, y: int, z: int)
    requires 0 <= x < 256 && 0 <= y < 256 && 0 <= z < 256
    ensures (x * 65536 + y * 256 + z) / 4096 % 64 == x % 4 * 16 + y / 16
  {
    Quotients(x * 16 + y / 16, y % 16 * 256 + z);
    assert x * 65536 + y * 256 + z == 4096 * (x * 16 + y / 16) + (y % 16 * 256 + z);
  }

  lemma ThirdSextet(x: int, y: int, z: int)
    requires 0 <= x < 256 && 0 <= y < 256 && 0 <= z < 256
    ensures (x * 65536 + y * 256 + z) / 64 % 64 == y % 16 * 4 + z / 64 && (x * 65536 + y * 256 + z) % 64 == z % 64
  {
    Quotients(x * 1024 + y * 4 + z / 64, z % 64);
    assert x * 65536 + y * 256 + z == 64 * (x * 1024 + y * 4 + z / 64) + z % 64;
  }

  lemma Quotients(q: int, r: int)
    ensures 0 <= r < 64 ==> (64 * q + r) / 64 == q
    ensures 0 <= r < 4096 ==> (4096 * q + r) / 4096 == q
    ensures 0 <= r < 262144 ==> (262144 * q + r) / 262144 == q
  {
  }

  lemma SextetNumber(p: six, q: six, r: six, s: six)
    ensures var n := (p as int) * 262144 + (q as int) * 4096 + (r as int) * 64 + s;
            && n / 65536 % 256 == High(p, q) && n / 256 % 256 == Middle(q, r) && n % 256 == Low(r, s)
  {
    var (x: int, y: int, z: int, w: int) := (p, q, r, s);
    var n := x * 262144 + y * 4096 + z * 64 + w;
    assert n / 256 == x * 1024 + y * 16 + z / 4;
    assert n / 65536 == x * 4 + y / 16;
  }

  method EncodeBase64(bs: bytes) returns (s: string)
    ensures s == Encoded(bs)
  {
    s := "";
    var i := 0;
    assert bs[0..] == bs;
    while i + 2 < |bs|
      invariant i <= |bs| && Encoded(bs) == s + Encoded(bs[i..])
    {
      EncodedGroup(bs[i..]);
      assert bs[i..][3..] == bs[i + 3..];
      var group := EncodeGroup(bs[i], bs[i + 1], bs[i + 2]);
      s := s + group;
      i := i + 3;
    }
    var tail := EncodeTail(bs[i..]);
    s := s + tail;
  }

  method EncodeGroup(a: byte, b: byte, c: byte) returns (s: string)
    ensures s == [CharOf(a / 4), CharOf(Second(a, b)), CharOf(Third(b, c)), CharOf(c % 64)]
  {
    GroupNumber(a, b, c);
    var n := (a as int) * 65536 + (b as int) * 256 + c;
    s := [CharOf(n / 262144 % 64), CharOf(n / 4096 % 64), CharOf(n / 64 % 64), CharOf(n % 64)];
  }

  method EncodeTail(bs: bytes) returns (s: string)
    requires |bs| < 3
    ensures s == Encoded(bs)
  {
    s := "";
    if |bs| == 1 {
      var group := EncodeGroup(bs[0], 0, 0);
      s := group[..2] + "==";
    } else if |bs| == 2 {
      var group := EncodeGroup(bs[0], bs[1], 0);
      s := group[..3] + "=";
    }
  }

  lemma EncodedGroup(bs: bytes)
    requires |bs| > 2
    ensures Encoded(bs)
            == [CharOf(bs[0] / 4), CharOf(Second(bs[0], bs[1])), CharOf(Third(bs[1], bs[2])), CharOf(bs[2] % 64)]
                           + Encoded(bs[3..])
  {
  }

  method StripPadding(s: string) returns (end: nat)
    ensures end == Unpadded(s)
  {
    end := |s|;
    assert s[..|s|] == s;
    while end > 0 && s[end - 1] == '='
      invariant 0 <= end <= |s|
      invariant Unpadded(s[..end]) == Unpadded(s)
    {
      assert s[..end][..end - 1] == s[..end - 1];
      end := end - 1;
    }
  }

  method DecodeBase64(s: string) returns (r: Option<bytes>)
    ensures r == Decoded(s)
  {
    var end := StripPadding(s);
    var pad := |s| - end;
    if pad > 2 || (pad > 0 && |s| % 4 != 0) { return None; }
    if end % 4 == 1 { return None; }
    r := DecodeBody(s[..end]);
  }

  lemma {:induction false} PackedSplit(a: seq<six>, b: seq<six>)
    requires |a| % 4 == 0
    ensures Packed(a + b) == Packed(a) + Packed(b)
    decreases |a|
  {
    if a == [] {
      assert a + b == b;
    } else {
      PackedSplit(a[4..], b);
      assert (a + b)[4..] == a[4..] + b;
    }
  }

  /** After i characters, whole groups so far, a piece up to j either fails everything or appends. */
  lemma BodyAppends(s: string, i: nat, j: nat)
    requires i <= j <= |s| && i % 4 == 0 && Body(s[..i]).Some?
    ensures Body(s[i..j]).None? ==> Body(s).None?
    ensures Body(s[i..j]).Some? ==> Body(s[..j]) == Some(Body(s[..i]).value + Body(s[i..j]).value)
  {
    if !Legal(s[i..j]) {
      IllegalWithin(s, i, j);
    } else {
      ValuesSplit(s[..i], s[i..j]);
      assert s[..j] == s[..i] + s[i..j];
    }
  }

  method DecodeBody(s: string) returns (r: Option<bytes>)
    requires |s| % 4 != 1
    ensures r == Body(s)
  {
    var out: bytes := [];
    var i := 0;
    while i + 4 <= |s|
      invariant i <= |s| && i % 4 == 0 && Body(s[..i]) == Some(out)
    {
      var group := DecodeGroup(s[i..i + 4]);
      BodyAppends(s, i, i + 4);
      if group.None? { return None; }
      out := out + group.value;
      i := i + 4;
    }
    var tail := DecodeTail(s[i..]);
    BodyAppends(s, i, |s|);
    assert s[..|s|] == s && s[i..|s|] == s[i..];
    if tail.None? { return None; }
    return Some(out + tail.value);
  }

  lemma IllegalWithin(s: string, i: nat, j: nat)
    requires i <= j <= |s| && !Legal(s[i..j])
    ensures !Legal(s)
  {
    var k :| 0 <= k < j - i && ValueOf(s[i..j][k]).None?;
    assert s[i + k] == s[i..j][k];
  }

  lemma ValuesSplit(a: string, b: string)
    requires Legal(a) && Legal(b) && |a| % 4 == 0
    ensures Legal(a + b) && Packed(Values(a + b)) == Packed(Values(a)) + Packed(Values(b))
  {
    assert Values(a + b) == Values(a) + Values(b);
    PackedSplit(Values(a), Values(b));
  }

  method DecodeGroup(s: string) returns (r: Option<bytes>)
    requires |s| == 4
    ensures r == Body(s)
  {
    var (p, q, t, u) := (ValueOf(s[0]), ValueOf(s[1]), ValueOf(s[2]), ValueOf(s[3]));
    if p.None? || q.None? || t.None? || u.None? { return None; }
    SextetNumber(p.value, q.value, t.value, u.value);
    var vs: seq<six> := [p.value, q.value, t.value, u.value];
    assert Values(s) == vs;
    assert Packed(vs[4..]) == [];
    assert Packed(vs) == [High(vs[0], vs[1]), Middle(vs[1], vs[2]), Low(vs[2], vs[3])];
    var n := (p.value as int) * 262144 + (q.value as int) * 4096 + (t.value as int) * 64 + u.value;
    return Some([n / 65536 % 256, n / 256 % 256, n % 256]);
  }

  method DecodeTail(s: string) returns (r: Option<bytes>)
    requires |s| < 4 && |s| != 1
    ensures r == Body(s)
  {
    if |s| == 2 {
      r := DecodeTwo(s);
    } else if |s| == 3 {
      r := DecodeThree(s);
    } else {
      r := Some([]);
    }
  }

  method DecodeTwo(s: string) returns (r: Option<bytes>)
    requires |s| == 2
    ensures r == Body(s)
  {
    var (p, q) := (ValueOf(s[0]), ValueOf(s[1]));
    if p.None? || q.None? { return None; }
    assert Values(s) == [p.value, q.value];
    return Some([((p.value as int) * 4 + (q.value as int) / 16) % 256]);
  }

  method DecodeThree(s: string) returns (r: Option<bytes>)
    requires |s| == 3
    ensures r == Body(s)
  {
    var (p, q, t) := (ValueOf(s[0]), ValueOf(s[1]), ValueOf(s[2]));
    if p.None? || q.None? || t.None? { return None; }
    assert Values(s) == [p.value, q.value, t.value];
    TailNumber(p.value, q.value, t.value);
    var n := (p.value as int) * 4096 + (q.value as int) * 64 + t.value;
    return Some([n / 1024 % 256, n / 4 % 256]);
  }

  lemma TailNumber(p: six, q: six, r: six)
    ensures var n := (p as int) * 4096 + (q as int) * 64 + r;
            n / 1024 % 256 == High(p, q) && n / 4 % 256 == Middle(q, r)
  {
    var (x: int, y: int, z: int) := (p, q, r);
    var n := x * 4096 + y * 64 + z;
    assert n / 4 == x * 1024 + y * 16 + z / 4;
    assert n / 1024 == x * 4 + y / 16;
  }
}
