/** The protobuf wire layer: varints, fixed-width and length-delimited values, and messages as runs of
    tagged fields. A decoder is a fold over the fields of its input, so what holds of runs of fields
    holds of every message. */
module Wire {
  import opened Credit
  import opened Text

  const TWO64 := 0x1_0000_0000_0000_0000

  type u64 = n: nat | n < TWO64

  // ------------------------------------------------------------------
  // varints
  // ------------------------------------------------------------------

  function Varint(n: nat): (r: bytes)
    ensures r != []
    decreases n
  {
    if n < 128 then [n] else [128 + n % 128] + Varint(n / 128)
  }

  /** Read a varint whose first i bytes are gone already: its value and length from here. It may have
      ten bytes in all. */
  function VarintAt(bs: bytes, i: nat): (r: Option<(nat, nat)>)
    ensures r.Some? ==> 1 <= r.value.1 <= |bs|
    decreases |bs|
  {
    if i >= 10 || bs == [] then None
    else if bs[0] < 128 then Some((bs[0], 1))
    else
      var rest := VarintAt(bs[1..], i + 1);
      if rest.None? then None else Some((bs[0] - 128 + 128 * rest.value.0, rest.value.1 + 1))
  }

  /** Bits beyond the 64th are dropped. */
  function ReadVarint(bs: bytes): (r: Option<(u64, nat)>)
    ensures r.Some? ==> 1 <= r.value.1 <= |bs|
  {
    var v := VarintAt(bs, 0);
    if v.None? then None else Some((v.value.0 % TWO64, v.value.1))
  }

  function Pow128(k: nat): nat { if k == 0 then 1 else 128 * Pow128(k - 1) }

  lemma {:induction false} VarintBack(n: nat, rest: bytes, i: nat)
    requires i < 10 && n < Pow128(10 - i)
    ensures VarintAt(Varint(n) + rest, i) == Some((n, |Varint(n)|))
    decreases n
  {
    var bs := Varint(n) + rest;
    if n >= 128 {
      assert i < 9 && n / 128 < Pow128(9 - i);
      VarintBack(n / 128, rest, i + 1);
      assert bs[1..] == Varint(n / 128) + rest;
      assert bs[0] == 128 + n % 128;
    }
  }

  lemma ReadVarintBack(n: u64, rest: bytes)
    ensures ReadVarint(Varint(n) + rest) == Some((n, |Varint(n)|))
  {
    assert Pow128(2) == 16384 && Pow128(4) == 268435456 && Pow128(8) == 72057594037927936;
    assert Pow128(10) == 16384 * Pow128(8);
    VarintBack(n, rest, 0);
  }

  // ------------------------------------------------------------------
  // fields
  // ------------------------------------------------------------------

  function Fixed(n: u32): bytes { [n % 256, n / 256 % 256, n / 65536 % 256, n / 16777216 % 256] }

  function ReadFixed(bs: bytes): u32
    requires |bs| >= 4
  {
    var (a: int, b: int, c: int, d: int) := (bs[0], bs[1], bs[2], bs[3]);
    a + b * 256 + c * 65536 + d * 16777216
  }

  lemma FixedBack(n: u32, rest: bytes)
    ensures ReadFixed(Fixed(n) + rest) == n
  {
    var m: int := n;
    assert m / 65536 == m / 256 / 256 && m / 16777216 == m / 256 / 256 / 256;
  }

  datatype Value = Num(n: u64) | Eight(raw: bytes) | Chunk(data: bytes) | Four(v: u32)

  datatype Field = Field(num: nat, val: Value)

  function WireType(v: Value): nat
  {
    match v case Num(_) => 0 case Eight(_) => 1 case Chunk(_) => 2 case Four(_) => 5
  }

  /** A field the wire can carry: the tag is 32 bits, and so is a length. */
  predicate Fits(x: Field)
  {
    && x.num < 0x2000_0000
    && (x.val.Chunk? ==> |x.val.data| <= U32_MAX) && (x.val.Eight? ==> |x.val.raw| == 8)
  }

  function PutValue(v: Value): bytes
  {
    match v
    case Num(n) => Varint(n)
    case Eight(raw) => raw
    case Chunk(data) => Varint(|data|) + data
    case Four(n) => Fixed(n)
  }

  function PutField(x: Field): bytes { Varint(x.num * 8 + WireType(x.val)) + PutValue(x.val) }

  function PutAll(xs: seq<Field>): bytes { Flat(PutField, xs) }

  function Flat<T>(put: T -> bytes, ts: seq<T>): bytes { if ts == [] then [] else put(ts[0]) + Flat(put, ts[1..]) }

  lemma {:induction false} FlatSplit<T>(put: T -> bytes, ts: seq<T>, us: seq<T>)
    ensures Flat(put, ts + us) == Flat(put, ts) + Flat(put, us)
    decreases |ts|
  {
    if ts == [] {
      assert ts + us == us;
    } else {
      FlatSplit(put, ts[1..], us);
      assert (ts + us)[1..] == ts[1..] + us;
    }
  }

  /** Read a value of the given wire type: the value and its length. */
  function ReadValue(bs: bytes, wire: nat): (r: Option<(Value, nat)>)
    ensures r.Some? ==> r.value.1 <= |bs|
  {
    if wire == 0 then
      var v := ReadVarint(bs); if v.None? then None else Some((Num(v.value.0), v.value.1))
    else if wire == 1 then
      if |bs| < 8 then None else Some((Eight(bs[..8]), 8))
    else if wire == 2 then
      var v := ReadVarint(bs);
      if v.None? then None
      else
        var (n, at) := (v.value.0 % 0x1_0000_0000, v.value.1);
        if at + n > |bs| then None else Some((Chunk(bs[at..at + n]), at + n))
    else if wire == 5 then
      if |bs| < 4 then None else Some((Four(ReadFixed(bs)), 4))
    else None
  }

  /** Read a tag: field number, wire type, and the tag's length. */
  function ReadTag(bs: bytes): (r: Option<(nat, nat, nat)>)
    ensures r.Some? ==> 1 <= r.value.2 <= |bs|
  {
    var t := ReadVarint(bs);
    if t.None? then None else var tag := t.value.0 % 0x1_0000_0000; Some((tag / 8, tag % 8, t.value.1))
  }

  /** Read one field: the field and its length, at least one byte. */
  function ReadField(bs: bytes): (r: Option<(Field, nat)>)
    ensures r.Some? ==> 1 <= r.value.1 <= |bs|
  {
    var t := ReadTag(bs);
    if t.None? then None
    else
      var (num, wire, at) := t.value;
      var v := ReadValue(bs[at..], wire);
      if v.None? then None else Some((Field(num, v.value.0), at + v.value.1))
  }

  lemma ValueBack(v: Value, rest: bytes)
    requires Fits(Field(1, v))
    ensures ReadValue(PutValue(v) + rest, WireType(v)) == Some((v, |PutValue(v)|))
  {
    match v
    case Num(n) => ReadVarintBack(n, rest);
    case Eight(raw) => assert (raw + rest)[..8] == raw;
    case Chunk(data) =>
      ReadVarintBack(|data|, data + rest);
      var len := Varint(|data|);
      assert len + data + rest == len + (data + rest);
      assert (len + data + rest)[|len|..|len| + |data|] == data;
    case Four(n) => FixedBack(n, rest);
  }

  lemma TagBack(num: nat, wire: nat, rest: bytes)
    requires num < 0x2000_0000 && wire < 8
    ensures ReadTag(Varint(num * 8 + wire) + rest) == Some((num, wire, |Varint(num * 8 + wire)|))
  {
    ReadVarintBack(num * 8 + wire, rest);
  }

  /** A field is a tag followed by a value of the tag's wire type. */
  lemma FieldFrom(bs: bytes, num: nat, wire: nat, at: nat, v: Value, n: nat)
    requires ReadTag(bs) == Some((num, wire, at)) && ReadValue(bs[at..], wire) == Some((v, n))
    ensures ReadField(bs) == Some((Field(num, v), at + n))
  {
  }

  lemma Regroup(a: bytes, b: bytes, c: bytes)
    ensures a + b + c == a + (b + c) && (a + b + c)[|a|..] == b + c
  {
  }

  lemma PartsBack(num: nat, v: Value, rest: bytes)
    requires num < 0x2000_0000 && Fits(Field(1, v))
    ensures var (head, body) := (Varint(num * 8 + WireType(v)), PutValue(v));
            ReadField(head + (body + rest)) == Some((Field(num, v), |head| + |body|))
  {
    var (wire, body) := (WireType(v), PutValue(v));
    var head := Varint(num * 8 + wire);
    var bs := head + (body + rest);
    assert bs[|head|..] == body + rest;
    assert ReadTag(bs) == Some((num, wire, |head|)) by { TagBack(num, wire, body + rest); }
    assert ReadValue(body + rest, wire) == Some((v, |body|)) by { ValueBack(v, rest); }
    FieldFrom(bs, num, wire, |head|, v, |body|);
  }

  lemma FieldBack(x: Field, rest: bytes)
    requires Fits(x)
    ensures ReadField(PutField(x) + rest) == Some((x, |PutField(x)|))
  {
    PartsBack(x.num, x.val, rest);
    Regroup(Varint(x.num * 8 + WireType(x.val)), PutValue(x.val), rest);
  }

  // ------------------------------------------------------------------
  // messages
  // ------------------------------------------------------------------

  /** Decode bs field by field into an accumulator; None as soon as anything is malformed. */
  function Fold<A>(bs: bytes, step: (A, Field) -> Option<A>, acc: A): Option<A>
    decreases |bs|
  {
    if bs == [] then Some(acc)
    else
      var x := ReadField(bs);
      if x.None? then None
      else
        var next := step(acc, x.value.0);
        if next.None? then None else Fold(bs[x.value.1..], step, next.value)
  }

  /** The same fold over fields that are already apart. */
  function FoldSeq<A>(xs: seq<Field>, step: (A, Field) -> Option<A>, acc: A): Option<A>
    decreases |xs|
  {
    if xs == [] then Some(acc)
    else
      var next := step(acc, xs[0]);
      if next.None? then None else FoldSeq(xs[1..], step, next.value)
  }

  ghost predicate AllFit(xs: seq<Field>) { forall i :: 0 <= i < |xs| ==> Fits(xs[i]) }

  /** Decoding encoded fields is folding the fields, whatever follows them. */
  lemma {:induction false} FoldPutAll<A>(xs: seq<Field>, rest: bytes, step: (A, Field) -> Option<A>, acc: A)
    requires AllFit(xs)
    ensures var r := FoldSeq(xs, step, acc);
            Fold(PutAll(xs) + rest, step, acc) == if r.None? then None else Fold(rest, step, r.value)
    decreases |xs|
  {
    if xs == [] {
      assert PutAll(xs) + rest == rest;
    } else {
      var (x, tail) := (xs[0], PutAll(xs[1..]) + rest);
      assert PutAll(xs) + rest == PutField(x) + tail;
      FieldBack(x, tail);
      assert (PutField(x) + tail)[|PutField(x)|..] == tail;
      assert AllFit(xs[1..]);
      var next := step(acc, x);
      if next.Some? { FoldPutAll(xs[1..], rest, step, next.value); }
    }
  }

  lemma FoldAll<A>(xs: seq<Field>, step: (A, Field) -> Option<A>, acc: A)
    requires AllFit(xs)
    ensures Fold(PutAll(xs), step, acc) == FoldSeq(xs, step, acc)
  {
    FoldPutAll(xs, [], step, acc);
    assert PutAll(xs) + [] == PutAll(xs);
  }

  lemma {:induction false} FoldSplit<A>(xs: seq<Field>, ys: seq<Field>, step: (A, Field) -> Option<A>, acc: A)
    ensures var r := FoldSeq(xs, step, acc);
            FoldSeq(xs + ys, step, acc) == if r.None? then None else FoldSeq(ys, step, r.value)
    decreases |xs|
  {
    if xs == [] {
      assert xs + ys == ys;
    } else {
      assert (xs + ys)[1..] == xs[1..] + ys;
      var next := step(acc, xs[0]);
      if next.Some? { FoldSplit(xs[1..], ys, step, next.value); }
    }
  }

  lemma Then<A>(xs: seq<Field>, ys: seq<Field>, step: (A, Field) -> Option<A>, a: A, b: A, c: A)
    requires FoldSeq(xs, step, a) == Some(b) && FoldSeq(ys, step, b) == Some(c)
    ensures FoldSeq(xs + ys, step, a) == Some(c)
  {
    FoldSplit(xs, ys, step, a);
  }

  lemma One<A>(x: Field, step: (A, Field) -> Option<A>, a: A)
    ensures FoldSeq([x], step, a) == step(a, x)
  {
    assert [x][1..] == [];
  }

  /** Pieces 1 to n, one after the other. */
  ghost function Concat(piece: nat -> seq<Field>, n: nat): seq<Field>
  {
    if n == 0 then [] else Concat(piece, n - 1) + piece(n)
  }

  /** If piece k takes the accumulator from at(k - 1) to at(k), all of them take it from at(0) to at(n). */
  lemma {:induction false} FoldPieces<A>(piece: nat -> seq<Field>, step: (A, Field) -> Option<A>, at: nat -> A, n: nat)
    requires forall k :: 1 <= k <= n ==> FoldSeq(piece(k), step, at(k - 1)) == Some(at(k))
    ensures FoldSeq(Concat(piece, n), step, at(0)) == Some(at(n))
  {
    if n > 0 {
      FoldPieces(piece, step, at, n - 1);
      Then(Concat(piece, n - 1), piece(n), step, at(0), at(n - 1), at(n));
    }
  }

  /** A repeated field: one field per element. */
  function Mapped<T>(put: T -> Field, ts: seq<T>): seq<Field>
  {
    seq(|ts|, i requires 0 <= i < |ts| => put(ts[i]))
  }

  lemma MappedConcat<T>(put: T -> Field, ts: seq<T>, us: seq<T>)
    ensures PutAll(Mapped(put, ts + us)) == PutAll(Mapped(put, ts)) + PutAll(Mapped(put, us))
  {
    assert Mapped(put, ts + us) == Mapped(put, ts) + Mapped(put, us);
    FlatSplit(PutField, Mapped(put, ts), Mapped(put, us));
  }

  /** A fold that takes its accumulator through accs, one field at a time, ends at the last one. */
  lemma {:induction false} FoldChain<A>(xs: seq<Field>, step: (A, Field) -> Option<A>, accs: seq<A>)
    requires |accs| == |xs| + 1 && forall i :: 0 <= i < |xs| ==> step(accs[i], xs[i]) == Some(accs[i + 1])
    ensures FoldSeq(xs, step, accs[0]) == Some(accs[|xs|])
    decreases |xs|
  {
    if xs != [] {
      assert step(accs[0], xs[0]) == Some(accs[1]);
      forall i | 0 <= i < |xs| - 1
        ensures step(accs[1..][i], xs[1..][i]) == Some(accs[1..][i + 1])
      {
        assert step(accs[i + 1], xs[i + 1]) == Some(accs[i + 2]);
      }
      FoldChain(xs[1..], step, accs[1..]);
    }
  }

  /** A repeated field whose elements join the accumulator one by one. */
  lemma RepeatedInto<A, T>(put: T -> Field, step: (A, Field) -> Option<A>, into: (A, seq<T>) -> A, a: A, ts: seq<T>)
    requires into(a, []) == a
    requires forall i :: 0 <= i < |ts| ==> step(into(a, ts[..i]), put(ts[i])) == Some(into(a, ts[..i + 1]))
    ensures FoldSeq(Mapped(put, ts), step, a) == Some(into(a, ts))
  {
    var (xs, accs) := (Mapped(put, ts), seq(|ts| + 1, i requires 0 <= i <= |ts| => into(a, ts[..i])));
    FoldChain(xs, step, accs);
    assert ts[..0] == [] && ts[..|ts|] == ts;
  }

  function Each<T>(got: T -> T, ts: seq<T>): seq<T> { seq(|ts|, i requires 0 <= i < |ts| => got(ts[i])) }

  lemma EachIs<T>(got: T -> T, ts: seq<T>)
    ensures Each(got, ts) == ts <==> forall i :: 0 <= i < |ts| ==> got(ts[i]) == ts[i]
  {
    if Each(got, ts) == ts { assert forall i :: 0 <= i < |ts| ==> Each(got, ts)[i] == ts[i]; }
  }

  /** A repeated field comes back whole and in order, each element as it decodes alone. */
  lemma RepeatedArrives<T(!new)>(put: T -> Field, step: (seq<T>, Field) -> Option<seq<T>>, got: T -> T, ts: seq<T>)
    requires AllFit(Mapped(put, ts))
    requires forall i, done: seq<T> :: 0 <= i < |ts| ==> step(done, put(ts[i])) == Some(done + [got(ts[i])])
    ensures Fold(PutAll(Mapped(put, ts)), step, []) == Some(Each(got, ts))
  {
    var (xs, accs) := (Mapped(put, ts), seq(|ts| + 1, i requires 0 <= i <= |ts| => Each(got, ts[..i])));
    forall i | 0 <= i < |xs|
      ensures step(accs[i], xs[i]) == Some(accs[i + 1])
    {
      assert Each(got, ts[..i]) + [got(ts[i])] == Each(got, ts[..i + 1]);
    }
    FoldChain(xs, step, accs);
    assert ts[..0] == [] && ts[..|ts|] == ts;
    FoldAll(xs, step, []);
  }

  /** A field a decoder does not look at changes nothing, wherever it stands. */
  lemma IgnoredAnywhere<A(!new)>(xs: seq<Field>, u: Field, ys: seq<Field>, step: (A, Field) -> Option<A>, acc: A)
    requires AllFit(xs) && Fits(u) && AllFit(ys) && forall a: A :: step(a, u) == Some(a)
    ensures Fold(PutAll(xs) + PutField(u) + PutAll(ys), step, acc) == Fold(PutAll(xs) + PutAll(ys), step, acc)
  {
    FoldPutAll(xs, PutAll(ys), step, acc);
    FoldPutAll(xs, PutField(u) + PutAll(ys), step, acc);
    assert PutAll(xs) + PutField(u) + PutAll(ys) == PutAll(xs) + (PutField(u) + PutAll(ys));
    var r := FoldSeq(xs, step, acc);
    if r.Some? {
      FieldBack(u, PutAll(ys));
      assert (PutField(u) + PutAll(ys))[|PutField(u)|..] == PutAll(ys);
    }
  }

  const TWO32 := 0x1_0000_0000

  // ------------------------------------------------------------------
  // the writer and the reader
  // ------------------------------------------------------------------

  class Writer {
    var buf: bytes

    constructor ()
      ensures buf == []
    {
      buf := [];
    }

    /** The loop behind both varints. */
    method PutDigits(v: nat)
      modifies this
      ensures buf == old(buf) + Varint(v)
    {
      var n := v;
      while n > 127
        invariant old(buf) + Varint(v) == buf + Varint(n)
      {
        buf := buf + [128 + n % 128];
        n := n / 128;
      }
      buf := buf + [n];
    }

    /** Flags, codes and lengths are truncated to 32 bits. */
    method PutVarint(v: int)
      modifies this
      ensures buf == old(buf) + Varint(v % TWO32)
    {
      PutDigits(v % TWO32);
    }

    /** Signed and unsigned numbers alike, in two's complement. */
    method PutVarint64(v: int)
      modifies this
      ensures buf == old(buf) + Varint(v % TWO64)
    {
      PutDigits(v % TWO64);
    }

    /** `(num << 3) | wire`, which is a sum as the wire type has three bits. */
    method PutTag(num: nat, wire: nat)
      requires wire < 8
      modifies this
      ensures buf == old(buf) + Varint((num * 8 + wire) % TWO32)
    {
      PutVarint(num * 8 + wire);
    }

    method PutFixed32(num: nat, v: int)
      modifies this
      ensures buf == old(buf) + Varint((num * 8 + 5) % TWO32) + Fixed(v % TWO32)
      ensures num * 8 + 5 < TWO32 ==> buf == old(buf) + PutField(Field(num, Four(v % TWO32)))
    {
      PutTag(num, 5);
      var n: u32 := v % TWO32;
      buf := buf + [n % 256, n / 256 % 256, n / 65536 % 256, n / 16777216 % 256];
    }

    method PutRaw(data: bytes)
      modifies this
      ensures buf == old(buf) + data
    {
      for i := 0 to |data|
        invariant buf == old(buf) + data[..i]
      {
        buf := buf + [data[i]];
        assert data[..i + 1] == data[..i] + [data[i]];
      }
      assert data[..|data|] == data;
    }

    /** The length is truncated like any other number; a field that fits is written whole. */
    method PutBytes(num: nat, data: bytes)
      modifies this
      ensures buf == old(buf) + Delimited(num, data)
      ensures num * 8 + 2 < TWO32 && |data| < TWO32 ==> buf == old(buf) + PutField(Field(num, Chunk(data)))
    {
      PutTag(num, 2);
      PutVarint(|data|);
      PutRaw(data);
      Regroup(old(buf) + Varint((num * 8 + 2) % TWO32), Varint(|data| % TWO32), data);
      Regroup(old(buf), Varint((num * 8 + 2) % TWO32), Varint(|data| % TWO32) + data);
      if num * 8 + 2 < TWO32 && |data| < TWO32 { DelimitedIs(num, data); }
    }
  }

  /** A length-delimited field as the writer puts it, tag and length in 32 bits. */
  function Delimited(num: nat, data: bytes): bytes { Varint((num * 8 + 2) % TWO32) + (Varint(|data| % TWO32) + data) }

  lemma DelimitedIs(num: nat, data: bytes)
    requires num * 8 + 2 < TWO32 && |data| < TWO32
    ensures Delimited(num, data) == PutField(Field(num, Chunk(data)))
  {
  }

  class Reader {
    const buf: bytes
    var pos: nat

    ghost predicate Valid()
      reads this
    {
      pos <= |buf|
    }

    ghost function Rest(): bytes
      requires Valid()
      reads this
    {
      buf[pos..]
    }

    constructor (data: bytes)
      ensures Valid() && buf == data && pos == 0
    {
      buf, pos := data, 0;
    }

    /** One byte; None stands for the "truncated" error. */
    method Next() returns (b: Option<byte>)
      requires Valid()
      modifies `pos
      ensures Valid() && b == (if old(Rest()) == [] then None else Some(old(Rest())[0]))
      ensures pos == old(pos) + (if b.Some? then 1 else 0)
    {
      if pos >= |buf| { return None; }
      b := Some(buf[pos]);
      pos := pos + 1;
    }

    /** Seven bits a byte, low ones first; more than ten bytes or a missing one is an error. */
    method Varint() returns (v: Option<u64>)
      requires Valid()
      modifies `pos
      ensures Valid() && (v.None? <==> ReadVarint(old(Rest())).None?)
      ensures v.Some? ==> ReadVarint(old(Rest())) == Some((v.value, pos - old(pos))) && pos > old(pos)
    {
      var out: nat := 0;
      var unit: nat := 1;
      var i := 0;
      while i < 10
        invariant 0 <= i <= 10 && Valid() && pos == old(pos) + i
        invariant VarintAt(old(Rest()), 0) == Shifted(out, unit, i, VarintAt(Rest(), i))
      {
        ghost var before := Rest();
        var b := Next();
        if b.None? { return None; }
        assert Rest() == before[1..];
        var low: nat := if b.value < 128 then b.value else b.value - 128;
        if b.value < 128 {
          return Some((out + unit * low) % TWO64);
        }
        ShiftedOn(out, unit, i, low, VarintAt(Rest(), i + 1));
        out := out + unit * low;
        unit := unit * 128;
        i := i + 1;
      }
      return None;
    }

    /** A value of the given wire type, or an error; this is also how a field is skipped. */
    method NextValue(wire: nat) returns (v: Option<Value>)
      requires Valid()
      modifies `pos
      ensures Valid() && (v.None? <==> ReadValue(old(Rest()), wire).None?)
      ensures v.Some? ==> ReadValue(old(Rest()), wire) == Some((v.value, pos - old(pos))) && pos >= old(pos)
    {
      if wire == 0 {
        var n := Varint();
        if n.None? { return None; }
        return Some(Num(n.value));
      } else if wire == 1 {
        if pos + 8 > |buf| { return None; }
        pos := pos + 8;
        assert buf[pos - 8..pos] == old(Rest())[..8];
        return Some(Eight(buf[pos - 8..pos]));
      } else if wire == 2 {
        var n := Varint();
        if n.None? { return None; }
        var len := n.value % 0x1_0000_0000;
        if pos + len > |buf| { return None; }
        pos := pos + len;
        assert buf[pos - len..pos] == old(Rest())[pos - len - old(pos)..pos - old(pos)];
        return Some(Chunk(buf[pos - len..pos]));
      } else if wire == 5 {
        if pos + 4 > |buf| { return None; }
        pos := pos + 4;
        return Some(Four(ReadFixed(buf[pos - 4..pos])));
      } else {
        return None;
      }
    }

    method NextField() returns (x: Option<Field>)
      requires Valid()
      modifies `pos
      ensures Valid() && (x.None? <==> ReadField(old(Rest())).None?)
      ensures x.Some? ==> ReadField(old(Rest())) == Some((x.value, pos - old(pos))) && pos > old(pos)
      ensures x.Some? ==> Rest() == old(Rest())[pos - old(pos)..]
    {
      var t := Varint();
      if t.None? { return None; }
      var tag := t.value % 0x1_0000_0000;
      assert Rest() == old(Rest())[pos - old(pos)..];
      var v := NextValue(tag % 8);
      if v.None? { return None; }
      return Some(Field(tag / 8, v.value));
    }
  }

  lemma FoldNone<A>(bs: bytes, step: (A, Field) -> Option<A>, acc: A)
    requires bs != [] && ReadField(bs).None?
    ensures Fold(bs, step, acc).None?
  {
  }

  lemma FoldNext<A>(bs: bytes, step: (A, Field) -> Option<A>, acc: A, x: Field, n: nat)
    requires bs != [] && ReadField(bs) == Some((x, n))
    ensures var next := step(acc, x);
            Fold(bs, step, acc) == if next.None? then None else Fold(bs[n..], step, next.value)
  {
  }

  /** One turn of the decode loop: the next field folded in, or an error. */
  method FoldField<A>(rd: Reader, step: (A, Field) -> Option<A>, acc: A) returns (r: Option<A>)
    requires rd.Valid() && rd.Rest() != []
    modifies rd
    ensures rd.Valid() && (r.Some? ==> rd.pos > old(rd.pos))
    ensures Fold(old(rd.Rest()), step, acc) == if r.None? then None else Fold(rd.Rest(), step, r.value)
  {
    ghost var (at, rest) := (rd.pos, rd.Rest());
    var x := rd.NextField();
    if x.None? {
      FoldNone(rest, step, acc);
      return None;
    }
    FoldNext(rest, step, acc, x.value, rd.pos - at);
    return step(acc, x.value);
  }

  /** The loop every decoder runs: fields until the end of the data, or an error. It stays in bounds and
      terminates on any bytes. */
  method DecodeMessage<A>(data: bytes, step: (A, Field) -> Option<A>, init: A) returns (r: Option<A>)
    ensures r == Fold(data, step, init)
  {
    var rd := new Reader(data);
    r := Some(init);
    assert rd.Rest() == data;
    while r.Some? && rd.pos < |data|
      invariant rd.Valid() && rd.buf == data
      invariant Fold(data, step, init) == if r.None? then None else Fold(rd.Rest(), step, r.value)
      decreases r.Some?, |data| - rd.pos
    {
      r := FoldField(rd, step, r.value);
    }
  }

  /** The varint that `out`, worth i bytes, and a reading of the rest make together. */
  function Shifted(out: nat, unit: nat, i: nat, rest: Option<(nat, nat)>): Option<(nat, nat)>
  {
    if rest.None? then None else Some((out + unit * rest.value.0, i + rest.value.1))
  }

  lemma ShiftedOn(out: nat, unit: nat, i: nat, low: nat, rest: Option<(nat, nat)>)
    ensures Shifted(out, unit, i, if rest.None? then None else Some((low + 128 * rest.value.0, rest.value.1 + 1)))
            == Shifted(out + unit * low, unit * 128, i + 1, rest)
  {
    if rest.Some? {
      var v := rest.value.0;
      assert unit * (low + 128 * v) == unit * low + unit * 128 * v;
    }
  }
}
