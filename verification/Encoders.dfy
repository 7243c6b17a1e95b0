/** The encoders of whole messages as they drive the writer, one field after the other. Each returns the
    canonical bytes of its message whenever every length fits the wire, and fails exactly on a binary
    metadata value that is not base64. */
module Encoders {
  import opened Credit
  import opened Text
  import opened Base64
  import opened Wire
  import opened Metadata
  import opened Codec

  // ------------------------------------------------------------------
  // single fields
  // ------------------------------------------------------------------

  lemma Single(x: Field)
    ensures PutAll([x]) == PutField(x)
  {
    assert PutAll([x]) == PutField(x) + PutAll([x][1..]);
    assert PutField(x) + [] == PutField(x);
  }

  method WriteChunk(w: Writer, num: nat, data: bytes)
    modifies w
    ensures Fits(Field(num, Chunk(data))) ==> w.buf == old(w.buf) + PutAll([Field(num, Chunk(data))])
  {
    w.PutBytes(num, data);
    Single(Field(num, Chunk(data)));
  }

  lemma TagIs(num: nat)
    requires num < 0x2000_0000
    ensures num * 8 % TWO32 == num * 8
  {
  }

  lemma NumPut(num: nat, n: u64)
    ensures PutField(Field(num, Num(n))) == Varint(num * 8) + Varint(n)
  {
  }

  lemma Behind(pre: bytes, a: bytes, b: bytes, x: Field)
    requires PutField(x) == a + b
    ensures pre + a + b == pre + PutAll([x])
  {
    Single(x);
    Regroup(pre, a, b);
  }

  lemma NumIs(pre: bytes, num: nat, n: u64)
    requires num < 0x2000_0000
    ensures pre + Varint(num * 8 % TWO32) + Varint(n) == pre + PutAll([Field(num, Num(n))])
  {
    TagIs(num);
    NumPut(num, n);
    Behind(pre, Varint(num * 8), Varint(n), Field(num, Num(n)));
  }

  method WriteNum(w: Writer, num: nat, n: u32)
    modifies w
    ensures num < 0x2000_0000 ==> w.buf == old(w.buf) + PutAll([Field(num, Num(n))])
  {
    w.PutTag(num, 0);
    w.PutVarint(n);
    if num < 0x2000_0000 { NumIs(old(w.buf), num, n); }
  }

  method WriteSigned(w: Writer, num: nat, v: int)
    modifies w
    ensures num < 0x2000_0000 ==> w.buf == old(w.buf) + PutAll([Field(num, Num(Wrap(v)))])
  {
    w.PutTag(num, 0);
    w.PutVarint64(v);
    if num < 0x2000_0000 { NumIs(old(w.buf), num, Wrap(v)); }
  }

  method WriteFixed(w: Writer, num: nat, n: u32)
    modifies w
    ensures num < 0x2000_0000 ==> w.buf == old(w.buf) + PutAll([Field(num, Four(n))])
  {
    w.PutFixed32(num, n);
    Single(Field(num, Four(n)));
  }

  method WriteFixedField(w: Writer, num: nat, n: u32)
    modifies w
    ensures num < 0x2000_0000 ==> w.buf == old(w.buf) + PutAll(FixedField(num, n))
  {
    if n != 0 { WriteFixed(w, num, n); }
  }

  method WriteNumField(w: Writer, num: nat, n: u32)
    modifies w
    ensures num < 0x2000_0000 ==> w.buf == old(w.buf) + PutAll(NumField(num, n))
  {
    if n != 0 { WriteNum(w, num, n); }
  }

  method WriteTextField(w: Writer, num: nat, s: string)
    modifies w
    ensures AllFit(TextField(num, s)) ==> w.buf == old(w.buf) + PutAll(TextField(num, s))
  {
    if s != "" { WriteChunk(w, num, Encode(s)); }
    assert s != "" ==> TextField(num, s)[0] == Field(num, Chunk(Encode(s)));
  }

  // ------------------------------------------------------------------
  // nested messages
  // ------------------------------------------------------------------

  lemma TwoParts(xs: seq<Field>, ys: seq<Field>)
    ensures PutAll(xs + ys) == [] + PutAll(xs) + PutAll(ys)
  {
    FlatSplit(PutField, xs, ys);
    assert [] + PutAll(xs) == PutAll(xs);
  }

  method WriteSignedField(w: Writer, num: nat, v: int)
    modifies w
    ensures num < 0x2000_0000 ==> w.buf == old(w.buf) + PutAll(OptField(v != 0, Field(num, Num(Wrap(v)))))
  {
    if v != 0 { WriteSigned(w, num, v); }
  }

  method WriteDuration(ns: int) returns (r: bytes)
    ensures r == EncodeDuration(ns)
  {
    var w := new Writer();
    var (seconds, nanos) := (Quot(ns), Rem(ns));
    WriteSignedField(w, 1, seconds);
    WriteSignedField(w, 2, nanos);
    TwoParts(OptField(seconds != 0, Field(1, Num(Wrap(seconds)))), OptField(nanos != 0, Field(2, Num(Wrap(nanos)))));
    return w.buf;
  }

  method WriteBytesField(w: Writer, num: nat, data: bytes)
    modifies w
    ensures Fits(Field(num, Chunk(data)))
            ==> w.buf == old(w.buf) + PutAll(OptField(data != [], Field(num, Chunk(data))))
  {
    if data != [] { WriteChunk(w, num, data); }
  }

  method WriteAny(a: Any) returns (r: bytes)
    ensures AnyFits(a) ==> r == EncodeAny(a)
  {
    var w := new Writer();
    WriteTextField(w, 1, a.typeUrl);
    WriteBytesField(w, 2, a.value);
    TwoParts(TextField(1, a.typeUrl), OptField(a.value != [], Field(2, Chunk(a.value))));
    return w.buf;
  }

  method WriteValue(key: string, v: string) returns (r: Option<bytes>)
    ensures r == Octets(key, v)
  {
    if IsBinary(key) { r := DecodeBase64(v); } else { r := Some(Encode(v)); }
  }

  /** Its raw values, if there are any, fit their entry. */
  ghost predicate EntryFits(key: string, vs: seq<string>)
  {
    AllOctets(key, vs).Some? && AllFit(EntryFields(key, AllOctets(key, vs).value))
  }

  lemma EntryNext(key: string, raws: seq<bytes>, i: nat)
    requires i < |raws|
    ensures PutAll(EntryFields(key, raws[..i + 1]))
            == PutAll(EntryFields(key, raws[..i])) + PutAll([Field(2, Chunk(raws[i]))])
  {
    assert EntryFields(key, raws[..i + 1]) == EntryFields(key, raws[..i]) + [Field(2, Chunk(raws[i]))];
    FlatSplit(PutField, EntryFields(key, raws[..i]), [Field(2, Chunk(raws[i]))]);
  }

  method WriteEntry(key: string, vs: seq<string>) returns (r: Option<bytes>)
    ensures r.None? <==> AllOctets(key, vs).None?
    ensures EntryFits(key, vs) ==> r == Some(PutAll(EntryFields(key, AllOctets(key, vs).value)))
  {
    ghost var all := AllOctets(key, vs);
    AllOctetsIs(key, vs);
    var w := new Writer();
    WriteChunk(w, 1, Encode(key));
    assert EntryFits(key, vs) ==> Fits(EntryFields(key, all.value)[0]);
    assert EntryFields(key, []) == [Field(1, Chunk(Encode(key)))];
    for i := 0 to |vs|
      invariant forall j :: 0 <= j < i ==> Octets(key, vs[j]).Some?
      invariant EntryFits(key, vs) ==> w.buf == PutAll(EntryFields(key, all.value[..i]))
    {
      var b := WriteValue(key, vs[i]);
      if b.None? { return None; }
      WriteChunk(w, 2, b.value);
      if EntryFits(key, vs) {
        assert Fits(EntryFields(key, all.value)[i + 1]);
        EntryNext(key, all.value, i);
      }
    }
    assert EntryFits(key, vs) ==> all.value[..|vs|] == all.value;
    return Some(w.buf);
  }

  /** The keys of an object, in whatever order it holds them. */
  method Keys(md: Md) returns (ks: seq<string>)
    ensures Distinct(ks) && forall x :: x in ks <==> x in md
  {
    ks := [];
    var rest := md.Keys;
    while rest != {}
      invariant Distinct(ks) && forall x :: x in md <==> x in ks || x in rest
      invariant forall x :: x in ks ==> x !in rest
      decreases |rest|
    {
      var k :| k in rest;
      ks := ks + [k];
      rest := rest - {k};
    }
  }

  lemma EntriesFrom(keys: seq<string>, md: Md, i: nat)
    requires (forall x :: x in keys ==> x in md) && i < |keys|
    ensures EntriesOf(keys[i..], md).Some?
            <==> AllOctets(keys[i], md[keys[i]]).Some? && EntriesOf(keys[i + 1..], md).Some?
  {
    assert keys[i..][1..] == keys[i + 1..];
  }

  lemma EntriesNext(es: seq<Field>, i: nat)
    requires i < |es|
    ensures PutAll(es[..i + 1]) == PutAll(es[..i]) + PutAll([es[i]])
  {
    assert es[..i + 1] == es[..i] + [es[i]];
    FlatSplit(PutField, es[..i], [es[i]]);
  }

  ghost predicate AllKeysFit(md: Md) { forall key :: key in md ==> KeyFits(md, key) }

  method PutEntry(w: Writer, key: string, md: Md) returns (ok: bool)
    requires key in md
    modifies w
    ensures ok <==> AllOctets(key, md[key]).Some?
    ensures KeyFits(md, key) ==> w.buf == old(w.buf) + PutAll([EntryField(key, Raws(md, key))])
  {
    var e := WriteEntry(key, md[key]);
    if e.None? { return false; }
    WriteChunk(w, 1, e.value);
    return true;
  }

  /** The entries of the first i keys are in the buffer, and the others decide whether there are any. */
  ghost predicate Built(buf: bytes, keys: seq<string>, md: Md, i: nat)
    requires forall x :: x in keys ==> x in md
  {
    && i <= |keys| && (EntriesOf(keys, md).Some? <==> EntriesOf(keys[i..], md).Some?)
    && (AllKeysFit(md) ==> EntriesOf(keys, md).Some? && |EntriesOf(keys, md).value| == |keys|
                           && buf == PutAll(EntriesOf(keys, md).value[..i]))
  }

  lemma BuiltNone(keys: seq<string>, md: Md)
    requires forall x :: x in keys ==> x in md
    ensures Built([], keys, md, 0)
  {
    assert keys[0..] == keys;
    if AllKeysFit(md) { EntriesAre(keys, md); }
  }

  lemma BuiltNext(keys: seq<string>, md: Md, i: nat, was: bytes, now: bytes)
    requires (forall x :: x in keys ==> x in md) && i < |keys| && Built(was, keys, md, i)
    requires AllOctets(keys[i], md[keys[i]]).Some?
    requires KeyFits(md, keys[i]) ==> now == was + PutAll([EntryField(keys[i], Raws(md, keys[i]))])
    ensures Built(now, keys, md, i + 1)
  {
    EntriesFrom(keys, md, i);
    if AllKeysFit(md) {
      EntriesAre(keys, md);
      EntriesNext(EntriesOf(keys, md).value, i);
      assert KeyFits(md, keys[i]);
    }
  }

  lemma BuiltAll(keys: seq<string>, md: Md, buf: bytes)
    requires (forall x :: x in keys ==> x in md) && Built(buf, keys, md, |keys|)
    ensures EntriesOf(keys, md).Some? && (AllKeysFit(md) ==> buf == PutAll(EntriesOf(keys, md).value))
  {
    if AllKeysFit(md) {
      var es := EntriesOf(keys, md).value;
      assert es[..|keys|] == es;
    }
  }

  /** Entry i, behind the ones before it. */
  method PutEntryAt(w: Writer, keys: seq<string>, md: Md, i: nat) returns (ok: bool)
    requires (forall x :: x in keys ==> x in md) && i < |keys| && Built(w.buf, keys, md, i)
    modifies w
    ensures if ok then Built(w.buf, keys, md, i + 1) else EntriesOf(keys, md).None?
  {
    ghost var was := w.buf;
    EntriesFrom(keys, md, i);
    ok := PutEntry(w, keys[i], md);
    if ok { BuiltNext(keys, md, i, was, w.buf); }
  }

  /** The entries of md in the order of keys. */
  method WriteEntries(w: Writer, keys: seq<string>, md: Md) returns (ok: bool)
    requires w.buf == [] && forall x :: x in keys ==> x in md
    modifies w
    ensures ok <==> EntriesOf(keys, md).Some?
    ensures ok && AllKeysFit(md) ==> w.buf == PutAll(EntriesOf(keys, md).value)
  {
    BuiltNone(keys, md);
    for i := 0 to |keys|
      invariant Built(w.buf, keys, md, i)
    {
      ok := PutEntryAt(w, keys, md, i);
      if !ok { return; }
    }
    BuiltAll(keys, md, w.buf);
    return true;
  }

  method WriteMetadata(md: Md) returns (r: Option<bytes>)
    ensures r.None? <==> EncodeMetadata(md).None?
    ensures MdFits(md) ==> r == EncodeMetadata(md)
  {
    var ks := Keys(md);
    BytesAreCanonical(ks, md);
    SortAscends(ks);
    var w := new Writer();
    var ok := WriteEntries(w, Sort(ks), md);
    return if ok then Some(w.buf) else None;
  }

  // ------------------------------------------------------------------
  // frames
  // ------------------------------------------------------------------

  lemma FitBoth(xs: seq<Field>, ys: seq<Field>)
    requires AllFit(xs + ys)
    ensures AllFit(xs) && AllFit(ys)
  {
    forall i | 0 <= i < |xs|
      ensures Fits(xs[i])
    {
      assert Fits((xs + ys)[i]);
    }
    forall i | 0 <= i < |ys|
      ensures Fits(ys[i])
    {
      assert Fits((xs + ys)[|xs| + i]);
    }
  }

  lemma {:induction false} PiecesFit(piece: nat -> seq<Field>, n: nat, k: nat)
    requires AllFit(Concat(piece, n)) && 1 <= k <= n
    ensures AllFit(piece(k))
  {
    FitBoth(Concat(piece, n - 1), piece(n));
    if k < n { PiecesFit(piece, n - 1, k); }
  }

  /** Pieces 1 to n one after the other, as bytes. */
  ghost function Bytes(piece: nat -> seq<Field>, n: nat): bytes
  {
    if n == 0 then [] else Bytes(piece, n - 1) + PutAll(piece(n))
  }

  lemma {:induction false} BytesAre(piece: nat -> seq<Field>, n: nat)
    ensures Bytes(piece, n) == PutAll(Concat(piece, n))
  {
    if n > 0 {
      BytesAre(piece, n - 1);
      FlatSplit(PutField, Concat(piece, n - 1), piece(n));
    }
  }

  // The fields in five groups, each put behind what is there already.

  ghost function Numbers(pre: bytes, f: Frame): bytes
  {
    pre + PutAll(FixedField(1, f.epoch)) + PutAll(FixedField(2, f.sid)) + PutAll(FixedField(3, f.seqno))
    + PutAll(NumField(4, f.flags))
  }

  method WriteNumbers(w: Writer, f: Frame)
    modifies w
    ensures w.buf == Numbers(old(w.buf), f)
  {
    WriteFixedField(w, 1, f.epoch);
    WriteFixedField(w, 2, f.sid);
    WriteFixedField(w, 3, f.seqno);
    WriteNumField(w, 4, f.flags);
  }

  ghost predicate NamesFit(f: Frame) { AllFit(TextField(5, f.method_)) && AllFit(TextField(7, f.codec)) }

  ghost function Names(pre: bytes, f: Frame): bytes
  {
    pre + PutAll(TextField(5, f.method_)) + PutAll(TextField(7, f.codec))
  }

  method WriteNames(w: Writer, f: Frame)
    modifies w
    ensures NamesFit(f) ==> w.buf == Names(old(w.buf), f)
  {
    WriteTextField(w, 5, f.method_);
    WriteTextField(w, 7, f.codec);
  }

  function TimeoutField(ns: Option<int>): seq<Field>
  {
    if ns.None? then [] else [Field(8, Chunk(EncodeDuration(ns.value)))]
  }

  function PayloadField(data: Option<bytes>): seq<Field> { if data.None? then [] else [Field(9, Chunk(data.value))] }

  function CodeField(code: Option<u32>): seq<Field> { if code.None? then [] else [Field(10, Num(code.value))] }

  method WriteTimeout(w: Writer, ns: Option<int>)
    modifies w
    ensures AllFit(TimeoutField(ns)) ==> w.buf == old(w.buf) + PutAll(TimeoutField(ns))
  {
    if ns.Some? {
      var d := WriteDuration(ns.value);
      WriteChunk(w, 8, d);
      assert TimeoutField(ns)[0] == Field(8, Chunk(d));
    }
  }

  method WritePayload(w: Writer, data: Option<bytes>)
    modifies w
    ensures AllFit(PayloadField(data)) ==> w.buf == old(w.buf) + PutAll(PayloadField(data))
  {
    if data.Some? {
      WriteChunk(w, 9, data.value);
      assert PayloadField(data)[0] == Field(9, Chunk(data.value));
    }
  }

  method WriteCode(w: Writer, code: Option<u32>)
    modifies w
    ensures w.buf == old(w.buf) + PutAll(CodeField(code))
  {
    if code.Some? { WriteNum(w, 10, code.value); }
  }

  ghost predicate BodyFits(f: Frame)
  {
    AllFit(TimeoutField(f.timeout)) && AllFit(PayloadField(f.payload)) && AllFit(TextField(11, f.desc))
  }

  ghost function Body(pre: bytes, f: Frame): bytes
  {
    pre + PutAll(TimeoutField(f.timeout)) + PutAll(PayloadField(f.payload)) + PutAll(CodeField(f.code))
    + PutAll(TextField(11, f.desc))
  }

  method WriteBody(w: Writer, f: Frame)
    modifies w
    ensures BodyFits(f) ==> w.buf == Body(old(w.buf), f)
  {
    WriteTimeout(w, f.timeout);
    WritePayload(w, f.payload);
    WriteCode(w, f.code);
    WriteTextField(w, 11, f.desc);
  }

  method WriteMd(w: Writer, num: nat, md: Option<Md>) returns (ok: bool)
    modifies w
    ensures ok <==> (md.Some? ==> EncodeMetadata(md.value).Some?)
    ensures ok && OptFits(md) && AllFit(MdField(num, md)) ==> w.buf == old(w.buf) + PutAll(MdField(num, md))
  {
    if md.None? { return true; }
    var b := WriteMetadata(md.value);
    if b.None? { return false; }
    WriteChunk(w, num, b.value);
    assert OptFits(md) ==> MdField(num, md)[0] == Field(num, Chunk(b.value));
    return true;
  }

  ghost predicate MdsFit(f: Frame)
    requires Encodes(f)
  {
    OptFits(f.header) && OptFits(f.trailer) && AllFit(MdField(12, f.header)) && AllFit(MdField(13, f.trailer))
  }

  ghost function Mds(pre: bytes, f: Frame): bytes
    requires Encodes(f)
  {
    pre + PutAll(MdField(12, f.header)) + PutAll(MdField(13, f.trailer))
  }

  method WriteMds(w: Writer, f: Frame) returns (ok: bool)
    modifies w
    ensures ok <==> Encodes(f)
    ensures ok && MdsFit(f) ==> w.buf == Mds(old(w.buf), f)
  {
    ok := WriteMd(w, 12, f.header);
    if ok { ok := WriteMd(w, 13, f.trailer); }
  }

  lemma DetailNext(ds: seq<Any>, i: nat)
    requires i < |ds|
    ensures PutAll(Mapped(DetailField, ds[..i + 1]))
            == PutAll(Mapped(DetailField, ds[..i])) + PutAll([DetailField(ds[i])])
  {
    assert ds[..i + 1] == ds[..i] + [ds[i]];
    MappedConcat(DetailField, ds[..i], [ds[i]]);
    assert Mapped(DetailField, [ds[i]]) == [DetailField(ds[i])];
  }

  ghost predicate DetailsFit(ds: seq<Any>)
  {
    forall i :: 0 <= i < |ds| ==> AnyFits(ds[i]) && Fits(DetailField(ds[i]))
  }

  method WriteDetail(w: Writer, a: Any)
    modifies w
    ensures AnyFits(a) && Fits(DetailField(a)) ==> w.buf == old(w.buf) + PutAll([DetailField(a)])
  {
    var b := WriteAny(a);
    WriteChunk(w, 17, b);
  }

  method WriteDetails(w: Writer, ds: seq<Any>)
    modifies w
    ensures DetailsFit(ds) ==> w.buf == old(w.buf) + PutAll(Mapped(DetailField, ds))
  {
    for i := 0 to |ds|
      invariant DetailsFit(ds) ==> w.buf == old(w.buf) + PutAll(Mapped(DetailField, ds[..i]))
    {
      WriteDetail(w, ds[i]);
      DetailNext(ds, i);
      if DetailsFit(ds) { Regroup(old(w.buf), PutAll(Mapped(DetailField, ds[..i])), PutAll([DetailField(ds[i])])); }
    }
    assert ds[..|ds|] == ds;
  }

  ghost predicate RestFits(f: Frame) { AllFit(TextField(16, f.compressor)) && DetailsFit(f.details) }

  ghost function Rest(pre: bytes, f: Frame): bytes
  {
    pre + PutAll(FixedField(14, f.peerEpoch)) + PutAll(NumField(15, f.window)) + PutAll(TextField(16, f.compressor))
    + PutAll(Mapped(DetailField, f.details)) + PutAll(NumField(18, f.connWindow))
  }

  method WriteRest(w: Writer, f: Frame)
    modifies w
    ensures RestFits(f) ==> w.buf == Rest(old(w.buf), f)
  {
    WriteFixedField(w, 14, f.peerEpoch);
    WriteNumField(w, 15, f.window);
    WriteTextField(w, 16, f.compressor);
    WriteDetails(w, f.details);
    WriteNumField(w, 18, f.connWindow);
  }

  lemma PieceFits(f: Frame, k: nat)
    requires FrameFits(f) && 1 <= k <= 18
    ensures AllFit(Piece(f, k))
  {
    PiecesFit((j: nat) => Piece(f, j), 18, k);
  }

  lemma GroupsFit(f: Frame)
    requires Encodes(f) && forall k {:trigger Piece(f, k)} :: 1 <= k <= 18 ==> AllFit(Piece(f, k))
    requires OptFits(f.header) && OptFits(f.trailer)
    requires forall i :: 0 <= i < |f.details| ==> AnyFits(f.details[i])
    ensures NamesFit(f) && BodyFits(f) && MdsFit(f) && RestFits(f)
  {
    assert AllFit(Piece(f, 5)) && AllFit(Piece(f, 7));
    assert AllFit(Piece(f, 8)) && AllFit(Piece(f, 9)) && AllFit(Piece(f, 11));
    assert AllFit(Piece(f, 12)) && AllFit(Piece(f, 13));
    assert AllFit(Piece(f, 16)) && AllFit(Piece(f, 17));
    forall i | 0 <= i < |f.details|
      ensures Fits(DetailField(f.details[i]))
    {
      assert Fits(Piece(f, 17)[i]);
    }
  }

  ghost predicate PiecesOf(p: nat -> seq<Field>, f: Frame) { forall k :: p(k) == Piece(f, k) }

  lemma NumbersAre(p: nat -> seq<Field>, pre: bytes, f: Frame)
    requires Encodes(f) && PiecesOf(p, f)
    ensures Numbers(pre, f) == pre + PutAll(p(1)) + PutAll(p(2)) + PutAll(p(3)) + PutAll(p(4))
  {
  }

  lemma NamesAre(p: nat -> seq<Field>, pre: bytes, f: Frame)
    requires Encodes(f) && PiecesOf(p, f)
    ensures p(6) == [] && Names(pre, f) == pre + PutAll(p(5)) + PutAll(p(7))
  {
  }

  lemma BodyPieces(f: Frame)
    requires Encodes(f)
    ensures Piece(f, 8) == TimeoutField(f.timeout) && Piece(f, 9) == PayloadField(f.payload)
    ensures Piece(f, 10) == CodeField(f.code) && Piece(f, 11) == TextField(11, f.desc)
  {
  }

  lemma BodyIs(p: nat -> seq<Field>, pre: bytes, f: Frame)
    requires Encodes(f) && PiecesOf(p, f)
    ensures Body(pre, f) == pre + PutAll(p(8)) + PutAll(p(9)) + PutAll(p(10)) + PutAll(p(11))
  {
    BodyPieces(f);
  }

  lemma MdsAre(p: nat -> seq<Field>, pre: bytes, f: Frame)
    requires Encodes(f) && PiecesOf(p, f)
    ensures Mds(pre, f) == pre + PutAll(p(12)) + PutAll(p(13))
  {
  }

  lemma RestPieces(f: Frame)
    requires Encodes(f)
    ensures Piece(f, 14) == FixedField(14, f.peerEpoch) && Piece(f, 15) == NumField(15, f.window)
    ensures Piece(f, 16) == TextField(16, f.compressor) && Piece(f, 17) == Mapped(DetailField, f.details)
    ensures Piece(f, 18) == NumField(18, f.connWindow)
  {
  }

  lemma RestIs(p: nat -> seq<Field>, pre: bytes, f: Frame)
    requires Encodes(f) && PiecesOf(p, f)
    ensures Rest(pre, f) == pre + PutAll(p(14)) + PutAll(p(15)) + PutAll(p(16)) + PutAll(p(17)) + PutAll(p(18))
  {
    RestPieces(f);
  }

  ghost function Groups(f: Frame): bytes
    requires Encodes(f)
  {
    Rest(Mds(Body(Names(Numbers([], f), f), f), f), f)
  }

  /** The groups are the frame. */
  lemma GroupsAre(p: nat -> seq<Field>, f: Frame)
    requires Encodes(f) && PiecesOf(p, f)
    ensures Groups(f) == Bytes(p, 18)
  {
    var a := Numbers([], f);
    NumbersAre(p, [], f);
    var b := Names(a, f);
    NamesAre(p, a, f);
    var c := Body(b, f);
    BodyIs(p, b, f);
    var d := Mds(c, f);
    MdsAre(p, c, f);
    RestIs(p, d, f);
    BytesSpelled(p);
  }

  lemma GroupsEncode(f: Frame)
    requires Encodes(f)
    ensures Groups(f) == PutAll(FrameFields(f))
  {
    var p := (j: nat) => Piece(f, j);
    GroupsAre(p, f);
    BytesAre(p, 18);
  }

  lemma BytesSpelled(p: nat -> seq<Field>)
    requires p(6) == []
    ensures Bytes(p, 18)
            == [] + PutAll(p(1)) + PutAll(p(2)) + PutAll(p(3)) + PutAll(p(4)) + PutAll(p(5)) + PutAll(p(7))
               + PutAll(p(8)) + PutAll(p(9)) + PutAll(p(10)) + PutAll(p(11)) + PutAll(p(12)) + PutAll(p(13))
               + PutAll(p(14)) + PutAll(p(15)) + PutAll(p(16)) + PutAll(p(17)) + PutAll(p(18))
  {
    assert Bytes(p, 6) == Bytes(p, 5);
  }

  /** The frame encoder: canonical bytes for every frame that fits the wire, an error exactly for metadata
      that cannot be encoded. */
  method WriteFrame(f: Frame) returns (r: Option<bytes>)
    ensures r.None? <==> EncodeFrame(f).None?
    ensures FrameFits(f) ==> r == EncodeFrame(f)
  {
    var w := new Writer();
    WriteNumbers(w, f);
    WriteNames(w, f);
    WriteBody(w, f);
    var ok := WriteMds(w, f);
    if !ok { return None; }
    WriteRest(w, f);
    if FrameFits(f) {
      forall k | 1 <= k <= 18 { PieceFits(f, k); }
      GroupsFit(f);
      GroupsEncode(f);
    }
    return Some(w.buf);
  }

  // ------------------------------------------------------------------
  // envelopes
  // ------------------------------------------------------------------

  /** Each string as a field 1, with its length in 32 bits. */
  function Wrapped(bs: seq<bytes>): bytes
  {
    if bs == [] then [] else Wrapped(bs[..|bs| - 1]) + Delimited(1, bs[|bs| - 1])
  }

  lemma WrappedNext(bs: seq<bytes>, b: bytes)
    ensures Wrapped(bs + [b]) == Wrapped(bs) + Delimited(1, b)
  {
    assert (bs + [b])[..|bs|] == bs;
  }

  /** b is what the encoder makes of f. */
  ghost predicate Wrote(f: Frame, b: bytes) { Encodes(f) && (FrameFits(f) ==> EncodeFrame(f) == Some(b)) }

  ghost predicate Pairwise<A, B>(rel: (A, B) -> bool, xs: seq<A>, ys: seq<B>)
  {
    |xs| == |ys| && forall i :: 0 <= i < |xs| ==> rel(xs[i], ys[i])
  }

  lemma PairwiseNext<A, B>(rel: (A, B) -> bool, xs: seq<A>, ys: seq<B>, y: B)
    requires |ys| < |xs| && Pairwise(rel, xs[..|ys|], ys) && rel(xs[|ys|], y)
    ensures Pairwise(rel, xs[..|ys| + 1], ys + [y])
  {
    forall i | 0 <= i <= |ys|
      ensures rel(xs[i], (ys + [y])[i])
    {
      if i < |ys| { assert rel(xs[..|ys|][i], ys[i]); }
    }
  }

  lemma WrappedOne<T>(put: T -> Field, t: T, b: bytes)
    requires put(t) == Field(1, Chunk(b)) && |b| < TWO32
    ensures PutAll(Mapped(put, [t])) == Delimited(1, b)
  {
    assert Mapped(put, [t]) == [put(t)];
    Single(put(t));
    DelimitedIs(1, b);
  }

  lemma WrappedStep<T>(put: T -> Field, ts: seq<T>, bs: seq<bytes>, k: nat)
    requires k < |ts| == |bs| && put(ts[k]) == Field(1, Chunk(bs[k])) && |bs[k]| < TWO32
    requires Wrapped(bs[..k]) == PutAll(Mapped(put, ts[..k]))
    ensures Wrapped(bs[..k + 1]) == PutAll(Mapped(put, ts[..k + 1]))
  {
    assert bs[..k + 1] == bs[..k] + [bs[k]] && ts[..k + 1] == ts[..k] + [ts[k]];
    WrappedNext(bs[..k], bs[k]);
    MappedConcat(put, ts[..k], [ts[k]]);
    WrappedOne(put, ts[k], bs[k]);
  }

  lemma {:induction false} WrappedMapped<T>(put: T -> Field, ts: seq<T>, bs: seq<bytes>, k: nat)
    requires k <= |ts| == |bs|
    requires forall i :: 0 <= i < |ts| ==> put(ts[i]) == Field(1, Chunk(bs[i])) && |bs[i]| < TWO32
    ensures Wrapped(bs[..k]) == PutAll(Mapped(put, ts[..k]))
  {
    if k > 0 {
      WrappedMapped(put, ts, bs, k - 1);
      WrappedStep(put, ts, bs, k - 1);
    }
  }

  lemma WroteField(f: Frame, b: bytes)
    requires Wrote(f, b) && FrameFits(f) && |EncodeFrame(f).value| <= U32_MAX
    ensures EnvelopeField(f) == Field(1, Chunk(b)) && |b| < TWO32
  {
  }

  lemma WrappedIs(fs: seq<Frame>, bs: seq<bytes>)
    requires Pairwise(Wrote, fs, bs) && EnvelopeFits(fs)
    ensures Wrapped(bs) == PutAll(Mapped(EnvelopeField, fs))
  {
    forall i | 0 <= i < |fs|
      ensures EnvelopeField(fs[i]) == Field(1, Chunk(bs[i])) && |bs[i]| < TWO32
    {
      WroteField(fs[i], bs[i]);
    }
    WrappedMapped(EnvelopeField, fs, bs, |fs|);
    assert fs[..|fs|] == fs && bs[..|bs|] == bs;
  }

  /** The envelope encoder: every frame as a field, in order, or an error. */
  method WriteEnvelope(fs: seq<Frame>) returns (r: Option<bytes>)
    ensures r.None? <==> EncodeEnvelope(fs).None?
    ensures EnvelopeFits(fs) ==> r == EncodeEnvelope(fs)
  {
    var w := new Writer();
    ghost var bs: seq<bytes> := [];
    for i := 0 to |fs|
      invariant |bs| == i && Pairwise(Wrote, fs[..i], bs)
      invariant w.buf == Wrapped(bs)
    {
      var b := WriteFrame(fs[i]);
      if b.None? { return None; }
      w.PutBytes(1, b.value);
      PairwiseNext(Wrote, fs, bs, b.value);
      WrappedNext(bs, b.value);
      bs := bs + [b.value];
    }
    assert fs[..|fs|] == fs;
    if EnvelopeFits(fs) { WrappedIs(fs, bs); }
    return Some(w.buf);
  }
}
