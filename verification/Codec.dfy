/** The messages of the protocol on the wire layer: durations, Any details, metadata, frames and
    envelopes. */
module Codec {
  import opened Credit
  import opened Text
  import opened Wire
  import opened Metadata

  function OptField(on: bool, x: Field): seq<Field> { if on then [x] else [] }

  // ------------------------------------------------------------------
  // durations, in whole nanoseconds
  // ------------------------------------------------------------------

  const SECOND := 1_000_000_000

  /** Division that truncates toward zero, and its remainder. */
  function Quot(a: int): int { if a >= 0 then a / SECOND else -((-a) / SECOND) }

  function Rem(a: int): int { a - Quot(a) * SECOND }

  /** Two's complement in n values, and back. */
  function Wrap(v: int): u64 { v % TWO64 }

  function Signed64(n: u64): int { if n < TWO64 / 2 then n else n - TWO64 }

  function Signed32(n: u64): int
  {
    var m := n % 0x1_0000_0000; if m < 0x8000_0000 then m else m - 0x1_0000_0000
  }

  function DurationFields(seconds: int, nanos: int): seq<Field>
  {
    OptField(seconds != 0, Field(1, Num(Wrap(seconds)))) + OptField(nanos != 0, Field(2, Num(Wrap(nanos))))
  }

  function EncodeDuration(ns: int): bytes { PutAll(DurationFields(Quot(ns), Rem(ns))) }

  function DurationStep(acc: (int, int), x: Field): Option<(int, int)>
  {
    if x.num == 1 && x.val.Num? then Some((Signed64(x.val.n), acc.1))
    else if x.num == 2 && x.val.Num? then Some((acc.0, Signed32(x.val.n)))
    else Some(acc)
  }

  function DecodeDuration(bs: bytes): Option<int>
  {
    var r := Fold(bs, DurationStep, (0, 0));
    if r.None? then None else Some(r.value.0 * SECOND + r.value.1)
  }

  /** Whole seconds that fit a signed 64-bit field. */
  predicate DurationFits(ns: int) { -(TWO64 / 2) <= Quot(ns) < TWO64 / 2 }

  lemma Parts(ns: int)
    ensures -SECOND < Rem(ns) < SECOND && Quot(ns) * SECOND + Rem(ns) == ns
  {
  }

  lemma SignedBack(v: int)
    ensures -(TWO64 / 2) <= v < TWO64 / 2 ==> Signed64(Wrap(v)) == v
    ensures -0x8000_0000 <= v < 0x8000_0000 ==> Signed32(Wrap(v)) == v
  {
  }

  lemma SecondsPiece(q: int)
    ensures FoldSeq(OptField(q != 0, Field(1, Num(Wrap(q)))), DurationStep, (0, 0)) == Some((Signed64(Wrap(q)), 0))
  {
    One(Field(1, Num(Wrap(q))), DurationStep, (0, 0));
  }

  lemma NanosPiece(a: int, r: int)
    requires -0x8000_0000 <= r < 0x8000_0000
    ensures FoldSeq(OptField(r != 0, Field(2, Num(Wrap(r)))), DurationStep, (a, 0)) == Some((a, r))
  {
    SignedBack(r);
    One(Field(2, Num(Wrap(r))), DurationStep, (a, 0));
  }

  lemma DurationParts(q: int, r: int)
    requires -0x8000_0000 <= r < 0x8000_0000
    ensures Fold(PutAll(DurationFields(q, r)), DurationStep, (0, 0)) == Some((Signed64(Wrap(q)), r))
  {
    var (a, b) := (OptField(q != 0, Field(1, Num(Wrap(q)))), OptField(r != 0, Field(2, Num(Wrap(r)))));
    SecondsPiece(q);
    NanosPiece(Signed64(Wrap(q)), r);
    Then(a, b, DurationStep, (0, 0), (Signed64(Wrap(q)), 0), (Signed64(Wrap(q)), r));
    FoldAll(a + b, DurationStep, (0, 0));
  }

  lemma DurationFrom(bs: bytes, q: int, r: int)
    requires Fold(bs, DurationStep, (0, 0)) == Some((q, r))
    ensures DecodeDuration(bs) == Some(q * SECOND + r)
  {
  }

  lemma DurationOf(q: int, r: int)
    requires -SECOND < r < SECOND
    ensures DecodeDuration(PutAll(DurationFields(q, r))) == Some(Signed64(Wrap(q)) * SECOND + r)
  {
    DurationParts(q, r);
    DurationFrom(PutAll(DurationFields(q, r)), Signed64(Wrap(q)), r);
  }

  /** A duration as it comes out of the wire: the seconds wrap in 64 bits. */
  function Landed(ns: int): int { Signed64(Wrap(Quot(ns))) * SECOND + Rem(ns) }

  lemma DurationArrives(ns: int)
    ensures DecodeDuration(EncodeDuration(ns)) == Some(Landed(ns))
  {
    Parts(ns);
    DurationOf(Quot(ns), Rem(ns));
  }

  lemma LandedIs(ns: int)
    ensures Landed(ns) == ns <==> DurationFits(ns)
  {
    Parts(ns);
    SignedBack(Quot(ns));
    SameSeconds(Signed64(Wrap(Quot(ns))), Quot(ns));
  }

  lemma SameSeconds(a: int, b: int)
    ensures a * SECOND == b * SECOND <==> a == b
  {
  }

  /** Lossless exactly on whole seconds that fit a signed 64-bit field. */
  lemma DurationRoundTrip(ns: int)
    ensures DecodeDuration(EncodeDuration(ns)) == Some(ns) <==> DurationFits(ns)
  {
    DurationArrives(ns);
    LandedIs(ns);
  }

  // ------------------------------------------------------------------
  // Any
  // ------------------------------------------------------------------

  datatype Any = Any(typeUrl: string, value: bytes)

  function AnyFields(a: Any): seq<Field>
  {
    OptField(a.typeUrl != "", Field(1, Chunk(Encode(a.typeUrl)))) + OptField(a.value != [], Field(2, Chunk(a.value)))
  }

  function EncodeAny(a: Any): bytes { PutAll(AnyFields(a)) }

  function AnyStep(a: Any, x: Field): Option<Any>
  {
    if x.num == 1 && x.val.Chunk? then
      var s := Decode(x.val.data); if s.None? then None else Some(a.(typeUrl := s.value))
    else if x.num == 2 && x.val.Chunk? then Some(a.(value := x.val.data))
    else Some(a)
  }

  function DecodeAny(bs: bytes): Option<Any> { Fold(bs, AnyStep, Any("", [])) }

  predicate AnyFits(a: Any) { |Encode(a.typeUrl)| <= U32_MAX && |a.value| <= U32_MAX }

  lemma AnyRoundTrip(a: Any)
    requires AnyFits(a)
    ensures DecodeAny(EncodeAny(a)) == Some(a)
  {
    TextRoundTrip(a.typeUrl);
    var (p, q) := (OptField(a.typeUrl != "", Field(1, Chunk(Encode(a.typeUrl)))),
                   OptField(a.value != [], Field(2, Chunk(a.value))));
    FoldSplit(p, q, AnyStep, Any("", []));
    assert FoldSeq(p, AnyStep, Any("", [])) == Some(Any(a.typeUrl, []));
    assert FoldSeq(q, AnyStep, Any(a.typeUrl, [])) == Some(a);
    FoldAll(p + q, AnyStep, Any("", []));
  }

  // ------------------------------------------------------------------
  // frames
  // ------------------------------------------------------------------

  datatype Frame = Frame(epoch: u32, sid: u32, seqno: u32, flags: u32, method_: string, codec: string,
                         timeout: Option<int>, payload: Option<bytes>, code: Option<u32>, desc: string,
                         header: Option<Md>, trailer: Option<Md>, peerEpoch: u32, window: u32,
                         compressor: string, details: seq<Any>, connWindow: u32)

  const EMPTY := Frame(0, 0, 0, 0, "", "", None, None, None, "", None, None, 0, 0, "", [], 0)

  function DetailField(a: Any): Field { Field(17, Chunk(EncodeAny(a))) }

  function TextField(num: nat, s: string): seq<Field> { OptField(s != "", Field(num, Chunk(Encode(s)))) }

  function FixedField(num: nat, n: u32): seq<Field> { OptField(n != 0, Field(num, Four(n))) }

  function NumField(num: nat, n: u32): seq<Field> { OptField(n != 0, Field(num, Num(n))) }

  ghost function MdField(num: nat, md: Option<Md>): seq<Field>
    requires md.Some? ==> EncodeMetadata(md.value).Some?
  {
    if md.None? then [] else [Field(num, Chunk(EncodeMetadata(md.value).value))]
  }

  ghost predicate Encodes(f: Frame)
  {
    && (f.header.Some? ==> EncodeMetadata(f.header.value).Some?)
    && (f.trailer.Some? ==> EncodeMetadata(f.trailer.value).Some?)
  }

  /** What field k of a frame puts on the wire; a field at its default is left out, payload and code
      are there whenever they are set. */
  ghost function Piece(f: Frame, k: nat): seq<Field>
  {
    if !Encodes(f) then [] else
    match k
    case 1 => FixedField(1, f.epoch)
    case 2 => FixedField(2, f.sid)
    case 3 => FixedField(3, f.seqno)
    case 4 => NumField(4, f.flags)
    case 5 => TextField(5, f.method_)
    case 7 => TextField(7, f.codec)
    case 8 => if f.timeout.None? then [] else [Field(8, Chunk(EncodeDuration(f.timeout.value)))]
    case 9 => if f.payload.None? then [] else [Field(9, Chunk(f.payload.value))]
    case 10 => if f.code.None? then [] else [Field(10, Num(f.code.value))]
    case 11 => TextField(11, f.desc)
    case 12 => MdField(12, f.header)
    case 13 => MdField(13, f.trailer)
    case 14 => FixedField(14, f.peerEpoch)
    case 15 => NumField(15, f.window)
    case 16 => TextField(16, f.compressor)
    case 17 => Mapped(DetailField, f.details)
    case 18 => NumField(18, f.connWindow)
    case _ => []
  }

  /** All its fields, in field-number order. */
  ghost function FrameFields(f: Frame): seq<Field>
    requires Encodes(f)
  {
    Concat((k: nat) => Piece(f, k), 18)
  }

  /** None when a binary metadata value is not base64. */
  ghost function EncodeFrame(f: Frame): Option<bytes>
  {
    if !Encodes(f) then None else Some(PutAll(FrameFields(f)))
  }

  function Low32(n: u64): u32 { n % 0x1_0000_0000 }

  function OnFixed(f: Frame, x: Field): Frame
    requires x.val.Four?
  {
    match x.num
    case 1 => f.(epoch := x.val.v)
    case 2 => f.(sid := x.val.v)
    case 3 => f.(seqno := x.val.v)
    case 14 => f.(peerEpoch := x.val.v)
    case _ => f
  }

  function OnNum(f: Frame, x: Field): Frame
    requires x.val.Num?
  {
    var n := Low32(x.val.n);
    match x.num
    case 4 => f.(flags := n)
    case 10 => f.(code := Some(n))
    case 15 => f.(window := n)
    case 18 => f.(connWindow := n)
    case _ => f
  }

  function SetText(f: Frame, num: nat, s: string): Frame
  {
    match num
    case 5 => f.(method_ := s)
    case 7 => f.(codec := s)
    case 11 => f.(desc := s)
    case 16 => f.(compressor := s)
    case _ => f
  }

  predicate IsText(num: nat) { num == 5 || num == 7 || num == 11 || num == 16 }

  function OnChunk(f: Frame, x: Field): Option<Frame>
    requires x.val.Chunk?
  {
    var b := x.val.data;
    if IsText(x.num) then
      var s := Decode(b); if s.None? then None else Some(SetText(f, x.num, s.value))
    else if x.num == 8 then
      var d := DecodeDuration(b); if d.None? then None else Some(f.(timeout := d))
    else if x.num == 9 then Some(f.(payload := Some(b)))
    else if x.num == 12 || x.num == 13 then
      var md := DecodeMetadata(b);
      if md.None? then None else Some(if x.num == 12 then f.(header := md) else f.(trailer := md))
    else if x.num == 17 then
      var a := DecodeAny(b); if a.None? then None else Some(f.(details := f.details + [a.value]))
    else Some(f)
  }

  /** One field of a frame; an unknown number or an unexpected wire type is passed over. */
  function FrameStep(f: Frame, x: Field): Option<Frame>
  {
    match x.val
    case Four(_) => Some(OnFixed(f, x))
    case Num(_) => Some(OnNum(f, x))
    case Chunk(_) => OnChunk(f, x)
    case Eight(_) => Some(f)
  }

  function DecodeFrame(bs: bytes): Option<Frame> { Fold(bs, FrameStep, EMPTY) }

  /** The frame with only its fields up to number k. */
  function Upto(f: Frame, k: nat): Frame
  {
    Frame(if k >= 1 then f.epoch else 0, if k >= 2 then f.sid else 0, if k >= 3 then f.seqno else 0,
          if k >= 4 then f.flags else 0, if k >= 5 then f.method_ else "", if k >= 7 then f.codec else "",
          if k >= 8 then f.timeout else None, if k >= 9 then f.payload else None, if k >= 10 then f.code else None,
          if k >= 11 then f.desc else "", if k >= 12 then f.header else None, if k >= 13 then f.trailer else None,
          if k >= 14 then f.peerEpoch else 0, if k >= 15 then f.window else 0, if k >= 16 then f.compressor else "",
          if k >= 17 then f.details else [], if k >= 18 then f.connWindow else 0)
  }

  ghost predicate OptFits(md: Option<Md>) { md.Some? ==> MdFits(md.value) }

  /** Every length the frame puts on the wire fits it. */
  ghost predicate FrameFits(f: Frame)
  {
    && Encodes(f) && AllFit(FrameFields(f)) && OptFits(f.header) && OptFits(f.trailer)
    && (forall i :: 0 <= i < |f.details| ==> AnyFits(f.details[i]))
  }

  ghost predicate MdLossless(md: Option<Md>) { md.Some? ==> CanonicalMd(md.value) }

  /** A timeout within range, and only canonical base64 in binary metadata. */
  ghost predicate Lossless(f: Frame)
  {
    (f.timeout.Some? ==> DurationFits(f.timeout.value)) && MdLossless(f.header) && MdLossless(f.trailer)
  }

  ghost function Passed(md: Option<Md>): Option<Md>
  {
    if md.Some? && MdFits(md.value) then Some(Through(md.value)) else md
  }

  /** The frame as its receiver sees it: timeout and metadata after their transforms, the rest as is. */
  ghost function Arrived(f: Frame): Frame
  {
    f.(timeout := if f.timeout.None? then None else Some(Landed(f.timeout.value)),
       header := Passed(f.header), trailer := Passed(f.trailer))
  }

  function WithDetails(f: Frame, ds: seq<Any>): Frame { f.(details := f.details + ds) }

  lemma DetailStep(f: Frame, a: Any)
    requires AnyFits(a)
    ensures FrameStep(f, DetailField(a)) == Some(WithDetails(f, [a]))
  {
    AnyRoundTrip(a);
  }

  lemma WithNext(f: Frame, ds: seq<Any>, i: nat)
    requires i < |ds|
    ensures WithDetails(f, []) == f && WithDetails(WithDetails(f, ds[..i]), [ds[i]]) == WithDetails(f, ds[..i + 1])
  {
    assert f.details + [] == f.details;
    assert f.details + ds[..i] + [ds[i]] == f.details + ds[..i + 1];
  }

  lemma DetailOnto(f: Frame, ds: seq<Any>, i: nat)
    requires i < |ds| && AnyFits(ds[i])
    ensures FrameStep(WithDetails(f, ds[..i]), DetailField(ds[i])) == Some(WithDetails(f, ds[..i + 1]))
  {
    DetailStep(WithDetails(f, ds[..i]), ds[i]);
    WithNext(f, ds, i);
  }

  lemma DetailsFold(f: Frame, ds: seq<Any>)
    requires forall i :: 0 <= i < |ds| ==> AnyFits(ds[i])
    ensures FoldSeq(Mapped(DetailField, ds), FrameStep, f) == Some(WithDetails(f, ds))
  {
    forall i | 0 <= i < |ds|
      ensures FrameStep(WithDetails(f, ds[..i]), DetailField(ds[i])) == Some(WithDetails(f, ds[..i + 1]))
    {
      DetailOnto(f, ds, i);
    }
    assert WithDetails(f, []) == f by { assert f.details + [] == f.details; }
    RepeatedInto(DetailField, FrameStep, WithDetails, f, ds);
  }

  lemma DetailsPiece(f: Frame, ds: seq<Any>)
    requires f.details == [] && forall i :: 0 <= i < |ds| ==> AnyFits(ds[i])
    ensures FoldSeq(Mapped(DetailField, ds), FrameStep, f) == Some(f.(details := ds))
  {
    DetailsFold(f, ds);
    assert [] + ds == ds;
  }

  lemma TextPiece(f: Frame, num: nat, s: string)
    requires IsText(num)
    ensures FoldSeq(TextField(num, s), FrameStep, f) == Some(if s == "" then f else SetText(f, num, s))
  {
    TextRoundTrip(s);
    One(Field(num, Chunk(Encode(s))), FrameStep, f);
  }

  lemma FixedPiece(f: Frame, num: nat, n: u32)
    ensures FoldSeq(FixedField(num, n), FrameStep, f) == Some(if n == 0 then f else OnFixed(f, Field(num, Four(n))))
  {
    One(Field(num, Four(n)), FrameStep, f);
  }

  lemma NumPiece(f: Frame, num: nat, n: u32)
    ensures FoldSeq(NumField(num, n), FrameStep, f) == Some(if n == 0 then f else OnNum(f, Field(num, Num(n))))
  {
    One(Field(num, Num(n)), FrameStep, f);
  }

  lemma MdPiece(f: Frame, num: nat, md: Option<Md>)
    requires (num == 12 || num == 13) && OptFits(md)
    ensures FoldSeq(MdField(num, md), FrameStep, f)
            == Some(if md.None? then f else if num == 12 then f.(header := Passed(md)) else f.(trailer := Passed(md)))
  {
    if md.Some? {
      MetadataThrough(md.value);
      MdChunk(f, num, EncodeMetadata(md.value).value, Through(md.value));
    }
  }

  lemma MdChunk(f: Frame, num: nat, b: bytes, md: Md)
    requires (num == 12 || num == 13) && DecodeMetadata(b) == Some(md)
    ensures FoldSeq([Field(num, Chunk(b))], FrameStep, f)
            == Some(if num == 12 then f.(header := Some(md)) else f.(trailer := Some(md)))
  {
    One(Field(num, Chunk(b)), FrameStep, f);
  }

  /** Field k on the wire sets exactly field k of the frame. */
  lemma PieceSets(f: Frame, k: nat)
    requires FrameFits(f) && 1 <= k <= 18
    ensures FoldSeq(Piece(f, k), FrameStep, Upto(Arrived(f), k - 1)) == Some(Upto(Arrived(f), k))
  {
    if k <= 7 {
      EarlyPieceSets(f, k);
    } else if k <= 13 {
      MiddlePieceSets(f, k);
    } else {
      LatePieceSets(f, k);
    }
  }

  lemma EarlyPieceSets(f: Frame, k: nat)
    requires Encodes(f) && 1 <= k <= 7
    ensures FoldSeq(Piece(f, k), FrameStep, Upto(Arrived(f), k - 1)) == Some(Upto(Arrived(f), k))
  {
    var g := Upto(Arrived(f), k - 1);
    match k
    case 1 => FixedPiece(g, 1, f.epoch);
    case 2 => FixedPiece(g, 2, f.sid);
    case 3 => FixedPiece(g, 3, f.seqno);
    case 4 => NumPiece(g, 4, f.flags);
    case 5 => TextPiece(g, 5, f.method_);
    case 6 =>
    case 7 => TextPiece(g, 7, f.codec);
  }

  lemma MiddlePieceSets(f: Frame, k: nat)
    requires Encodes(f) && OptFits(f.header) && OptFits(f.trailer) && 8 <= k <= 13
    ensures FoldSeq(Piece(f, k), FrameStep, Upto(Arrived(f), k - 1)) == Some(Upto(Arrived(f), k))
  {
    var g := Upto(Arrived(f), k - 1);
    match k
    case 8 =>
      if f.timeout.Some? {
        DurationArrives(f.timeout.value);
        One(Field(8, Chunk(EncodeDuration(f.timeout.value))), FrameStep, g);
      }
    case 9 => if f.payload.Some? { One(Field(9, Chunk(f.payload.value)), FrameStep, g); }
    case 10 => if f.code.Some? { One(Field(10, Num(f.code.value)), FrameStep, g); }
    case 11 => TextPiece(g, 11, f.desc);
    case 12 => MdPiece(g, 12, f.header);
    case 13 => MdPiece(g, 13, f.trailer);
  }

  lemma LatePieceSets(f: Frame, k: nat)
    requires Encodes(f) && (forall i :: 0 <= i < |f.details| ==> AnyFits(f.details[i])) && 14 <= k <= 18
    ensures FoldSeq(Piece(f, k), FrameStep, Upto(Arrived(f), k - 1)) == Some(Upto(Arrived(f), k))
  {
    var g := Upto(Arrived(f), k - 1);
    match k
    case 14 => FixedPiece(g, 14, f.peerEpoch);
    case 15 => NumPiece(g, 15, f.window);
    case 16 => TextPiece(g, 16, f.compressor);
    case 17 => DetailsPiece(g, f.details);
    case 18 => NumPiece(g, 18, f.connWindow);
  }

  /** What a frame turns into on its way. */
  lemma FrameArrives(f: Frame)
    requires FrameFits(f)
    ensures EncodeFrame(f).Some? && DecodeFrame(EncodeFrame(f).value) == Some(Arrived(f))
  {
    var (piece, at) := ((k: nat) => Piece(f, k), (k: nat) => Upto(Arrived(f), k));
    forall k | 1 <= k <= 18
      ensures FoldSeq(piece(k), FrameStep, at(k - 1)) == Some(at(k))
    {
      PieceSets(f, k);
    }
    FoldPieces(piece, FrameStep, at, 18);
    FoldAll(FrameFields(f), FrameStep, EMPTY);
  }

  lemma PassedIs(md: Option<Md>)
    requires OptFits(md)
    ensures Passed(md) == md <==> MdLossless(md)
  {
    if md.Some? { ThroughSame(md.value); }
  }

  lemma ArrivedIs(f: Frame)
    requires OptFits(f.header) && OptFits(f.trailer)
    ensures Arrived(f) == f <==> Lossless(f)
  {
    PassedIs(f.header);
    PassedIs(f.trailer);
    if f.timeout.Some? { LandedIs(f.timeout.value); }
  }

  /** Decoding an encoded frame gives the frame back, exactly when it is lossless. */
  lemma FrameRoundTrip(f: Frame)
    requires FrameFits(f)
    ensures EncodeFrame(f).Some? && (DecodeFrame(EncodeFrame(f).value) == Some(f) <==> Lossless(f))
  {
    FrameArrives(f);
    ArrivedIs(f);
  }

  /** A field the frame decoder passes over, whatever it carries. */
  predicate Unknown(x: Field)
  {
    match x.val
    case Four(_) => x.num != 1 && x.num != 2 && x.num != 3 && x.num != 14
    case Num(_) => x.num != 4 && x.num != 10 && x.num != 15 && x.num != 18
    case Chunk(_) => !IsText(x.num) && x.num != 8 && x.num != 9 && x.num != 12 && x.num != 13 && x.num != 17
    case Eight(_) => true
  }

  /** Unknown fields are ignored wherever a newer peer puts them. */
  lemma UnknownIgnored(xs: seq<Field>, u: Field, ys: seq<Field>)
    requires AllFit(xs) && Fits(u) && AllFit(ys) && Unknown(u)
    ensures DecodeFrame(PutAll(xs) + PutField(u) + PutAll(ys)) == DecodeFrame(PutAll(xs) + PutAll(ys))
  {
    IgnoredAnywhere(xs, u, ys, FrameStep, EMPTY);
  }

  // ------------------------------------------------------------------
  // envelopes
  // ------------------------------------------------------------------

  ghost predicate AllEncode(fs: seq<Frame>) { forall i :: 0 <= i < |fs| ==> Encodes(fs[i]) }

  ghost function EnvelopeField(f: Frame): Field { Field(1, Chunk(if Encodes(f) then EncodeFrame(f).value else [])) }

  ghost function EncodeEnvelope(fs: seq<Frame>): Option<bytes>
  {
    if AllEncode(fs) then Some(PutAll(Mapped(EnvelopeField, fs))) else None
  }

  function EnvelopeStep(fs: seq<Frame>, x: Field): Option<seq<Frame>>
  {
    if x.num == 1 && x.val.Chunk? then
      var f := DecodeFrame(x.val.data); if f.None? then None else Some(fs + [f.value])
    else Some(fs)
  }

  function DecodeEnvelope(bs: bytes): Option<seq<Frame>> { Fold(bs, EnvelopeStep, []) }

  ghost predicate EnvelopeFits(fs: seq<Frame>)
  {
    forall i :: 0 <= i < |fs| ==> FrameFits(fs[i]) && |EncodeFrame(fs[i]).value| <= U32_MAX
  }

  lemma EnvelopeOne(done: seq<Frame>, f: Frame)
    requires FrameFits(f)
    ensures EnvelopeStep(done, EnvelopeField(f)) == Some(done + [Arrived(f)])
  {
    FrameArrives(f);
  }

  /** An envelope delivers all its frames, in order, each as it arrives alone. */
  lemma EnvelopeArrives(fs: seq<Frame>)
    requires EnvelopeFits(fs)
    ensures EncodeEnvelope(fs).Some? && DecodeEnvelope(EncodeEnvelope(fs).value) == Some(Each(Arrived, fs))
  {
    forall i, done: seq<Frame> | 0 <= i < |fs|
      ensures EnvelopeStep(done, EnvelopeField(fs[i])) == Some(done + [Arrived(fs[i])])
    {
      EnvelopeOne(done, fs[i]);
    }
    forall i | 0 <= i < |fs|
      ensures Fits(EnvelopeField(fs[i]))
    {
      assert FrameFits(fs[i]);
    }
    RepeatedArrives(EnvelopeField, EnvelopeStep, Arrived, fs);
  }

  lemma AllArrivedIs(fs: seq<Frame>)
    requires forall i :: 0 <= i < |fs| ==> FrameFits(fs[i])
    ensures (forall i :: 0 <= i < |fs| ==> Arrived(fs[i]) == fs[i]) <==> forall i :: 0 <= i < |fs| ==> Lossless(fs[i])
  {
    forall i | 0 <= i < |fs|
      ensures Arrived(fs[i]) == fs[i] <==> Lossless(fs[i])
    {
      ArrivedIs(fs[i]);
    }
  }

  /** Decoding an encoded envelope returns its frames, exactly when each of them is lossless. */
  lemma EnvelopeRoundTrip(fs: seq<Frame>)
    requires EnvelopeFits(fs)
    ensures EncodeEnvelope(fs).Some?
    ensures DecodeEnvelope(EncodeEnvelope(fs).value) == Some(fs) <==> forall i :: 0 <= i < |fs| ==> Lossless(fs[i])
  {
    EnvelopeArrives(fs);
    EachIs(Arrived, fs);
    AllArrivedIs(fs);
  }

  /** Encoding turns concatenation of frame lists into concatenation of bytes. */
  lemma EnvelopeConcat(fs: seq<Frame>, gs: seq<Frame>)
    requires EncodeEnvelope(fs).Some? && EncodeEnvelope(gs).Some?
    ensures EncodeEnvelope(fs + gs) == Some(EncodeEnvelope(fs).value + EncodeEnvelope(gs).value)
  {
    MappedConcat(EnvelopeField, fs, gs);
  }
}
