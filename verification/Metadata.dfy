/** Metadata: the multi-value map, the per-key transform between text and octets, its validation, and
    its canonical bytes. */
module Metadata {
  import opened Credit
  import opened Text
  import opened Base64
  import opened Wire

  type Md = map<string, seq<string>>

  predicate IsBinary(key: string) { |key| >= 4 && key[|key| - 4..] == "-bin" }

  /** The octets of one value; a binary value that is not base64 has none. */
  function Octets(key: string, v: string): Option<bytes>
  {
    if IsBinary(key) then Decoded(v) else Some(Encode(v))
  }

  function Textual(key: string, bs: bytes): string { if IsBinary(key) then Encoded(bs) else DecodeLossy(bs) }

  /** A value survives the trip exactly when it is text or canonical base64. */
  lemma ValueRoundTrip(key: string, v: string)
    requires Octets(key, v).Some?
    ensures Textual(key, Octets(key, v).value) == v <==> (IsBinary(key) ==> Canonical(v))
  {
    if IsBinary(key) { EncodeDecode(v); } else { TextRoundTrip(v); }
  }

  // ------------------------------------------------------------------
  // validation
  // ------------------------------------------------------------------

  predicate KeyChar(c: char) { 'a' <= c <= 'z' || '0' <= c <= '9' || c == '.' || c == '-' || c == '_' }

  predicate ValidKey(key: string) { key != "" && forall i :: 0 <= i < |key| ==> KeyChar(key[i]) }

  predicate Printable(v: string) { forall i :: 0 <= i < |v| ==> ' ' <= v[i] <= '~' }

  predicate ValidValue(key: string, v: string) { if IsBinary(key) then Decoded(v).Some? else Printable(v) }

  predicate ValidPair(key: string, vs: seq<string>)
  {
    ValidKey(key) && forall i :: 0 <= i < |vs| ==> ValidValue(key, vs[i])
  }

  method ValidateMetadataPair(key: string, vs: seq<string>) returns (ok: bool)
    ensures ok <==> ValidPair(key, vs)
  {
    if key == "" { return false; }
    for i := 0 to |key|
      invariant forall j :: 0 <= j < i ==> KeyChar(key[j])
    {
      if !KeyChar(key[i]) { return false; }
    }
    for i := 0 to |vs|
      invariant forall j :: 0 <= j < i ==> ValidValue(key, vs[j])
    {
      if IsBinary(key) {
        var d := DecodeBase64(vs[i]);
        if d.None? { return false; }
      } else {
        for k := 0 to |vs[i]|
          invariant forall j :: 0 <= j < k ==> ' ' <= vs[i][j] <= '~'
        {
          if vs[i][k] < ' ' || vs[i][k] > '~' { return false; }
        }
      }
    }
    return true;
  }

  ghost predicate Valid(md: Md) { forall key :: key in md ==> ValidPair(key, md[key]) }

  /** Binary values under key are canonical base64. */
  ghost predicate CanonicalValues(key: string, vs: seq<string>)
  {
    IsBinary(key) ==> forall i :: 0 <= i < |vs| ==> Decoded(vs[i]).Some? && Canonical(vs[i])
  }

  ghost predicate CanonicalMd(md: Md) { forall key :: key in md ==> CanonicalValues(key, md[key]) }

  // ------------------------------------------------------------------
  // key order
  // ------------------------------------------------------------------

  predicate Less(a: string, b: string)
  {
    if b == "" then false
    else if a == "" then true
    else if a[0] != b[0] then a[0] < b[0]
    else Less(a[1..], b[1..])
  }

  lemma {:induction false} LessTotal(a: string, b: string)
    ensures !(Less(a, b) && Less(b, a)) && (Less(a, b) || Less(b, a) || a == b) && !(Less(a, b) && a == b)
  {
    if a != "" && b != "" && a[0] == b[0] {
      LessTotal(a[1..], b[1..]);
      assert a == [a[0]] + a[1..] && b == [b[0]] + b[1..];
    }
  }

  lemma {:induction false} LessTrans(a: string, b: string, c: string)
    requires Less(a, b) && Less(b, c)
    ensures Less(a, c)
  {
    if a != "" && a[0] == b[0] && b[0] == c[0] { LessTrans(a[1..], b[1..], c[1..]); }
  }

  ghost predicate Ascending(ks: seq<string>) { forall i, j :: 0 <= i < j < |ks| ==> Less(ks[i], ks[j]) }

  function Insert(ks: seq<string>, k: string): seq<string>
  {
    if ks == [] || Less(k, ks[0]) then [k] + ks else [ks[0]] + Insert(ks[1..], k)
  }

  /** The keys of an object in ascending order, as the platform sorts them. */
  function Sort(ks: seq<string>): seq<string>
  {
    if ks == [] then [] else Insert(Sort(ks[1..]), ks[0])
  }

  lemma {:induction false} InsertAscends(ks: seq<string>, k: string)
    requires Ascending(ks) && k !in ks
    ensures Ascending(Insert(ks, k)) && forall x :: x in Insert(ks, k) <==> x == k || x in ks
  {
    if ks != [] {
      assert ks == [ks[0]] + ks[1..];
      LessTotal(k, ks[0]);
      if Less(k, ks[0]) {
        forall j | 0 <= j < |ks|
          ensures Less(k, ks[j])
        {
          if j > 0 { LessTrans(k, ks[0], ks[j]); }
        }
      } else {
        InsertAscends(ks[1..], k);
        var r := Insert(ks[1..], k);
        forall j | 0 <= j < |r|
          ensures Less(ks[0], r[j])
        {
          assert r[j] in r;
        }
      }
    }
  }

  ghost predicate Distinct(ks: seq<string>) { forall i, j :: 0 <= i < j < |ks| ==> ks[i] != ks[j] }

  lemma {:induction false} SortAscends(ks: seq<string>)
    requires Distinct(ks)
    ensures Ascending(Sort(ks)) && forall x :: x in Sort(ks) <==> x in ks
  {
    if ks != [] {
      assert ks == [ks[0]] + ks[1..];
      SortAscends(ks[1..]);
      InsertAscends(Sort(ks[1..]), ks[0]);
    }
  }

  /** There is only one ascending order of a set of keys. */
  lemma {:induction false} AscendingUnique(a: seq<string>, b: seq<string>)
    requires Ascending(a) && Ascending(b) && forall x :: x in a <==> x in b
    ensures a == b
  {
    if a == [] {
      assert forall i :: 0 <= i < |b| ==> b[i] in b;
    } else {
      assert a[0] in b;
      assert b != [] && b[0] in a;
      assert a == [a[0]] + a[1..] && b == [b[0]] + b[1..];
      FirstIsLeast(a, b[0]);
      FirstIsLeast(b, a[0]);
      LessTotal(a[0], b[0]);
      RestWithout(a);
      RestWithout(b);
      AscendingUnique(a[1..], b[1..]);
    }
  }

  lemma FirstIsLeast(a: seq<string>, x: string)
    requires Ascending(a) && x in a
    ensures a[0] == x || Less(a[0], x)
  {
    var i :| 0 <= i < |a| && a[i] == x;
  }

  lemma RestWithout(a: seq<string>)
    requires Ascending(a) && a != []
    ensures forall x :: x in a[1..] <==> x in a && x != a[0]
  {
    assert a == [a[0]] + a[1..];
    if a[0] in a[1..] {
      var i :| 0 < i < |a| && a[i] == a[0];
      LessTotal(a[0], a[i]);
    }
  }

  lemma {:induction false} OrderExists(s: set<string>)
    ensures exists ks :: Ascending(ks) && forall x :: x in ks <==> x in s
    decreases |s|
  {
    if s == {} {
      assert Ascending([]) && forall x :: x in [] <==> x in s;
    } else {
      var k :| k in s;
      OrderExists(s - {k});
      var ks :| Ascending(ks) && forall x :: x in ks <==> x in s - {k};
      InsertAscends(ks, k);
      assert Ascending(Insert(ks, k)) && forall x :: x in Insert(ks, k) <==> x in s;
    }
  }

  /** The ascending order of a set of keys. */
  ghost function Order(s: set<string>): (ks: seq<string>)
    ensures Ascending(ks) && forall x :: x in ks <==> x in s
  {
    OrderExists(s);
    var ks :| Ascending(ks) && forall x :: x in ks <==> x in s;
    ks
  }

  // ------------------------------------------------------------------
  // encoding
  // ------------------------------------------------------------------

  /** The octets of every value of a key. */
  function AllOctets(key: string, vs: seq<string>): Option<seq<bytes>>
  {
    if vs == [] then Some([])
    else
      var (b, rest) := (Octets(key, vs[0]), AllOctets(key, vs[1..]));
      if b.None? || rest.None? then None else Some([b.value] + rest.value)
  }

  function EntryFields(key: string, raws: seq<bytes>): seq<Field>
  {
    [Field(1, Chunk(Encode(key)))] + ValueFields(raws)
  }

  function ValueFields(raws: seq<bytes>): seq<Field>
  {
    seq(|raws|, i requires 0 <= i < |raws| => Field(2, Chunk(raws[i])))
  }

  function EntryField(key: string, raws: seq<bytes>): Field { Field(1, Chunk(PutAll(EntryFields(key, raws)))) }

  /** The entries of the given keys of md, in that order. */
  function EntriesOf(keys: seq<string>, md: Md): Option<seq<Field>>
    requires forall x :: x in keys ==> x in md
  {
    if keys == [] then Some([])
    else
      var (raws, rest) := (AllOctets(keys[0], md[keys[0]]), EntriesOf(keys[1..], md));
      if raws.None? || rest.None? then None else Some([EntryField(keys[0], raws.value)] + rest.value)
  }

  /** The bytes of md held by an object whose property order is ks. */
  function EncodeObject(ks: seq<string>, md: Md): Option<bytes>
    requires Distinct(ks) && forall x :: x in ks <==> x in md
  {
    SortAscends(ks);
    var es := EntriesOf(Sort(ks), md);
    if es.None? then None else Some(PutAll(es.value))
  }

  /** The canonical bytes of md. */
  ghost function EncodeMetadata(md: Md): Option<bytes>
  {
    var es := EntriesOf(Order(md.Keys), md);
    if es.None? then None else Some(PutAll(es.value))
  }

  /** The bytes depend only on the map, not on the order an object holds its properties in. */
  lemma BytesAreCanonical(ks: seq<string>, md: Md)
    requires Distinct(ks) && forall x :: x in ks <==> x in md
    ensures EncodeObject(ks, md) == EncodeMetadata(md)
  {
    SortAscends(ks);
    AscendingUnique(Sort(ks), Order(md.Keys));
  }

  // ------------------------------------------------------------------
  // decoding
  // ------------------------------------------------------------------

  /** One entry: the last key seen, the raw values in order. */
  function EntryStep(e: (string, seq<bytes>), x: Field): Option<(string, seq<bytes>)>
  {
    if x.num == 1 && x.val.Chunk? then
      var k := Decode(x.val.data); if k.None? then None else Some((k.value, e.1))
    else if x.num == 2 && x.val.Chunk? then Some((e.0, e.1 + [x.val.data]))
    else Some(e)
  }

  function DecodeEntry(bs: bytes): Option<(string, seq<bytes>)> { Fold(bs, EntryStep, ("", [])) }

  function Texts(key: string, raws: seq<bytes>): seq<string>
  {
    seq(|raws|, i requires 0 <= i < |raws| => Textual(key, raws[i]))
  }

  function ValuesOf(md: Md, key: string): seq<string> { if key in md then md[key] else [] }

  function Append(md: Md, key: string, vs: seq<string>): Md { md[key := ValuesOf(md, key) + vs] }

  function MdStep(md: Md, x: Field): Option<Md>
  {
    if x.num == 1 && x.val.Chunk? then
      var e := DecodeEntry(x.val.data);
      if e.None? then None else Some(Append(md, e.value.0, Texts(e.value.0, e.value.1)))
    else Some(md)
  }

  function DecodeMetadata(bs: bytes): Option<Md> { Fold(bs, MdStep, map[]) }

  // ------------------------------------------------------------------
  // repeated keys append
  // ------------------------------------------------------------------

  /** An entry's fields: the key anywhere among the values, in any place. */
  lemma {:induction false} KeyAnywhere(before: seq<bytes>, key: string, after: seq<bytes>)
    ensures FoldSeq(ValueFields(before) + [Field(1, Chunk(Encode(key)))] + ValueFields(after), EntryStep, ("", []))
            == Some((key, before + after))
  {
    TextRoundTrip(key);
    var k := Field(1, Chunk(Encode(key)));
    FoldSplit(ValueFields(before) + [k], ValueFields(after), EntryStep, ("", []));
    FoldSplit(ValueFields(before), [k], EntryStep, ("", []));
    ValuesFold(before, ("", []));
    assert [] + before == before;
    assert FoldSeq([k], EntryStep, ("", before)) == Some((key, before));
    ValuesFold(after, (key, before));
  }

  lemma {:induction false} ValuesFold(raws: seq<bytes>, e: (string, seq<bytes>))
    ensures FoldSeq(ValueFields(raws), EntryStep, e) == Some((e.0, e.1 + raws))
    decreases |raws|
  {
    if raws == [] {
      assert e.1 + raws == e.1;
    } else {
      assert ValueFields(raws)[1..] == ValueFields(raws[1..]);
      ValuesFold(raws[1..], (e.0, e.1 + [raws[0]]));
      assert e.1 + [raws[0]] + raws[1..] == e.1 + raws;
    }
  }

  /** What arrives under key k from entries es, in wire order. */
  function Collected(es: seq<(string, seq<bytes>)>, k: string): seq<string>
  {
    if es == [] then []
    else
      var (init, e) := (Collected(es[..|es| - 1], k), es[|es| - 1]);
      if e.0 == k then init + Texts(k, e.1) else init
  }

  ghost predicate Carries(xs: seq<Field>, es: seq<(string, seq<bytes>)>)
  {
    |xs| == |es| && forall i :: 0 <= i < |xs| ==>
      xs[i].num == 1 && xs[i].val.Chunk? && DecodeEntry(xs[i].val.data) == Some(es[i])
  }

  /** md holds, for exactly the keys of es, what their entries carry. */
  ghost predicate Holds(md: Md, es: seq<(string, seq<bytes>)>)
  {
    && (forall k :: k in md <==> exists i :: 0 <= i < |es| && es[i].0 == k)
    && forall k :: k in md ==> md[k] == Collected(es, k)
  }

  lemma HoldsAppend(md: Md, es: seq<(string, seq<bytes>)>, e: (string, seq<bytes>))
    requires Holds(md, es)
    ensures Holds(Append(md, e.0, Texts(e.0, e.1)), es + [e])
  {
    var all := es + [e];
    assert all[..|es|] == es && all[|es|] == e;
    if e.0 !in md { NotCollected(es, e.0); }
    forall k
      ensures (exists i :: 0 <= i < |all| && all[i].0 == k) <==> k == e.0 || k in md
    {
      if k in md {
        var i :| 0 <= i < |es| && es[i].0 == k;
        assert all[i].0 == k;
      }
    }
  }

  /** Repeated keys append, in wire order: whatever entries arrive, each key holds the concatenation of
      what its entries carry, and only keys that arrived are there. */
  lemma {:induction false} RepeatsAppend(xs: seq<Field>, es: seq<(string, seq<bytes>)>)
    requires Carries(xs, es)
    ensures var r := FoldSeq(xs, MdStep, map[]); r.Some? && Holds(r.value, es)
    decreases |xs|
  {
    if xs != [] {
      var (init, x) := (xs[..|xs| - 1], xs[|xs| - 1]);
      var (einit, e) := (es[..|es| - 1], es[|es| - 1]);
      assert xs == init + [x] && es == einit + [e] && Carries(init, einit);
      RepeatsAppend(init, einit);
      FoldSplit(init, [x], MdStep, map[]);
      var was := FoldSeq(init, MdStep, map[]).value;
      assert FoldSeq([x], MdStep, was) == Some(Append(was, e.0, Texts(e.0, e.1)));
      HoldsAppend(was, einit, e);
    }
  }

  lemma {:induction false} NotCollected(es: seq<(string, seq<bytes>)>, k: string)
    requires forall i :: 0 <= i < |es| ==> es[i].0 != k
    ensures Collected(es, k) == []
  {
    if es != [] { NotCollected(es[..|es| - 1], k); }
  }

  // ------------------------------------------------------------------
  // the round trip
  // ------------------------------------------------------------------

  lemma {:induction false} AllOctetsIs(key: string, vs: seq<string>)
    ensures AllOctets(key, vs).Some? <==> forall i :: 0 <= i < |vs| ==> Octets(key, vs[i]).Some?
    ensures AllOctets(key, vs).Some? ==>
              |AllOctets(key, vs).value| == |vs|
              && forall i :: 0 <= i < |vs| ==> Octets(key, vs[i]) == Some(AllOctets(key, vs).value[i])
  {
    if vs != [] {
      AllOctetsIs(key, vs[1..]);
      assert forall i :: 0 < i < |vs| ==> vs[i] == vs[1..][i - 1];
      if AllOctets(key, vs).None? && AllOctets(key, vs[1..]).None? {
        var i :| 0 <= i < |vs| - 1 && Octets(key, vs[1..][i]).None?;
        assert Octets(key, vs[i + 1]).None?;
      }
    }
  }

  ghost function Raws(md: Md, key: string): seq<bytes>
    requires key in md && AllOctets(key, md[key]).Some?
  {
    AllOctets(key, md[key]).value
  }

  /** Everything md puts on the wire has a length the wire can carry. */
  ghost predicate MdFits(md: Md)
  {
    EncodeMetadata(md).Some? && forall key :: key in md ==> KeyFits(md, key)
  }

  ghost predicate KeyFits(md: Md, key: string)
    requires key in md
  {
    AllOctets(key, md[key]).Some? && AllFit(EntryFields(key, Raws(md, key))) && Fits(EntryField(key, Raws(md, key)))
  }

  /** md after the per-value transform and back. */
  ghost function Through(md: Md): Md
    requires forall key :: key in md ==> AllOctets(key, md[key]).Some?
  {
    map key | key in md :: Texts(key, Raws(md, key))
  }

  ghost function Pairs(keys: seq<string>, md: Md): seq<(string, seq<bytes>)>
    requires forall x :: x in keys ==> x in md && AllOctets(x, md[x]).Some?
  {
    seq(|keys|, i requires 0 <= i < |keys| => (keys[i], Raws(md, keys[i])))
  }

  lemma EntryRoundTrip(key: string, raws: seq<bytes>)
    requires AllFit(EntryFields(key, raws))
    ensures DecodeEntry(PutAll(EntryFields(key, raws))) == Some((key, raws))
  {
    KeyAnywhere([], key, raws);
    assert ValueFields([]) + [Field(1, Chunk(Encode(key)))] + ValueFields(raws) == EntryFields(key, raws);
    assert [] + raws == raws;
    FoldAll(EntryFields(key, raws), EntryStep, ("", []));
  }

  /** x is an entry field that fits and decodes to e. */
  ghost predicate CarriesOne(x: Field, e: (string, seq<bytes>))
  {
    x.num == 1 && x.val.Chunk? && DecodeEntry(x.val.data) == Some(e) && Fits(x)
  }

  lemma EntryCarries(md: Md, key: string)
    requires key in md && KeyFits(md, key)
    ensures CarriesOne(EntryField(key, Raws(md, key)), (key, Raws(md, key)))
  {
    EntryRoundTrip(key, Raws(md, key));
  }

  lemma {:induction false} EntriesAre(keys: seq<string>, md: Md)
    requires forall x :: x in keys ==> x in md && AllOctets(x, md[x]).Some?
    ensures EntriesOf(keys, md).Some? && |EntriesOf(keys, md).value| == |keys|
    ensures forall i :: 0 <= i < |keys| ==> EntriesOf(keys, md).value[i] == EntryField(keys[i], Raws(md, keys[i]))
    decreases |keys|
  {
    if keys != [] {
      assert keys == [keys[0]] + keys[1..];
      EntriesAre(keys[1..], md);
      var es := EntriesOf(keys[1..], md).value;
      assert EntriesOf(keys, md).value == [EntryField(keys[0], Raws(md, keys[0]))] + es;
    }
  }

  lemma EntriesCarry(keys: seq<string>, md: Md)
    requires forall x :: x in keys ==> x in md && AllOctets(x, md[x]).Some?
    requires forall x :: x in keys ==> KeyFits(md, x)
    ensures EntriesOf(keys, md).Some?
    ensures AllFit(EntriesOf(keys, md).value) && Carries(EntriesOf(keys, md).value, Pairs(keys, md))
  {
    EntriesAre(keys, md);
    var (es, ps) := (EntriesOf(keys, md).value, Pairs(keys, md));
    forall i | 0 <= i < |keys|
      ensures CarriesOne(es[i], ps[i])
    {
      assert keys[i] in keys && KeyFits(md, keys[i]);
      EntryCarries(md, keys[i]);
    }
  }

  /** Validated metadata can always be encoded. */
  lemma ValidEncodes(md: Md)
    requires Valid(md)
    ensures EncodeMetadata(md).Some?
  {
    forall key | key in md
      ensures AllOctets(key, md[key]).Some?
    {
      assert ValidPair(key, md[key]);
      AllOctetsIs(key, md[key]);
    }
    EntriesExist(Order(md.Keys), md);
  }

  lemma {:induction false} EntriesExist(keys: seq<string>, md: Md)
    requires (forall x :: x in keys ==> x in md) && forall key :: key in md ==> AllOctets(key, md[key]).Some?
    ensures EntriesOf(keys, md).Some?
    decreases |keys|
  {
    if keys != [] { EntriesExist(keys[1..], md); }
  }

  /** A key that occurs once holds exactly what its entry carries. */
  lemma {:induction false} CollectedOnce(ps: seq<(string, seq<bytes>)>, i: nat)
    requires i < |ps| && forall a, b :: 0 <= a < b < |ps| ==> ps[a].0 != ps[b].0
    ensures Collected(ps, ps[i].0) == Texts(ps[i].0, ps[i].1)
    decreases |ps|
  {
    var init := ps[..|ps| - 1];
    if i == |ps| - 1 {
      NotCollected(init, ps[i].0);
    } else {
      CollectedOnce(init, i);
      assert init[i] == ps[i];
    }
  }

  lemma HoldsOnce(r: Md, keys: seq<string>, md: Md)
    requires forall key :: key in md ==> AllOctets(key, md[key]).Some?
    requires Ascending(keys) && (forall x :: x in keys <==> x in md) && Holds(r, Pairs(keys, md))
    ensures r == Through(md)
  {
    var ps := Pairs(keys, md);
    forall a, b | 0 <= a < b < |ps|
      ensures ps[a].0 != ps[b].0
    {
      LessTotal(keys[a], keys[b]);
    }
    forall k | k in md
      ensures k in r && r[k] == Texts(k, Raws(md, k))
    {
      var i :| 0 <= i < |keys| && keys[i] == k;
      assert ps[i].0 == k;
      CollectedOnce(ps, i);
    }
    forall k | k in r
      ensures k in md
    {
      var i :| 0 <= i < |ps| && ps[i].0 == k;
      assert keys[i] in keys;
    }
  }

  /** Metadata survives the wire up to the per-value transform: same keys, same number and order of
      values under each. */
  lemma MetadataThrough(md: Md)
    requires MdFits(md)
    ensures DecodeMetadata(EncodeMetadata(md).value) == Some(Through(md))
  {
    var keys := Order(md.Keys);
    EntriesCarry(keys, md);
    var es := EntriesOf(keys, md).value;
    RepeatsAppend(es, Pairs(keys, md));
    HoldsOnce(FoldSeq(es, MdStep, map[]).value, keys, md);
    FoldAll(es, MdStep, map[]);
  }

  lemma ValuesSame(md: Md, key: string)
    requires key in md && AllOctets(key, md[key]).Some?
    ensures Texts(key, Raws(md, key)) == md[key] <==> CanonicalValues(key, md[key])
  {
    AllOctetsIs(key, md[key]);
    forall i | 0 <= i < |md[key]|
      ensures Texts(key, Raws(md, key))[i] == md[key][i]
              <==> (IsBinary(key) ==> Decoded(md[key][i]).Some? && Canonical(md[key][i]))
    {
      ValueRoundTrip(key, md[key][i]);
    }
  }

  lemma ThroughSame(md: Md)
    requires forall key :: key in md ==> AllOctets(key, md[key]).Some?
    ensures Through(md) == md <==> CanonicalMd(md)
  {
    forall key | key in md
      ensures Through(md)[key] == md[key] <==> CanonicalValues(key, md[key])
    {
      ValuesSame(md, key);
    }
    if CanonicalMd(md) { assert Through(md) == md; }
  }

  /** Lossless exactly on canonical values: decoding the encoded metadata gives it back if and only if
      every binary value is canonical base64. */
  lemma MetadataRoundTrip(md: Md)
    requires MdFits(md)
    ensures DecodeMetadata(EncodeMetadata(md).value) == Some(md) <==> CanonicalMd(md)
  {
    MetadataThrough(md);
    ThroughSame(md);
  }
}
