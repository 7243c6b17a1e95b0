/** The dedup memory of one client incarnation at the server: tombstones of finished calls under a
    byte cap and an entry cap, the floor that stands in for evicted ones, and the time-aged
    watermark. */
module TombStore {
  import opened Sums
  import opened Credit

  /** A tombstone: whether the terminal frame is still stored for replay, its size, its deadline. */
  datatype Entry = Entry(stored: bool, size: nat, expire: int)

  type Tomb = t: Entry | t.stored || t.size == 0 witness Entry(false, 0, 0)

  /** Every sid at or below `hwm` had been seen at time `at`. */
  datatype Checkpoint = Checkpoint(at: int, hwm: nat)

  type Tombs = map<nat, Tomb>

  datatype Store = Store(tombs: Tombs, order: seq<nat>, bytes: int, floor: nat)

  datatype Caps = Caps(tombs: nat, bytes: nat)

  function SizeOf(sid: nat, t: Tomb): nat { t.size }

  ghost function Bytes(m: Tombs): nat { Sum(m, SizeOf) }

  /** Is sid remembered, by an entry or by the floor? */
  predicate Covers(s: Store, sid: nat) { sid in s.tombs || sid <= s.floor }

  ghost predicate Sound(s: Store)
  {
    && s.bytes == Bytes(s.tombs)
    && (forall sid :: sid in s.tombs ==> sid in s.order && sid > s.floor)
  }

  ghost predicate Valid(s: Store, caps: Caps) { Sound(s) && |s.tombs| <= caps.tombs }

  // ------------------------------------------------------------------
  // degrading to key-only
  // ------------------------------------------------------------------

  function Fade(m: Tombs, sid: nat): Tombs
  {
    if sid in m then m[sid := m[sid].(stored := false, size := 0)] else m
  }

  function FadeAll(m: Tombs, sids: seq<nat>): Tombs
  {
    if sids == [] then m else Fade(FadeAll(m, sids[..|sids| - 1]), sids[|sids| - 1])
  }

  lemma FadeBytes(m: Tombs, sid: nat)
    ensures Bytes(Fade(m, sid)) == Bytes(m) - (if sid in m then m[sid].size else 0)
  {
    if sid in m {
      var t: Tomb := m[sid].(stored := false, size := 0);
      SumUpdate(m, sid, t, SizeOf);
    }
  }

  /** Fading keeps every key and deadline, and touches only what it names. */
  lemma {:induction false} FadeAllKeeps(m: Tombs, sids: seq<nat>)
    ensures FadeAll(m, sids).Keys == m.Keys
    ensures forall sid :: sid in m ==> FadeAll(m, sids)[sid]
                                       == if sid in sids then m[sid].(stored := false, size := 0) else m[sid]
  {
    if sids != [] {
      FadeAllKeeps(m, sids[..|sids| - 1]);
      assert sids == sids[..|sids| - 1] + [sids[|sids| - 1]];
    }
  }

  lemma FadeAllCount(m: Tombs, sids: seq<nat>)
    ensures FadeAll(m, sids).Keys == m.Keys && |FadeAll(m, sids)| == |m|
  {
    FadeAllKeeps(m, sids);
    assert |FadeAll(m, sids)| == |FadeAll(m, sids).Keys| == |m.Keys|;
  }

  /** Fading everything the order list names leaves nothing stored. */
  lemma FadedOut(m: Tombs, order: seq<nat>)
    requires forall sid :: sid in m ==> sid in order
    ensures Bytes(FadeAll(m, order)) == 0
  {
    FadeAllKeeps(m, order);
    SumZero(FadeAll(m, order), SizeOf);
  }

  /** How many of the oldest entries have to fade before m fits the byte cap. */
  ghost function FadeCount(m: Tombs, order: seq<nat>, cap: nat, i: nat): (n: nat)
    requires i <= |order|
    ensures i <= n <= |order|
    ensures forall j :: i <= j < n ==> Bytes(FadeAll(m, order[..j])) > cap
    ensures n < |order| ==> Bytes(FadeAll(m, order[..n])) <= cap
    decreases |order| - i
  {
    if i == |order| || Bytes(FadeAll(m, order[..i])) <= cap then i else FadeCount(m, order, cap, i + 1)
  }

  // ------------------------------------------------------------------
  // evicting the lowest
  // ------------------------------------------------------------------

  ghost predicate IsLowest(s: set<nat>, x: nat) { x in s && forall y :: y in s ==> x <= y }

  lemma {:induction false} LowestExists(s: set<nat>)
    requires s != {}
    ensures exists x :: IsLowest(s, x)
    decreases |s|
  {
    var x :| x in s;
    var rest := s - {x};
    if rest == {} {
      assert s == {x};
      assert IsLowest(s, x);
    } else {
      LowestExists(rest);
      var y :| IsLowest(rest, y);
      assert forall z :: z in s ==> z == x || z in rest;
      assert IsLowest(s, if y < x then y else x);
    }
  }

  ghost function Lowest(s: set<nat>): (x: nat)
    requires s != {}
    ensures IsLowest(s, x)
  {
    LowestExists(s);
    var x :| IsLowest(s, x);
    x
  }

  // ------------------------------------------------------------------
  // adding a tombstone
  // ------------------------------------------------------------------

  /** The entry cap: the lowest sid gives way to the floor. */
  ghost function Evicted(m: Tombs, order: seq<nat>, floor: nat, cap: nat): Store
  {
    if |m| <= cap then Store(m, order, Bytes(m), floor)
    else var low := Lowest(m.Keys); Store(m - {low}, order, Bytes(m - {low}), Max(floor, low))
  }

  ghost function Inserted(s: Store, caps: Caps, sid: nat, t: Tomb): Store
  {
    var (m, order) := (s.tombs[sid := t], s.order + [sid]);
    Evicted(FadeAll(m, order[..FadeCount(m, order, caps.bytes, 0)]), order, s.floor, caps.tombs)
  }

  function Replaced(s: Store, sid: nat, t: Tomb): Store
    requires sid in s.tombs
  {
    var old' := s.tombs[sid];
    s.(tombs := s.tombs[sid := t.(expire := Max(old'.expire, t.expire))], bytes := s.bytes + t.size - old'.size)
  }

  ghost function Added(s: Store, caps: Caps, sid: nat, t: Tomb): Store
  {
    if sid <= s.floor then s
    else if sid in s.tombs then Replaced(s, sid, t)
    else Inserted(s, caps, sid, t)
  }

  lemma EvictedKeeps(m: Tombs, order: seq<nat>, floor: nat, cap: nat)
    requires |m| <= cap + 1
    requires forall sid :: sid in m ==> sid in order && sid > floor
    ensures var e := Evicted(m, order, floor, cap);
            && Valid(e, Caps(cap, 0)) && e.bytes <= Bytes(m) && e.floor >= floor
            && (forall sid :: sid in m ==> Covers(e, sid))
            && (forall sid :: sid in e.tombs ==> sid in m && e.tombs[sid] == m[sid])
            && (forall a, b :: a in m && a !in e.tombs && b in e.tombs ==> a < b)
  {
    if |m| > cap {
      var low := Lowest(m.Keys);
      SumSplit(m, low, SizeOf);
      assert |m - {low}| == |m| - 1;
    }
  }

  /** Adding a tombstone keeps the accounting exact and within the entry cap, remembers the new sid
      and forgets no old one; a fresh insert also ends within the byte cap. */
  lemma AddedKeeps(s: Store, caps: Caps, sid: nat, t: Tomb)
    requires Valid(s, caps)
    ensures var a := Added(s, caps, sid, t);
            && Valid(a, caps) && a.floor >= s.floor && Covers(a, sid)
            && (forall x :: Covers(s, x) ==> Covers(a, x))
            && (sid !in s.tombs && sid > s.floor ==> a.bytes <= caps.bytes)
  {
    if sid <= s.floor {
    } else if sid in s.tombs {
      SumUpdate(s.tombs, sid, Replaced(s, sid, t).tombs[sid], SizeOf);
      assert Replaced(s, sid, t).tombs.Keys == s.tombs.Keys;
    } else {
      InsertedKeeps(s, caps, sid, t);
    }
  }

  lemma InsertedKeeps(s: Store, caps: Caps, sid: nat, t: Tomb)
    requires Valid(s, caps) && sid !in s.tombs && sid > s.floor
    ensures var a := Inserted(s, caps, sid, t);
            && Valid(a, caps) && a.floor >= s.floor && Covers(a, sid) && a.bytes <= caps.bytes
            && (forall x :: Covers(s, x) ==> Covers(a, x))
  {
    var (m, order) := (s.tombs[sid := t], s.order + [sid]);
    var n := FadeCount(m, order, caps.bytes, 0);
    var f := FadeAll(m, order[..n]);
    FadeAllKeeps(m, order[..n]);
    if n == |order| {
      assert order[..n] == order;
      FadedOut(m, order);
    }
    FadeAllCount(m, order[..n]);
    EvictedKeeps(f, order, s.floor, caps.tombs);
  }

  /** m has faded the n oldest entries of the order list and kept the others. */
  ghost predicate FadedBy(m: Tombs, was: Tombs, order: seq<nat>, n: nat)
    requires n <= |order|
  {
    forall x :: x in m ==>
      x in was && m[x] == if x in order[..n] then was[x].(stored := false, size := 0) else was[x]
  }

  /** Stored terminals fade oldest first and no more than needed: what fades is a prefix of the
      order list, and one entry less would still be over the cap. */
  lemma FadesOldestFirst(s: Store, caps: Caps, sid: nat, t: Tomb) returns (n: nat)
    requires Valid(s, caps) && sid !in s.tombs && sid > s.floor
    ensures n <= |s.order| + 1 && FadedBy(Inserted(s, caps, sid, t).tombs, s.tombs[sid := t], s.order + [sid], n)
    ensures n > 0 ==> Bytes(FadeAll(s.tombs[sid := t], (s.order + [sid])[..n - 1])) > caps.bytes
  {
    var (m, order) := (s.tombs[sid := t], s.order + [sid]);
    n := FadeCount(m, order, caps.bytes, 0);
    FadeAllKeeps(m, order[..n]);
  }

  // ------------------------------------------------------------------
  // the sweep
  // ------------------------------------------------------------------

  /** The watermark as of ttl ago: the last checkpoint at least that old, 0 before there is one. */
  function Aged(cps: seq<Checkpoint>, now: int, ttl: int): nat
  {
    if cps == [] then 0
    else if now - cps[|cps| - 1].at >= ttl then cps[|cps| - 1].hwm
    else Aged(cps[..|cps| - 1], now, ttl)
  }

  /** Checkpoints that a later one, itself old enough, stands in for. */
  function Dropped(cps: seq<Checkpoint>, now: int, ttl: int): seq<Checkpoint>
  {
    if |cps| > 1 && now - cps[1].at >= ttl then Dropped(cps[1..], now, ttl) else cps
  }

  /** Checkpoints are taken in time order, and the watermark only rises. */
  ghost predicate Rising(cps: seq<Checkpoint>)
  {
    forall i, j :: 0 <= i <= j < |cps| ==> cps[i].at <= cps[j].at && cps[i].hwm <= cps[j].hwm
  }

  /** Is the tombstone of sid due: past its deadline, and covered by the aged watermark? */
  predicate Spent(t: Tomb, sid: nat, now: int, aged: nat) { now > t.expire && sid <= aged }

  function Unspent(m: Tombs, now: int, aged: nat): Tombs
  {
    map sid | sid in m && !Spent(m[sid], sid, now, aged) :: m[sid]
  }

  function Filtered(order: seq<nat>, m: Tombs): seq<nat>
  {
    if order == [] then []
    else
      var r := Filtered(order[..|order| - 1], m);
      if order[|order| - 1] in m then r + [order[|order| - 1]] else r
  }

  function Compacted(order: seq<nat>, m: Tombs): seq<nat>
  {
    if |order| > 2 * |m| + 16 then Filtered(order, m) else order
  }

  ghost function Swept(s: Store, now: int, aged: nat): Store
  {
    var m := Unspent(s.tombs, now, aged);
    Store(m, Compacted(s.order, m), Bytes(m), s.floor)
  }

  /** A lost peer's tombstones all become key-only. */
  function Lost(s: Store): Store
  {
    s.(tombs := map sid | sid in s.tombs :: s.tombs[sid].(stored := false, size := 0), bytes := 0)
  }

  lemma LostKeeps(s: Store, caps: Caps)
    requires Valid(s, caps)
    ensures Valid(Lost(s), caps) && forall sid: nat :: Covers(Lost(s), sid) <==> Covers(s, sid)
  {
    SumZero(Lost(s).tombs, SizeOf);
    assert Lost(s).tombs.Keys == s.tombs.Keys;
  }

  lemma {:induction false} FilteredKeeps(order: seq<nat>, m: Tombs)
    ensures forall sid :: sid in Filtered(order, m) <==> sid in order && sid in m
  {
    if order != [] {
      FilteredKeeps(order[..|order| - 1], m);
      assert order == order[..|order| - 1] + [order[|order| - 1]];
    }
  }

  /** Sweeping keeps the accounting, and forgets only what the aged watermark covers. */
  lemma SweptKeeps(s: Store, caps: Caps, now: int, aged: nat)
    requires Valid(s, caps)
    ensures Valid(Swept(s, now, aged), caps)
    ensures forall sid: nat :: Covers(s, sid) ==> Covers(Swept(s, now, aged), sid) || sid <= aged
  {
    var m := Unspent(s.tombs, now, aged);
    FilteredKeeps(s.order, m);
    Fewer(m.Keys, s.tombs.Keys);
  }

  /** The aged watermark never goes back as time passes. */
  lemma {:induction false} AgedRises(cps: seq<Checkpoint>, now: int, later: int, ttl: int)
    requires Rising(cps) && now <= later
    ensures Aged(cps, now, ttl) <= Aged(cps, later, ttl)
    ensures cps != [] ==> Aged(cps, later, ttl) <= cps[|cps| - 1].hwm
  {
    if cps != [] {
      AgedRises(cps[..|cps| - 1], now, later, ttl);
      if |cps| > 1 { assert cps[|cps| - 2].hwm <= cps[|cps| - 1].hwm; }
    }
  }

  /** A new checkpoint hides none of the old ones. */
  lemma AgedGrows(cps: seq<Checkpoint>, cp: Checkpoint, now: int, ttl: int)
    requires Rising(cps + [cp])
    ensures Aged(cps, now, ttl) <= Aged(cps + [cp], now, ttl)
  {
    assert (cps + [cp])[..|cps|] == cps;
    assert Rising(cps);
    AgedRises(cps, now, now, ttl);
    if cps != [] { assert (cps + [cp])[|cps| - 1].hwm <= (cps + [cp])[|cps|].hwm; }
  }

  /** Dropping superseded checkpoints at one time never shows at that time or later. */
  lemma {:induction false} DroppedSame(cps: seq<Checkpoint>, now: int, later: int, ttl: int)
    requires Rising(cps) && now <= later
    ensures Rising(Dropped(cps, now, ttl)) && Aged(Dropped(cps, now, ttl), later, ttl) == Aged(cps, later, ttl)
    decreases |cps|
  {
    if |cps| > 1 && now - cps[1].at >= ttl {
      DroppedSame(cps[1..], now, later, ttl);
      TailSame(cps, later, ttl);
    }
  }

  lemma {:induction false} TailSame(cps: seq<Checkpoint>, now: int, ttl: int)
    requires |cps| > 1 && now - cps[1].at >= ttl
    ensures Aged(cps[1..], now, ttl) == Aged(cps, now, ttl)
    decreases |cps|
  {
    assert cps[1..][|cps| - 2] == cps[|cps| - 1];
    if |cps| > 2 && now - cps[|cps| - 1].at < ttl {
      TailSame(cps[..|cps| - 1], now, ttl);
      assert cps[..|cps| - 1][1..] == cps[1..][..|cps| - 2];
    }
  }

  // ------------------------------------------------------------------
  // the container
  // ------------------------------------------------------------------

  class PeerState {
    const caps: Caps
    const reliable: bool
    var tombs: Tombs
    var order: seq<nat>
    var bytes: int
    var floor: nat
    var hwm: nat
    var cps: seq<Checkpoint>

    constructor (caps: Caps, reliable: bool)
      ensures this.caps == caps && this.reliable == reliable && Valid(State(), caps)
      ensures State() == Store(map[], [], 0, 0) && hwm == 0 && cps == []
    {
      this.caps, this.reliable := caps, reliable;
      tombs, order, bytes, floor, hwm, cps := map[], [], 0, 0, 0, [];
    }

    function State(): Store
      reads this
    {
      Store(tombs, order, bytes, floor)
    }

    /** The watermark that decides what is stale; a reliable channel does not age it. */
    method HwmAged(now: int, ttl: int) returns (aged: nat)
      ensures aged == if reliable then hwm else Aged(cps, now, ttl)
    {
      if reliable { return hwm; }
      aged := 0;
      for i := 0 to |cps|
        invariant aged == Aged(cps[..i], now, ttl)
      {
        assert cps[..i + 1][..i] == cps[..i];
        if now - cps[i].at >= ttl { aged := cps[i].hwm; }
      }
      assert cps[..|cps|] == cps;
    }

    method AddTomb(sid: nat, t: Tomb)
      requires Valid(State(), caps)
      modifies `tombs, `order, `bytes, `floor
      ensures State() == Added(old(State()), caps, sid, t) && Valid(State(), caps)
    {
      AddedKeeps(State(), caps, sid, t);
      if sid <= floor { return; }
      if sid in tombs {
        bytes := bytes + t.size - tombs[sid].size;
        tombs := tombs[sid := t.(expire := Max(tombs[sid].expire, t.expire))];
        return;
      }
      Insert(sid, t);
    }

    method Insert(sid: nat, t: Tomb)
      requires Valid(State(), caps) && sid !in tombs && sid > floor
      modifies `tombs, `order, `bytes, `floor
      ensures State() == Inserted(old(State()), caps, sid, t)
    {
      SumUpdate(tombs, sid, t, SizeOf);
      tombs := tombs[sid := t];
      order := order + [sid];
      bytes := bytes + t.size;
      ghost var m := tombs;
      DegradeOldest();
      FadeAllCount(m, order[..FadeCount(m, order, caps.bytes, 0)]);
      EvictLowest();
    }

    /** Make one entry key-only: its stored terminal goes, its dedup stays. */
    method Forget(sid: nat)
      requires bytes == Bytes(tombs)
      modifies `tombs, `bytes
      ensures tombs == Fade(old(tombs), sid) && bytes == Bytes(tombs)
    {
      FadeBytes(tombs, sid);
      if sid in tombs {
        bytes := bytes - tombs[sid].size;
        tombs := tombs[sid := tombs[sid].(stored := false, size := 0)];
      }
    }

    /** The byte cap: the oldest stored terminals fade until the rest fits. */
    method DegradeOldest()
      requires bytes == Bytes(tombs)
      modifies `tombs, `bytes
      ensures tombs == FadeAll(old(tombs), order[..FadeCount(old(tombs), order, caps.bytes, 0)])
      ensures bytes == Bytes(tombs)
    {
      ghost var m := tombs;
      var i := 0;
      assert order[..0] == [];
      while bytes > caps.bytes && i < |order|
        invariant i <= |order| && tombs == FadeAll(m, order[..i]) && bytes == Bytes(tombs)
        invariant FadeCount(m, order, caps.bytes, 0) == FadeCount(m, order, caps.bytes, i)
        decreases |order| - i
      {
        assert order[..i + 1][..i] == order[..i];
        Forget(order[i]);
        i := i + 1;
      }
    }

    /** The entry cap: while over it, find the lowest sid, evict it and raise the floor over it. */
    method EvictLowest()
      requires bytes == Bytes(tombs) && |tombs| <= caps.tombs + 1
      requires forall x :: x in tombs ==> x > floor
      modifies `tombs, `bytes, `floor
      ensures State() == Evicted(old(tombs), order, old(floor), caps.tombs)
    {
      while |tombs| > caps.tombs
        invariant State() == Evicted(old(tombs), order, old(floor), caps.tombs) ||
                  (State() == old(State()) && |tombs| > caps.tombs)
        invariant |tombs| <= caps.tombs ==> State() == Evicted(old(tombs), order, old(floor), caps.tombs)
        invariant |tombs| > caps.tombs ==> State() == old(State())
        decreases |tombs|
      {
        var lowest := FindLowest();
        SumSplit(tombs, lowest, SizeOf);
        bytes := bytes - tombs[lowest].size;
        tombs := tombs - {lowest};
        if floor < lowest { floor := lowest; }
      }
    }

    /** The scan of one eviction; 0 stands for "none yet", which no sid above the floor is. */
    method FindLowest() returns (lowest: nat)
      requires tombs != map[] && forall x :: x in tombs ==> x > floor
      ensures IsLowest(tombs.Keys, lowest)
    {
      lowest := 0;
      var rest := tombs.Keys;
      while rest != {}
        invariant rest <= tombs.Keys
        invariant if lowest == 0 then rest == tombs.Keys
                  else lowest in tombs && forall x :: x in tombs && x !in rest ==> lowest <= x
        decreases |rest|
      {
        var x :| x in rest;
        if lowest == 0 || x < lowest { lowest := x; }
        rest := rest - {x};
      }
    }

    method RemoveTomb(sid: nat)
      requires bytes == Bytes(tombs)
      modifies `tombs, `bytes
      ensures tombs == old(tombs) - {sid} && bytes == Bytes(tombs)
    {
      if sid in tombs {
        SumSplit(tombs, sid, SizeOf);
        bytes := bytes - tombs[sid].size;
        tombs := tombs - {sid};
      } else {
        assert tombs - {sid} == tombs;
      }
    }

    /** One sweep of an unreliable container: checkpoint, expire, compact. */
    method Sweep(now: int, ttl: int)
      requires Valid(State(), caps) && !reliable
      modifies `tombs, `order, `bytes, `cps
      ensures cps == Dropped(old(cps) + [Checkpoint(now, hwm)], now, ttl)
      ensures State() == Swept(old(State()), now, Aged(cps, now, ttl)) && Valid(State(), caps)
    {
      Mark(now, ttl);
      var aged := HwmAged(now, ttl);
      SweptKeeps(State(), caps, now, aged);
      Expire(now, aged);
      if |order| > 2 * |tombs| + 16 { Compact(); }
    }

    /** Take a checkpoint; keep exactly one older than the ttl. */
    method Mark(now: int, ttl: int)
      modifies `cps
      ensures cps == Dropped(old(cps) + [Checkpoint(now, hwm)], now, ttl)
    {
      cps := cps + [Checkpoint(now, hwm)];
      ghost var all := cps;
      while |cps| > 1 && now - cps[1].at >= ttl
        invariant Dropped(cps, now, ttl) == Dropped(all, now, ttl)
        decreases |cps|
      {
        cps := cps[1..];
      }
    }

    method Expire(now: int, aged: nat)
      requires bytes == Bytes(tombs)
      modifies `tombs, `bytes
      ensures tombs == Unspent(old(tombs), now, aged) && bytes == Bytes(tombs)
    {
      ghost var was := tombs;
      var rest := tombs.Keys;
      while rest != {}
        invariant rest <= was.Keys && bytes == Bytes(tombs)
        invariant tombs == map sid | sid in was && (sid in rest || !Spent(was[sid], sid, now, aged)) :: was[sid]
        decreases |rest|
      {
        var sid :| sid in rest;
        if now > tombs[sid].expire && sid <= aged { RemoveTomb(sid); }
        rest := rest - {sid};
      }
    }

    method Compact()
      modifies `order
      ensures order == Filtered(old(order), tombs)
    {
      var kept := [];
      for i := 0 to |order|
        invariant kept == Filtered(order[..i], tombs)
      {
        assert order[..i + 1][..i] == order[..i];
        if order[i] in tombs { kept := kept + [order[i]]; }
      }
      assert order[..|order|] == order;
      order := kept;
    }

    /** The peer was lost: every stored terminal goes. */
    method Degrade()
      requires Valid(State(), caps)
      modifies `tombs, `bytes
      ensures State() == Lost(old(State())) && Valid(State(), caps)
    {
      LostKeeps(State(), caps);
      ghost var was := tombs;
      var rest := tombs.Keys;
      while rest != {}
        invariant rest <= was.Keys && bytes == Bytes(tombs)
        invariant tombs.Keys == was.Keys
        invariant forall sid :: sid in was ==>
                    tombs[sid] == if sid in rest then was[sid] else was[sid].(stored := false, size := 0)
        decreases |rest|
      {
        var sid :| sid in rest;
        Forget(sid);
        rest := rest - {sid};
      }
      assert tombs == Lost(old(State())).tombs;
      SumZero(tombs, SizeOf);
    }
  }

  // ------------------------------------------------------------------
  // whole histories
  // ------------------------------------------------------------------

  datatype Op =
    | Add(sid: nat, t: Tomb)
    | Expiry(now: int, aged: nat)
    | Degrading

  ghost function Apply(s: Store, caps: Caps, op: Op): Store
  {
    match op
    case Add(sid, t) => Added(s, caps, sid, t)
    case Expiry(now, aged) => Swept(s, now, aged)
    case Degrading => Lost(s)
  }

  ghost function ApplyAll(caps: Caps, ops: seq<Op>): Store
    decreases |ops|
  {
    if ops == [] then Store(map[], [], 0, 0) else Apply(ApplyAll(caps, ops[..|ops| - 1]), caps, ops[|ops| - 1])
  }

  /** Over any history of additions, replacements, expiries and degradations the byte count is the
      exact sum of stored sizes, every entry is in the order list, and the entry count never exceeds
      its cap. */
  lemma {:induction false} StoreStaysExact(caps: Caps, ops: seq<Op>)
    ensures Valid(ApplyAll(caps, ops), caps)
    decreases |ops|
  {
    if ops != [] {
      var (s, op) := (ApplyAll(caps, ops[..|ops| - 1]), ops[|ops| - 1]);
      StoreStaysExact(caps, ops[..|ops| - 1]);
      match op
      case Add(sid, t) => AddedKeeps(s, caps, sid, t);
      case Expiry(now, aged) => SweptKeeps(s, caps, now, aged);
      case Degrading => LostKeeps(s, caps);
    }
  }

  /** Nothing is forgotten early: a sid added at any point of a history is still covered at its end,
      by an entry or by the floor, unless an expiry since was told an aged watermark at or above it. */
  lemma {:induction false} NothingForgotten(caps: Caps, ops: seq<Op>, i: nat, sid: nat)
    requires i < |ops| && ops[i].Add? && ops[i].sid == sid
    requires forall j :: i < j < |ops| && ops[j].Expiry? ==> ops[j].aged < sid
    ensures Covers(ApplyAll(caps, ops), sid)
    decreases |ops|
  {
    var (s, op) := (ApplyAll(caps, ops[..|ops| - 1]), ops[|ops| - 1]);
    StoreStaysExact(caps, ops[..|ops| - 1]);
    if i < |ops| - 1 { NothingForgotten(caps, ops[..|ops| - 1], i, sid); }
    match op
    case Add(x, t) => AddedKeeps(s, caps, x, t);
    case Expiry(now, aged) => SweptKeeps(s, caps, now, aged);
    case Degrading => LostKeeps(s, caps);
  }
}
