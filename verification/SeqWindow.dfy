/** Sequence numbers: the sender's counter and the receive window of one stream direction, both modulo
    2^32, in window mode (any loss, duplication and reordering) and in strict mode (reliable). */
module SeqWindow {
  import opened Credit

  const MOD := 0x1_0000_0000
  const HALF := 0x8000_0000
  const W_FWD := 4096
  const K_LOUD := 3

  /** `(a - b) >>> 0`. */
  function Minus(a: u32, b: u32): u32 { (a - b) % MOD }

  // ------------------------------------------------------------------
  // the two objects
  // ------------------------------------------------------------------

  datatype Verdict = Accept | Dup | Beyond | DataLoss | ProtocolError

  datatype Window = Window(l: u32, strict: bool, beyondN: nat, beyondLast: u32, gap: nat)

  function Fresh(strict: bool): Window { Window(0, strict, 0, 0, 0) }

  /** In front of l and at most W_FWD ahead. */
  predicate Near(l: u32, s: u32) { s != 0 && 1 <= Minus(s, l) <= W_FWD }

  /** In front of l, but too far. */
  predicate Far(l: u32, s: u32) { s != 0 && W_FWD < Minus(s, l) < HALF }

  /** Follows an earlier beyond-window arrival closely enough to count with it. */
  predicate Close(earlier: u32, s: u32) { Minus(s, earlier) <= W_FWD }

  function Checked(w: Window, s: u32): (Window, Verdict)
  {
    if s == 0 then (w, Beyond)
    else if w.strict then
      if s == (w.l + 1) % MOD then (w.(l := s), Accept) else (w, ProtocolError)
    else
      var d := Minus(s, w.l);
      if d == 0 || d >= HALF then (w, Dup)
      else if d <= W_FWD then (w.(gap := d - 1, l := s, beyondN := 0), Accept)
      else
        var n := if w.beyondN > 0 && Minus(s, w.beyondLast) <= W_FWD then w.beyondN + 1 else 1;
        (w.(beyondN := n, beyondLast := s), if n >= K_LOUD then DataLoss else Beyond)
  }

  class RxWindow {
    var l: u32
    var strict: bool
    var beyondN: nat
    var beyondLast: u32
    var gap: nat

    function State(): Window
      reads this
    {
      Window(l, strict, beyondN, beyondLast, gap)
    }

    constructor (reliable: bool)
      ensures State() == Fresh(reliable)
    {
      l, strict, beyondN, beyondLast, gap := 0, reliable, 0, 0, 0;
    }

    method TakeGap() returns (g: nat)
      modifies `gap
      ensures g == old(gap) && State() == old(State()).(gap := 0)
    {
      g := gap;
      gap := 0;
    }

    method Check(s: u32) returns (v: Verdict)
      modifies this
      ensures (State(), v) == Checked(old(State()), s)
    {
      if s == 0 { return Beyond; }
      if strict {
        if s == (l + 1) % MOD {
          l := s;
          return Accept;
        }
        return ProtocolError;
      }
      var d := Minus(s, l);
      if d == 0 || d >= HALF { return Dup; }
      if d <= W_FWD {
        gap := d - 1;
        l := s;
        beyondN := 0;
        return Accept;
      }
      if beyondN > 0 && Minus(s, beyondLast) <= W_FWD {
        beyondN := beyondN + 1;
      } else {
        beyondN := 1;
      }
      beyondLast := s;
      if beyondN >= K_LOUD { return DataLoss; }
      return Beyond;
    }
  }

  class TxSeq {
    var v: u32

    constructor ()
      ensures v == 0
    {
      v := 0;
    }

    method Next() returns (s: u32)
      modifies this
      ensures s == v == (old(v) + 1) % MOD
    {
      v := (v + 1) % MOD;
      return v;
    }

    method Undo(s: u32)
      modifies this
      ensures v == Undone(old(v), s)
    {
      if s != 0 && v == s { v := (v - 1) % MOD; }
    }
  }

  function Undone(v: u32, s: u32): u32 { if s != 0 && v == s then (v - 1) % MOD else v }

  /** Undo gives the last number back exactly when it is the latest one and not 0; otherwise the
      number stays used: a hole. */
  lemma UndoIff(v: u32, later: nat)
    requires later < MOD - 1
    ensures var s: u32 := (v + 1) % MOD;
            var now: u32 := (v + 1 + later) % MOD;
            Undone(now, s) == v <==> later == 0 && s != 0
  {
  }

  // ------------------------------------------------------------------
  // window mode: an ordered subsequence
  // ------------------------------------------------------------------

  /** Frames are numbered 1, 2, 3, ... without bound; the wire carries the number modulo 2^32. */
  function Wire(n: nat): u32 { n % MOD }

  /** A receiver's account: its window, the true number of the last accepted frame, the accepted
      numbers in order, and the gaps reported. */
  datatype Account = Account(w: Window, at: nat, accepted: seq<nat>, gaps: nat)

  function Arrive(a: Account, n: nat): Account
  {
    var (w, v) := Checked(a.w, Wire(n));
    if v == Accept then Account(w.(gap := 0), n, a.accepted + [n], a.gaps + w.gap) else a.(w := w)
  }

  function ArriveAll(ns: seq<nat>): Account
  {
    if ns == [] then Account(Fresh(false), 0, [], 0)
    else Arrive(ArriveAll(ns[..|ns| - 1]), ns[|ns| - 1])
  }

  /** No arrival is confusable with a number in front of the window: it is less than a full turn
      ahead, and less than a turn minus W_FWD behind. */
  predicate InSight(at: nat, n: nat) { W_FWD - MOD < n - at < MOD }

  ghost predicate AllInSight(ns: seq<nat>)
  {
    forall i :: 0 <= i < |ns| ==> InSight(ArriveAll(ns[..i]).at, ns[i])
  }

  ghost predicate Increasing(s: seq<nat>) { forall i, j :: 0 <= i < j < |s| ==> s[i] < s[j] }

  /** The accepted numbers so far are the window's true position, in order, gaps accounted for. */
  ghost predicate Kept(a: Account)
  {
    && !a.w.strict && a.w.l == Wire(a.at) && a.w.gap == 0
    && Increasing(a.accepted) && (forall i :: 0 <= i < |a.accepted| ==> 0 < a.accepted[i] <= a.at)
    && (if a.accepted == [] then a.at == 0 else a.accepted[|a.accepted| - 1] == a.at)
    && |a.accepted| + a.gaps == a.at
  }

  /** Modular distance is true distance within sight. */
  lemma TrueDistance(at: nat, n: nat)
    requires -MOD <= n - at < MOD
    ensures Minus(Wire(n), Wire(at)) == if n >= at then n - at else if n - at == -MOD then 0 else n - at + MOD
  {
    var d := n - at;
    assert Minus(Wire(n), Wire(at)) == d % MOD by {
      assert (n % MOD - at % MOD - (n - at)) == MOD * (at / MOD - n / MOD);
      ModShift(n - at, at / MOD - n / MOD);
    }
  }

  lemma ModShift(x: int, k: int)
    ensures (x + MOD * k) % MOD == x % MOD
  {
    var q := x / MOD;
    assert x == MOD * q + x % MOD;
    assert x + MOD * k == MOD * (q + k) + x % MOD;
    Quotient(x + MOD * k, q + k, x % MOD);
  }

  lemma Quotient(x: int, q: int, r: int)
    requires x == MOD * q + r && 0 <= r < MOD
    ensures x % MOD == r
  {
  }

  lemma ArriveKeeps(a: Account, n: nat)
    requires Kept(a) && InSight(a.at, n)
    ensures Kept(Arrive(a, n))
    ensures Arrive(a, n).accepted != a.accepted <==> 0 < n - a.at <= W_FWD && Wire(n) != 0
  {
    TrueDistance(a.at, n);
  }

  lemma {:induction false} ArriveAllKept(ns: seq<nat>)
    requires AllInSight(ns)
    ensures Kept(ArriveAll(ns))
  {
    if ns != [] {
      var init := ns[..|ns| - 1];
      assert forall i :: 0 <= i < |init| ==> init[..i] == ns[..i];
      ArriveAllKept(init);
      assert InSight(ArriveAll(ns[..|init|]).at, ns[|init|]);
      ArriveKeeps(ArriveAll(init), ns[|init|]);
    }
  }

  /** Under any loss, duplication and reordering within sight: what is accepted is strictly increasing
      in true number, every accepted frame is one that arrived, and accepted plus reported gaps is
      exactly how far the window advanced. */
  lemma OrderedSubsequence(ns: seq<nat>)
    requires AllInSight(ns)
    ensures var a := ArriveAll(ns);
            && Increasing(a.accepted) && |a.accepted| + a.gaps == a.at
            && (a.accepted != [] ==> a.accepted[|a.accepted| - 1] == a.at)
            && forall i :: 0 <= i < |a.accepted| ==> a.accepted[i] in ns
  {
    ArriveAllKept(ns);
    AcceptedArrived(ns);
  }

  lemma {:induction false} AcceptedArrived(ns: seq<nat>)
    ensures forall i :: 0 <= i < |ArriveAll(ns).accepted| ==> ArriveAll(ns).accepted[i] in ns
  {
    if ns != [] { AcceptedArrived(ns[..|ns| - 1]); }
  }

  /** Within half a turn every arrival is told apart: near ones are accepted (but for a multiple of
      2^32, which the wire calls 0), old ones are duplicates, the rest is beyond the window. */
  lemma HalfTurnVerdict(a: Account, n: nat)
    requires Kept(a) && -HALF <= n - a.at < HALF && Wire(n) != 0
    ensures var v := Checked(a.w, Wire(n)).1;
            && (v == Accept <==> 0 < n - a.at <= W_FWD)
            && (v == Dup <==> n <= a.at)
            && (v == Beyond || v == DataLoss <==> n - a.at > W_FWD)
  {
    TrueDistance(a.at, n);
  }

  /** A frame exactly one turn minus W_FWD old is taken for a new one. */
  lemma OutOfSight(a: Account)
    requires Kept(a) && a.at >= MOD - W_FWD && a.w.l != MOD - W_FWD
    ensures var n: nat := a.at + W_FWD - MOD;
            n < a.at && Arrive(a, n).accepted == a.accepted + [n]
  {
    var n: nat := a.at + W_FWD - MOD;
    TrueDistance(a.at, n);
    if Wire(n) == 0 { Quotient(a.at, n / MOD, MOD - W_FWD); }
  }

  predicate NotFarBehind(at: nat, n: nat, h: nat) { at - n <= h && n - at < MOD }

  /** No arrival is more than h behind the window, or a turn ahead of it. */
  ghost predicate Behind(ns: seq<nat>, h: nat)
  {
    forall i :: 0 <= i < |ns| ==> NotFarBehind(ArriveAll(ns[..i]).at, ns[i], h)
  }

  lemma BehindSnoc(ns: seq<nat>, n: nat, h: nat)
    requires Behind(ns, h) && NotFarBehind(ArriveAll(ns).at, n, h)
    ensures Behind(ns + [n], h)
  {
    var all := ns + [n];
    forall i | 0 <= i < |all|
      ensures NotFarBehind(ArriveAll(all[..i]).at, all[i], h)
    {
      if i < |ns| { assert all[..i] == ns[..i]; } else { assert all[..i] == ns; }
    }
  }

  lemma ArriveSnoc(ns: seq<nat>, n: nat)
    ensures ArriveAll(ns + [n]) == Arrive(ArriveAll(ns), n)
  {
    assert (ns + [n])[..|ns|] == ns;
  }

  lemma StepsTo(a: Account, t: nat)
    requires Kept(a) && a.at < t <= a.at + W_FWD && t < MOD
    ensures Kept(Arrive(a, t)) && Arrive(a, t).at == t
  {
    ArriveKeeps(a, t);
  }

  /** Every position within the first turn is reached, by steps of at most W_FWD. */
  lemma {:induction false} Reach(t: nat) returns (ns: seq<nat>)
    requires t < MOD
    ensures ArriveAll(ns).at == t && Kept(ArriveAll(ns)) && Behind(ns, 0)
  {
    ns := [];
    if t > 0 {
      var init := Reach(if t <= W_FWD then 0 else t - W_FWD);
      StepsTo(ArriveAll(init), t);
      ArriveSnoc(init, t);
      BehindSnoc(init, t, 0);
      ns := init + [t];
    }
  }

  lemma BehindMore(ns: seq<nat>, g: nat, h: nat)
    requires Behind(ns, g) && g <= h
    ensures Behind(ns, h)
  {
  }

  /** The window advances to the end of a turn, and a frame a turn minus W_FWD old comes back as new. */
  lemma Reordered(h: nat) returns (ns: seq<nat>)
    requires h >= MOD - W_FWD
    ensures Behind(ns, h) && !Increasing(ArriveAll(ns).accepted)
  {
    var init := Reach(MOD - W_FWD + 1);
    var a := ArriveAll(init);
    OutOfSight(a);
    BehindMore(init, 0, h);
    BehindSnoc(init, 1, h);
    ArriveSnoc(init, 1);
    ns := init + [1];
    var acc := ArriveAll(ns).accepted;
    assert acc[|acc| - 2] == a.at && acc[|acc| - 1] == 1;
  }

  /** Order holds in every run whose arrivals are at most h behind the window if and only if h is less
      than a turn minus W_FWD: sight is exactly as far as order goes. */
  lemma SightIff(h: nat)
    ensures (forall ns :: Behind(ns, h) ==> Increasing(ArriveAll(ns).accepted)) <==> h < MOD - W_FWD
  {
    if h < MOD - W_FWD {
      forall ns | Behind(ns, h)
        ensures Increasing(ArriveAll(ns).accepted)
      {
        assert AllInSight(ns);
        OrderedSubsequence(ns);
      }
    } else {
      var ns := Reordered(h);
      assert Behind(ns, h) && !Increasing(ArriveAll(ns).accepted);
    }
  }

  /** Wrapping around costs one frame in window mode and the call in strict mode. */
  lemma WrapAround(strict: bool)
    ensures var w := Fresh(strict).(l := MOD - 1);
            && Checked(w, Wire(MOD)) == (w, Beyond)
            && Checked(w, Wire(MOD + 1)) == (if strict then (w, ProtocolError) else (w.(l := 1, gap := 1), Accept))
  {
  }

  // ------------------------------------------------------------------
  // loud failure
  // ------------------------------------------------------------------

  function Feed(ss: seq<u32>): Window
  {
    if ss == [] then Fresh(false) else Checked(Feed(ss[..|ss| - 1]), ss[|ss| - 1]).0
  }

  /** The last number in the window after arrivals ss, whatever else was counted. */
  function Edge(ss: seq<u32>): u32
  {
    if ss == [] then 0
    else
      var e := Edge(ss[..|ss| - 1]);
      if Near(e, ss[|ss| - 1]) then ss[|ss| - 1] else e
  }

  /** The beyond-window arrivals since the last accepted one. */
  function Strays(ss: seq<u32>): seq<u32>
  {
    if ss == [] then []
    else
      var (init, s) := (ss[..|ss| - 1], ss[|ss| - 1]);
      if Near(Edge(init), s) then [] else if Far(Edge(init), s) then Strays(init) + [s] else Strays(init)
  }

  /** The last k of xs follow one another closely. */
  ghost predicate Consistent(xs: seq<u32>, k: nat)
  {
    |xs| >= k && forall i :: |xs| - k < i < |xs| ==> Close(xs[i - 1], xs[i])
  }

  ghost predicate Counts(w: Window, ss: seq<u32>)
  {
    && !w.strict && w.l == Edge(ss)
    && (forall k: nat {:trigger Consistent(Strays(ss), k)} :: k > 0 ==> (w.beyondN >= k <==> Consistent(Strays(ss), k)))
    && (Strays(ss) != [] ==> w.beyondLast == Strays(ss)[|Strays(ss)| - 1])
  }

  lemma RunGrows(xs: seq<u32>, s: u32, k: nat)
    requires k > 0
    ensures Consistent(xs + [s], k) <==> k == 1 || (Consistent(xs, k - 1) && Close(xs[|xs| - 1], s))
  {
    var ys := xs + [s];
    assert forall i :: 0 < i < |xs| ==> Close(ys[i - 1], ys[i]) == Close(xs[i - 1], xs[i]);
    if k > 1 && Consistent(ys, k) {
      assert Close(ys[|xs| - 1], ys[|xs|]);
      assert forall i :: |xs| - (k - 1) < i < |xs| ==> Close(ys[i - 1], ys[i]);
    }
  }

  lemma {:induction false} FeedCounts(ss: seq<u32>)
    ensures Counts(Feed(ss), ss)
  {
    if ss != [] {
      var (init, s) := (ss[..|ss| - 1], ss[|ss| - 1]);
      FeedCounts(init);
      var (w, xs) := (Feed(init), Strays(init));
      if Far(Edge(init), s) {
        assert w.beyondN > 0 <==> Consistent(xs, 1);
        forall k: nat | k > 0
          ensures Feed(ss).beyondN >= k <==> Consistent(xs + [s], k)
        {
          RunGrows(xs, s, k);
          assert k > 1 ==> (w.beyondN >= k - 1 <==> Consistent(xs, k - 1));
        }
      }
    }
  }

  /** DATA_LOSS exactly when it should: the arrival is beyond the window and so were the last two
      before it since the last accepted frame, each close to the one before, duplicates and frames
      numbered 0 not counting either way. */
  lemma LoudIff(ss: seq<u32>, s: u32)
    ensures var v := Checked(Feed(ss), s).1;
            && (v == DataLoss <==> Far(Edge(ss), s) && Consistent(Strays(ss) + [s], K_LOUD))
            && (v == Accept <==> Near(Edge(ss), s))
            && v != ProtocolError
  {
    FeedCounts(ss);
    var (w, xs) := (Feed(ss), Strays(ss));
    RunGrows(xs, s, K_LOUD);
    assert w.beyondN >= 2 <==> Consistent(xs, 2);
    assert w.beyondN >= 1 <==> Consistent(xs, 1);
  }

  /** Neither accepted nor beyond the window: a duplicate, an old frame or a frame numbered 0. */
  ghost predicate Neutral(e: u32, ds: seq<u32>) { forall i :: 0 <= i < |ds| ==> !Near(e, ds[i]) && !Far(e, ds[i]) }

  lemma {:induction false} NeutralSkips(ss: seq<u32>, ds: seq<u32>)
    requires Neutral(Edge(ss), ds)
    ensures Edge(ss + ds) == Edge(ss) && Strays(ss + ds) == Strays(ss)
    decreases |ds|
  {
    if ds == [] {
      assert ss + ds == ss;
    } else {
      NeutralSkips(ss, ds[..|ds| - 1]);
      assert (ss + ds)[..|ss + ds| - 1] == ss + ds[..|ds| - 1];
    }
  }

  lemma StrayJoins(ss: seq<u32>, x: u32)
    requires Far(Edge(ss), x)
    ensures Edge(ss + [x]) == Edge(ss) && Strays(ss + [x]) == Strays(ss) + [x]
  {
    assert (ss + [x])[..|ss|] == ss;
  }

  /** So progress past a burst longer than the window always fails by its third arrival, whatever
      came before and whatever duplicates are mixed in. */
  lemma BurstFailsByThird(ss: seq<u32>, x: u32, ds: seq<u32>, y: u32, es: seq<u32>, z: u32)
    requires var e := Edge(ss); Far(e, x) && Far(e, y) && Far(e, z) && Neutral(e, ds) && Neutral(e, es)
    requires Close(x, y) && Close(y, z)
    ensures Checked(Feed(ss + [x] + ds + [y] + es), z).1 == DataLoss
  {
    StrayJoins(ss, x);
    NeutralSkips(ss + [x], ds);
    StrayJoins(ss + [x] + ds, y);
    NeutralSkips(ss + [x] + ds + [y], es);
    LoudIff(ss + [x] + ds + [y] + es, z);
    var xs := Strays(ss) + [x] + [y] + [z];
    assert xs[|xs| - 3] == x && xs[|xs| - 2] == y && xs[|xs| - 1] == z;
  }

  // ------------------------------------------------------------------
  // strict mode
  // ------------------------------------------------------------------

  /** Uses of a direction's counter. Every sequenced frame, a message, half-close, abort, header or terminal,
      takes its number first. It then passes to the wire, is refused on the spot, which gives the number
      back if it is still the latest, or fails in a way that does not. Frames race: any number of them may
      be under way, and they may leave in any order. */
  datatype Send<M> = Take | Pass(n: u32, m: M) | Refuse(n: u32) | Fail(n: u32)

  /** The counter, the frames on the wire, the numbers under way, and those no frame will carry any more. */
  datatype Line<M> = Line(v: u32, wire: seq<(u32, M)>, out: set<u32>, lost: set<u32>)

  function Sent<M>(t: Line<M>, op: Send<M>): Line<M>
  {
    match op
    case Take =>
      var n: u32 := (t.v + 1) % MOD;
      t.(v := n, out := t.out + {n})
    case Pass(n, m) =>
      if n in t.out then t.(wire := t.wire + [(n, m)], out := t.out - {n}) else t
    case Refuse(n) =>
      if n !in t.out then t
      else if Undone(t.v, n) != t.v then t.(v := Undone(t.v, n), out := t.out - {n})
      else t.(out := t.out - {n}, lost := t.lost + {n})
    case Fail(n) =>
      if n in t.out then t.(out := t.out - {n}, lost := t.lost + {n}) else t
  }

  function Transmit<M>(ops: seq<Send<M>>): Line<M>
  {
    if ops == [] then Line(0, [], {}, {}) else Sent(Transmit(ops[..|ops| - 1]), ops[|ops| - 1])
  }

  /** The counter does not wrap around; `WrapAround` shows what the number after that costs. */
  predicate Unwrapped<M>(ops: seq<Send<M>>)
  {
    ops == [] || (Unwrapped(ops[..|ops| - 1]) && (ops[|ops| - 1].Take? ==> Transmit(ops[..|ops| - 1]).v < MOD - 1))
  }

  /** A frame that leaves leaves no lower number behind, under way or lost. */
  ghost predicate InTurn<M>(t: Line<M>, op: Send<M>)
  {
    op.Pass? && op.n in t.out ==> forall k :: k in t.out + t.lost ==> op.n <= k
  }

  ghost predicate Orderly<M>(ops: seq<Send<M>>)
  {
    ops == [] || (Orderly(ops[..|ops| - 1]) && InTurn(Transmit(ops[..|ops| - 1]), ops[|ops| - 1]))
  }

  /** The frames are numbered 1, 2, 3, ... */
  ghost predicate Numbered<M>(wire: seq<(u32, M)>) { forall i :: 0 <= i < |wire| ==> wire[i].0 == i + 1 }

  ghost predicate OnWire<M>(wire: seq<(u32, M)>, k: nat) { exists i :: 0 <= i < |wire| && wire[i].0 == k }

  /** Every number handed out and not given back is on the wire, under way or lost, and only one of them. */
  ghost predicate Placed<M>(t: Line<M>)
  {
    && t.out !! t.lost
    && (forall k: nat :: OnWire(t.wire, k) ==> 1 <= k <= t.v && k !in t.out && k !in t.lost)
    && (forall k: u32 :: 1 <= k <= t.v <==> k in t.out || k in t.lost || OnWire(t.wire, k))
    && (forall i, j :: 0 <= i < j < |t.wire| ==> t.wire[i].0 != t.wire[j].0)
  }

  ghost predicate Counted<M>(t: Line<M>) { |t.wire| + |t.out| + |t.lost| == t.v }

  lemma SentCounted<M>(t: Line<M>, op: Send<M>)
    requires Counted(t)
    requires if op.Take? then t.v < MOD - 1 && t.v + 1 !in t.out else op.n in t.out ==> op.n !in t.lost && op.n > 0
    ensures Counted(Sent(t, op))
  {
  }

  lemma OnWireSnoc<M>(wire: seq<(u32, M)>, f: (u32, M), k: nat)
    ensures OnWire(wire + [f], k) <==> OnWire(wire, k) || k == f.0
  {
    var all := wire + [f];
    if OnWire(wire, k) {
      var i :| 0 <= i < |wire| && wire[i].0 == k;
      assert all[i].0 == k;
    }
    assert all[|wire|] == f;
  }

  lemma SentPlaced<M>(t: Line<M>, op: Send<M>)
    requires Placed(t) && (op.Take? ==> t.v < MOD - 1)
    ensures Placed(Sent(t, op))
  {
    if op.Pass? && op.n in t.out {
      forall k: nat { OnWireSnoc(t.wire, (op.n, op.m), k); }
      forall i | 0 <= i < |t.wire|
        ensures t.wire[i].0 != op.n
      {
        assert OnWire(t.wire, t.wire[i].0);
      }
    }
  }

  /** Whatever the order in which frames leave, are refused or fail: no number leaves twice, and each one
      not given back is accounted for. */
  lemma {:induction false} EveryNumberOnce<M>(ops: seq<Send<M>>)
    requires Unwrapped(ops)
    ensures Placed(Transmit(ops)) && Counted(Transmit(ops))
  {
    if ops != [] {
      EveryNumberOnce(ops[..|ops| - 1]);
      SentCounted(Transmit(ops[..|ops| - 1]), ops[|ops| - 1]);
      SentPlaced(Transmit(ops[..|ops| - 1]), ops[|ops| - 1]);
    }
  }

  /** The wire is numbered, and what comes after it is under way or lost. */
  ghost predicate InStep<M>(t: Line<M>)
  {
    && Numbered(t.wire) && |t.wire| <= t.v && t.out !! t.lost
    && forall k: u32 :: k in t.out || k in t.lost <==> |t.wire| < k <= t.v
  }

  lemma SentInStep<M>(t: Line<M>, op: Send<M>)
    requires InStep(t) && (op.Take? ==> t.v < MOD - 1)
    ensures InTurn(t, op) ==> InStep(Sent(t, op))
    ensures !InTurn(t, op) ==> !Numbered(Sent(t, op).wire)
  {
    if op.Pass? && op.n in t.out {
      var next: u32 := |t.wire| + 1;
      assert next in t.out + t.lost;
      assert Sent(t, op).wire[|t.wire|].0 == op.n;
      if InTurn(t, op) { assert op.n == next; }
    }
  }

  lemma {:induction false} OrderlyInStep<M>(ops: seq<Send<M>>)
    requires Unwrapped(ops) && Orderly(ops)
    ensures InStep(Transmit(ops))
  {
    if ops != [] {
      OrderlyInStep(ops[..|ops| - 1]);
      SentInStep(Transmit(ops[..|ops| - 1]), ops[|ops| - 1]);
    }
  }

  /** A frame that left out of turn stays where it is, whatever becomes of the number it passed. */
  lemma {:induction false} OvertakenWire<M>(ops: seq<Send<M>>)
    requires Unwrapped(ops) && !Orderly(ops)
    ensures !Numbered(Transmit(ops).wire)
  {
    var init := ops[..|ops| - 1];
    var t := Transmit(init);
    if Orderly(init) {
      OrderlyInStep(init);
      SentInStep(t, ops[|ops| - 1]);
    } else {
      OvertakenWire(init);
      var i :| 0 <= i < |t.wire| && t.wire[i].0 != i + 1;
      assert Transmit(ops).wire[i] == t.wire[i];
    }
  }

  /** Whatever mix of messages, refusals, failures and control frames, in any interleaving: the wire carries
      1..n without a hole or a swap if and only if no frame left a lower number behind. */
  lemma WireNumberedIff<M>(ops: seq<Send<M>>)
    requires Unwrapped(ops)
    ensures Numbered(Transmit(ops).wire) <==> Orderly(ops)
  {
    if Orderly(ops) { OrderlyInStep(ops); } else { OvertakenWire(ops); }
  }

  lemma Then<M>(ops: seq<Send<M>>, op: Send<M>)
    ensures Transmit(ops + [op]) == Sent(Transmit(ops), op)
    ensures Unwrapped(ops + [op]) <==> Unwrapped(ops) && (op.Take? ==> Transmit(ops).v < MOD - 1)
    ensures Orderly(ops + [op]) <==> Orderly(ops) && InTurn(Transmit(ops), op)
  {
    assert (ops + [op])[..|ops|] == ops;
  }

  /** Two frames that are numbered one after the other and then meet their outcomes in the given order. */
  function Race<M>(ops: seq<Send<M>>, first: Send<M>, second: Send<M>): seq<Send<M>>
  {
    ops + [Take] + [Take] + [first] + [second]
  }

  function Raced<M>(t: Line<M>, first: Send<M>, second: Send<M>): Line<M>
  {
    Sent(Sent(Sent(Sent(t, Take), Take), first), second)
  }

  lemma RaceIs<M>(ops: seq<Send<M>>, first: Send<M>, second: Send<M>)
    ensures Transmit(Race(ops, first, second)) == Raced(Transmit(ops), first, second)
  {
    Then(ops, Take);
    Then(ops + [Take], Take);
    Then(ops + [Take] + [Take], first);
    Then(ops + [Take] + [Take] + [first], second);
  }

  lemma RacedWire<M>(t: Line<M>, f: M, g: M)
    requires t.out == {} && t.v < MOD - 2
    ensures var n: u32 := t.v + 1;
            && Raced(t, Pass(n, f), Pass(n + 1, g)).wire == t.wire + [(n, f), (n + 1, g)]
            && Raced(t, Pass(n + 1, g), Pass(n, f)).wire == t.wire + [(n + 1, g), (n, f)]
            && Raced(t, Pass(n + 1, g), Refuse(n)).wire == t.wire + [(n + 1, g)]
  {
    var n: u32 := t.v + 1;
    assert Sent(Sent(t, Take), Take) == t.(v := n + 1, out := {n, n + 1});
  }

  /** Two frames of a settled direction that race each other to the wire, such as a half-close and an
      abort: it stays numbered if they leave in turn, is swapped if they do not, and has a hole if the lower
      one is refused once the higher one left. */
  lemma RaceDecides<M>(ops: seq<Send<M>>, f: M, g: M)
    requires Unwrapped(ops) && Orderly(ops)
    requires var t := Transmit(ops); t.out == {} && t.lost == {} && t.v < MOD - 2
    ensures var (wire, n: u32) := (Transmit(ops).wire, Transmit(ops).v + 1);
            var (kept, swapped, hole) :=
              (Transmit(Race(ops, Pass(n, f), Pass(n + 1, g))).wire,
               Transmit(Race(ops, Pass(n + 1, g), Pass(n, f))).wire,
               Transmit(Race(ops, Pass(n + 1, g), Refuse(n))).wire);
            && kept == wire + [(n, f), (n + 1, g)] && Numbered(kept)
            && swapped == wire + [(n + 1, g), (n, f)] && !Numbered(swapped)
            && hole == wire + [(n + 1, g)] && !Numbered(hole)
  {
    var (t, n: u32) := (Transmit(ops), Transmit(ops).v + 1);
    OrderlyInStep(ops);
    SettledLength(t);
    RaceIs(ops, Pass(n, f), Pass(n + 1, g));
    RaceIs(ops, Pass(n + 1, g), Pass(n, f));
    RaceIs(ops, Pass(n + 1, g), Refuse(n));
    RacedWire(t, f, g);
    assert (t.wire + [(n + 1, g), (n, f)])[n - 1].0 == n + 1;
    assert (t.wire + [(n + 1, g)])[n - 1].0 == n + 1;
  }

  lemma SettledLength<M>(t: Line<M>)
    requires InStep(t) && t.out == {} && t.lost == {}
    ensures |t.wire| == t.v
  {
    assert t.v !in t.out && t.v !in t.lost;
  }

  /** A number is taken only when none is under way: number and outcome fall into one turn. */
  predicate OneTurn<M>(ops: seq<Send<M>>)
  {
    ops == [] || (OneTurn(ops[..|ops| - 1]) && (ops[|ops| - 1].Take? ==> Transmit(ops[..|ops| - 1]).out == {}))
  }

  /** Nothing leaves once a number is lost. */
  predicate Halts<M>(ops: seq<Send<M>>)
  {
    ops == [] || (Halts(ops[..|ops| - 1])
                  && (ops[|ops| - 1].Pass? && ops[|ops| - 1].n in Transmit(ops[..|ops| - 1]).out
                      ==> Transmit(ops[..|ops| - 1]).lost == {}))
  }

  /** At most the latest number is under way, and the lost ones are below it. */
  ghost predicate Solo<M>(t: Line<M>)
  {
    (t.out == {} || t.out == {t.v})
    && (forall k :: k in t.lost ==> k <= t.v && k !in t.out)
    && (t.out != {} ==> t.v > 0)
  }

  lemma SentSolo<M>(t: Line<M>, op: Send<M>)
    requires Solo(t) && (op.Take? ==> t.v < MOD - 1 && t.out == {})
    ensures Solo(Sent(t, op))
    ensures InTurn(t, op) <==> op.Pass? && op.n in t.out ==> t.lost == {}
    ensures t.lost == {} && !op.Fail? ==> Sent(t, op).lost == {}
  {
    if op.Pass? && op.n in t.out && t.lost != {} {
      var k :| k in t.lost;
      assert k in t.out + t.lost && k < op.n;
    }
  }

  lemma {:induction false} OneTurnSolo<M>(ops: seq<Send<M>>)
    requires Unwrapped(ops) && OneTurn(ops)
    ensures Solo(Transmit(ops)) && (Orderly(ops) <==> Halts(ops))
    ensures NoFailure(ops) ==> Transmit(ops).lost == {} && Halts(ops)
  {
    if ops != [] {
      var init := ops[..|ops| - 1];
      OneTurnSolo(init);
      SentSolo(Transmit(init), ops[|ops| - 1]);
    }
  }

  predicate NoFailure<M>(ops: seq<Send<M>>) { forall i :: 0 <= i < |ops| ==> !ops[i].Fail? }

  /** Sends whose number and outcome fall into one turn keep the wire numbered exactly as long as nothing
      leaves after a failure that does not give its number back; refusals never matter. */
  lemma OneTurnIff<M>(ops: seq<Send<M>>)
    requires Unwrapped(ops) && OneTurn(ops)
    ensures Numbered(Transmit(ops).wire) <==> Halts(ops)
    ensures NoFailure(ops) ==> Numbered(Transmit(ops).wire)
  {
    WireNumberedIff(ops);
    OneTurnSolo(ops);
  }

  /** The receiving call: what it has delivered, until the window fails it. */
  datatype Receiver<M> = Receiver(w: Window, delivered: seq<M>, failed: bool)

  function Receive<M>(fs: seq<(u32, M)>): Receiver<M>
  {
    if fs == [] then Receiver(Fresh(true), [], false)
    else
      var r := Receive(fs[..|fs| - 1]);
      var (w, v) := Checked(r.w, fs[|fs| - 1].0);
      if r.failed then r
      else if v == Accept then Receiver(w, r.delivered + [fs[|fs| - 1].1], false)
      else r.(w := w, failed := v == ProtocolError)
  }

  function Messages<M>(fs: seq<(u32, M)>): seq<M> { seq(|fs|, i requires 0 <= i < |fs| => fs[i].1) }

  /** A receiver that got fs delivered a prefix of what was sent, failed exactly if fs is not a prefix
      of the wire, and until then delivered every frame that arrived. */
  ghost predicate Faithful<M>(wire: seq<(u32, M)>, fs: seq<(u32, M)>, r: Receiver<M>)
  {
    && r.delivered <= Messages(wire)
    && (r.failed <==> !(fs <= wire))
    && (!r.failed ==> r.delivered == Messages(fs) && r.w == Fresh(true).(l := r.w.l) && r.w.l == |fs|)
  }

  lemma ReceiveNext<M>(wire: seq<(u32, M)>, init: seq<(u32, M)>, f: (u32, M))
    requires Numbered(wire) && |wire| < MOD && f in wire && Faithful(wire, init, Receive(init))
    ensures Faithful(wire, init + [f], Receive(init + [f]))
  {
    var fs := init + [f];
    assert fs[..|fs| - 1] == init;
    PrefixSnoc(wire, init, f);
    if fs <= wire {
      assert Messages(fs) == Messages(init) + [f.1];
      assert Messages(fs) <= Messages(wire);
    }
  }

  /** In strict mode nothing is accepted silently out of place, whatever the transport makes of the
      wire's frames by losing, repeating and reordering them. */
  lemma {:induction false} NeverSilent<M>(wire: seq<(u32, M)>, fs: seq<(u32, M)>)
    requires Numbered(wire) && |wire| < MOD && forall i :: 0 <= i < |fs| ==> fs[i] in wire
    ensures Faithful(wire, fs, Receive(fs))
    decreases |fs|
  {
    if fs != [] {
      NeverSilent(wire, fs[..|fs| - 1]);
      ReceiveNext(wire, fs[..|fs| - 1], fs[|fs| - 1]);
      assert fs == fs[..|fs| - 1] + [fs[|fs| - 1]];
    }
  }

  lemma PrefixSnoc<M>(wire: seq<(u32, M)>, init: seq<(u32, M)>, f: (u32, M))
    requires Numbered(wire) && f in wire
    ensures init + [f] <= wire <==> init <= wire && f.0 == |init| + 1
    ensures f.0 > 0
  {
    var j :| 0 <= j < |wire| && wire[j] == f;
    if init + [f] <= wire { assert wire[|init|] == (init + [f])[|init|]; }
  }

  ghost predicate TookAll<M>(fs: seq<(u32, M)>, r: Receiver<M>) { r.delivered == Messages(fs) && !r.failed }

  /** What a strict window has taken is where it stands. */
  lemma {:induction false} TakesSome<M>(fs: seq<(u32, M)>)
    requires |fs| < MOD
    ensures var r := Receive(fs);
            && r.w.strict && |r.delivered| <= |fs| && (!r.failed ==> r.w.l == |r.delivered|)
            && (|r.delivered| == |fs| ==> r.delivered == Messages(fs))
  {
    if fs != [] {
      var r := Receive(fs[..|fs| - 1]);
      TakesSome(fs[..|fs| - 1]);
      if !r.failed { StrictStep(r.w, fs[|fs| - 1].0); }
      assert Messages(fs) == Messages(fs[..|fs| - 1]) + [fs[|fs| - 1].1];
    }
  }

  lemma StrictStep(w: Window, s: u32)
    requires w.strict && w.l < MOD - 1
    ensures var (y, v) := Checked(w, s);
            y.strict && (if v == Accept then y.l == s == w.l + 1 else y.l == w.l) && (v == Accept <==> s == w.l + 1)
  {
  }

  /** A strict window takes every frame exactly if they are numbered. */
  lemma {:induction false} TakesAllIff<M>(fs: seq<(u32, M)>)
    requires |fs| < MOD
    ensures TookAll(fs, Receive(fs)) <==> Numbered(fs)
  {
    if fs != [] {
      var (init, s) := (fs[..|fs| - 1], fs[|fs| - 1].0);
      TakesSome(init);
      TakesSome(fs);
      TakesAllIff(init);
      assert |Messages(fs)| == |fs| && |Messages(init)| == |init|;
      assert Numbered(fs) <==> Numbered(init) && s == |fs|;
    }
  }

  /** Over a FIFO channel a call delivers exactly what was sent if and only if its frames left in turn. */
  lemma ReliableExact<M>(ops: seq<Send<M>>)
    requires Unwrapped(ops)
    ensures var wire := Transmit(ops).wire;
            TookAll(wire, Receive(wire)) <==> Orderly(ops)
  {
    WireNumberedIff(ops);
    EveryNumberOnce(ops);
    TakesAllIff(Transmit(ops).wire);
  }
}
