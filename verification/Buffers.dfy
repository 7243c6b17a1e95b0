/** The receiving side of one endpoint: every call's buffer, pin count and stream window, and the
    connection-window ledger they all share. The peer is arbitrary here: any frame may arrive, for
    any incarnation, conforming or not. */
module Buffers {
  import opened Sums
  import opened Credit

  datatype Key = Key(epoch: nat, sid: nat)

  /** One call's receive half. `back` is the stream credit consumed and not yet granted, `gone` the
      stream credit of messages that were refused or left the buffer undelivered. */
  datatype Rx = Rx(win: nat, queued: nat, pinned: nat, released: bool, back: nat, gone: nat)

  datatype Bufs = Bufs(ledger: Ledger, rxs: map<Key, Rx>, refused: nat)

  function PinnedOf(k: Key, r: Rx): nat { r.pinned }

  function PinnedAt(e: nat, k: Key, r: Rx): nat { if k.epoch == e then r.pinned else 0 }

  function PinnedBy(e: nat): (Key, Rx) -> nat { (k: Key, r: Rx) => PinnedAt(e, k, r) }

  predicate Live(b: Bufs, k: Key) { k in b.rxs && !b.rxs[k].released }

  function Put(b: Bufs, k: Key, r: Rx, l: Ledger): Bufs { b.(rxs := b.rxs[k := r], ledger := l) }

  function NewRx(win: nat): Rx { Rx(win, 0, 0, false, 0, 0) }

  /** Return the credit of one frame of incarnation e that is never buffered. */
  function Credited(b: Bufs, e: nat): (Bufs, nat)
  {
    var (l, g) := b.ledger.Unadmitted(e, 1);
    (b.(ledger := l), g)
  }

  /** A data frame for call k arrives; `ok` is the verdict of the flag, shape and sequence checks.
      The result carries the connection grant to send now. */
  function Arrive(b: Bufs, k: Key, ok: bool): (Bufs, nat)
  {
    if !Live(b, k) then Credited(b, k.epoch)
    else if !ok then Credited(Forfeit(b, k), k.epoch)
    else if !b.ledger.Admits() then Credited(Forfeit(b, k).(refused := b.refused + 1), k.epoch)
    else
      var r := b.rxs[k];
      var l := b.ledger.Admit();
      if r.queued >= r.win then
        var (l', g) := l.Retire(k.epoch, 1, true);
        (Forfeit(b, k).(ledger := l', refused := b.refused + 1), g)
      else (Put(b, k, r.(queued := r.queued + 1, pinned := r.pinned + 1), l), 0)
  }

  /** The stream credit of a frame the running call k never gets to deliver is not returned. */
  function Forfeit(b: Bufs, k: Key): Bufs
    requires k in b.rxs
  {
    b.(rxs := b.rxs[k := b.rxs[k].(gone := b.rxs[k].gone + 1)])
  }

  /** The application takes one buffered message of call k: the connection credit goes back when the
      frame leaves the buffer, the stream credit only if it was delivered to a running call. The
      result carries the connection grant and the stream grant to send now. */
  function Consume(b: Bufs, k: Key, delivered: bool): (Bufs, nat, nat)
  {
    if k !in b.rxs || b.rxs[k].queued == 0 then (b, 0, 0)
    else
      var r := b.rxs[k];
      var (l, g) := if r.pinned == 0 then (b.ledger, 0) else b.ledger.Retire(k.epoch, 1, true);
      var r1 := r.(queued := r.queued - 1, pinned := if r.pinned == 0 then 0 else r.pinned - 1);
      if delivered && !r.released then
        var (back, sg) := Batched(r.win, r.back + 1);
        (Put(b, k, r1.(back := back), l), g, sg)
      else (Put(b, k, r1.(gone := r1.gone + 1), l), g, 0)
  }

  /** Call k ends: everything it still has pinned goes back in one piece. */
  function Close(b: Bufs, k: Key): (Bufs, nat)
  {
    if !Live(b, k) then (b, 0)
    else
      var r := b.rxs[k];
      var (l, g) := if r.pinned == 0 then (b.ledger, 0) else b.ledger.Retire(k.epoch, r.pinned, true);
      (Put(b, k, r.(pinned := 0, released := true), l), g)
  }

  predicate ValidRx(r: Rx)
  {
    && r.win > 0 && r.queued <= r.win && r.back * 2 < r.win
    && (if r.released then r.pinned == 0 else r.pinned == r.queued)
  }

  /** Between steps less than half the window is held back for any incarnation. */
  ghost predicate Rested(l: Ledger) { forall e :: l.Held(e) * 2 < l.window }

  /** The ledger's bound is the real buffer occupancy, and it is kept. */
  ghost predicate Valid(b: Bufs)
  {
    && 0 < b.ledger.window <= U32_MAX
    && b.ledger.outstanding == Sum(b.rxs, PinnedOf) <= b.ledger.window
    && Rested(b.ledger)
    && (forall k :: k in b.rxs ==> ValidRx(b.rxs[k]))
  }

  /** Credit of incarnation e that this endpoint still owes: buffered plus held back. */
  ghost function Owed(b: Bufs, e: nat): nat { Sum(b.rxs, PinnedBy(e)) + b.ledger.Held(e) }

  /** Holding back n credits for e and applying the grant rule splits them between `Held` and the
      grant; nothing is lost unless the 32-bit counter saturates, and no other incarnation moves. */
  lemma HoldSettles(l: Ledger, e: nat, n: nat)
    requires Rested(l)
    ensures var (l', g) := (l.Hold(e, n).AfterDue(e), l.Hold(e, n).Payout(e));
            && Rested(l') && l'.window == l.window && l'.outstanding == l.outstanding
            && (forall x :: x != e ==> l'.Held(x) == l.Held(x))
            && l'.Held(e) + g == Min(l.Held(e) + n, U32_MAX)
  {
    var h := l.Hold(e, n);
    assert forall x :: x != e ==> h.Held(x) == l.Held(x) && h.AfterDue(e).Held(x) == l.Held(x);
    assert h.AfterDue(e).Held(e) == if h.Due(e) then 0 else h.Held(e);
    assert l.Held(e) * 2 < l.window;
  }

  lemma Repin(b: Bufs, k: Key, r: Rx, l: Ledger)
    ensures var b' := Put(b, k, r, l);
            var was := if k in b.rxs then b.rxs[k].pinned else 0;
            && Sum(b'.rxs, PinnedOf) + was == Sum(b.rxs, PinnedOf) + r.pinned
            && was <= Sum(b.rxs, PinnedOf)
            && forall e :: Sum(b'.rxs, PinnedBy(e)) + (if e == k.epoch then was else 0)
                           == Sum(b.rxs, PinnedBy(e)) + (if e == k.epoch then r.pinned else 0)
  {
    SumUpdate(b.rxs, k, r, PinnedOf);
    if k in b.rxs { SumAtLeast(b.rxs, k, PinnedOf); }
    forall e
      ensures Sum(b.rxs[k := r], PinnedBy(e)) + (if e == k.epoch && k in b.rxs then b.rxs[k].pinned else 0)
              == Sum(b.rxs, PinnedBy(e)) + (if e == k.epoch then r.pinned else 0)
    {
      SumUpdate(b.rxs, k, r, PinnedBy(e));
    }
  }

  lemma LeaveRests(l: Ledger, n: nat)
    requires Rested(l)
    ensures Rested(l.Leave(n)) && forall e :: l.Leave(n).Held(e) == l.Held(e)
  {
    assert forall e :: l.Leave(n).Held(e) == l.Held(e);
  }

  /** A frame that is not buffered becomes one credit held back or granted. */
  lemma UnbufferedOwesOne(b: Bufs, k: Key, ok: bool)
    requires Valid(b) && (Live(b, k) ==> !ok || !b.ledger.Admits() || b.rxs[k].queued >= b.rxs[k].win)
    ensures var ((b', g), (l, h)) := (Arrive(b, k, ok), b.ledger.Unadmitted(k.epoch, 1));
            b'.ledger == l && g == h && b'.rxs == if Live(b, k) then Forfeit(b, k).rxs else b.rxs
  {
    if Live(b, k) && ok && b.ledger.Admits() {
      assert b.ledger.Admit().Leave(1) == b.ledger;
    }
  }

  lemma CreditedOwesOne(b: Bufs, e: nat)
    requires Valid(b)
    ensures var (b', g) := Credited(b, e);
            && Valid(b') && b'.ledger.window == b.ledger.window
            && forall x :: Owed(b', x) + (if x == e then g else 0) == Owed(b, x) + (if x == e then 1 else 0)
  {
    HoldSettles(b.ledger, e, 1);
  }

  /** A data frame, whatever path it takes, leaves exactly one more credit owed or granted to its
      own incarnation and none to any other. */
  lemma ArriveOwesOne(b: Bufs, k: Key, ok: bool)
    requires Valid(b)
    ensures var (b', g) := Arrive(b, k, ok);
            && Valid(b') && b'.ledger.window == b.ledger.window
            && forall e :: Owed(b', e) + (if e == k.epoch then g else 0)
                           == Owed(b, e) + (if e == k.epoch then 1 else 0)
  {
    if Live(b, k) && ok && b.ledger.Admits() && b.rxs[k].queued < b.rxs[k].win {
      var r := b.rxs[k];
      assert forall e :: b.ledger.Admit().Held(e) == b.ledger.Held(e);
      Repin(b, k, r.(queued := r.queued + 1, pinned := r.pinned + 1), b.ledger.Admit());
    } else {
      UnbufferedOwesOne(b, k, ok);
      HoldSettles(b.ledger, k.epoch, 1);
      if Live(b, k) { Repin(b, k, Forfeit(b, k).rxs[k], b.ledger); }
    }
  }

  /** Taking a message out of its buffer moves its credit, never changes it. */
  lemma ConsumeOwesSame(b: Bufs, k: Key, delivered: bool)
    requires Valid(b)
    ensures var (b', g, sg) := Consume(b, k, delivered);
            && Valid(b') && b'.ledger.window == b.ledger.window
            && forall e :: Owed(b', e) + (if e == k.epoch then g else 0) == Owed(b, e)
  {
    if k in b.rxs && b.rxs[k].queued > 0 {
      var r := b.rxs[k];
      var b' := Consume(b, k, delivered).0;
      LeaveRests(b.ledger, 1);
      HoldSettles(b.ledger.Leave(1), k.epoch, 1);
      Repin(b, k, b'.rxs[k], b'.ledger);
    }
  }

  /** Credit that ending call k would lose: what overflows the ledger's 32-bit counter. */
  function Spill(b: Bufs, k: Key): nat
  {
    if !Live(b, k) then 0 else Max(0, b.rxs[k].pinned + b.ledger.Held(k.epoch) - U32_MAX)
  }

  /** Ending a call moves all its credit back, short of what overflows the counter. */
  lemma CloseOwesSame(b: Bufs, k: Key)
    requires Valid(b)
    ensures var (b', g) := Close(b, k);
            && Valid(b') && b'.ledger.window == b.ledger.window
            && forall e :: Owed(b', e) + (if e == k.epoch then g + Spill(b, k) else 0) == Owed(b, e)
  {
    if Live(b, k) {
      var b' := Close(b, k).0;
      LeaveRests(b.ledger, b.rxs[k].pinned);
      HoldSettles(b.ledger.Leave(b.rxs[k].pinned), k.epoch, b.rxs[k].pinned);
      Repin(b, k, b'.rxs[k], b'.ledger);
      assert b.ledger.Held(k.epoch) * 2 < b.ledger.window;
    }
  }

  /** With a window of at most two thirds of the counter's range nothing can overflow. */
  lemma NoSpill(b: Bufs, k: Key)
    requires Valid(b) && 3 * b.ledger.window <= 2 * U32_MAX
    ensures Spill(b, k) == 0
  {
    if k in b.rxs { SumAtLeast(b.rxs, k, PinnedOf); }
    assert b.ledger.Held(k.epoch) * 2 < b.ledger.window;
  }

  lemma OpenOwesSame(b: Bufs, k: Key, win: nat)
    requires Valid(b) && k !in b.rxs && win > 0
    ensures var b' := b.(rxs := b.rxs[k := NewRx(win)]);
            Valid(b') && forall e :: Owed(b', e) == Owed(b, e)
  {
    Repin(b, k, NewRx(win), b.ledger);
  }

  // ------------------------------------------------------------------
  // whole runs against an arbitrary peer
  // ------------------------------------------------------------------

  datatype Event =
    | CallOpens(k: Key, win: u32)
    | DataArrives(k: Key, ok: bool)
    | AppTakes(k: Key, delivered: bool)
    | CallEnds(k: Key)

  /** The endpoint with three tallies per incarnation: data frames received, credits granted, and
      credits that overflowed the ledger's counter. */
  datatype Books = Books(b: Bufs, received: map<nat, nat>, granted: map<nat, nat>, spilt: map<nat, nat>)

  function Tally(m: map<nat, nat>, e: nat): nat { if e in m then m[e] else 0 }

  function Bump(m: map<nat, nat>, e: nat, n: nat): map<nat, nat> { m[e := Tally(m, e) + n] }

  /** The endpoint becomes b having taken in `got` frames of e, granted it g and lost n. */
  function Enter(s: Books, b: Bufs, e: nat, got: nat, g: nat, n: nat): Books
  {
    Books(b, Bump(s.received, e, got), Bump(s.granted, e, g), Bump(s.spilt, e, n))
  }

  function Step(s: Books, ev: Event): Books
  {
    match ev
    case CallOpens(k, win) =>
      if k in s.b.rxs then s
      else s.(b := s.b.(rxs := s.b.rxs[k := NewRx(ReliableRxSize(win, true))]))
    case DataArrives(k, ok) =>
      var (b, g) := Arrive(s.b, k, ok);
      Enter(s, b, k.epoch, 1, g, 0)
    case AppTakes(k, delivered) =>
      var (b, g, sg) := Consume(s.b, k, delivered);
      Enter(s, b, k.epoch, 0, g, 0)
    case CallEnds(k) =>
      var (b, g) := Close(s.b, k);
      Enter(s, b, k.epoch, 0, g, Spill(s.b, k))
  }

  function Run(s: Books, evs: seq<Event>): Books
    decreases |evs|
  {
    if evs == [] then s else Step(Run(s, evs[..|evs| - 1]), evs[|evs| - 1])
  }

  function Start(window: nat): Books { Books(Bufs(Ledger(window, 0, map[]), map[], 0), map[], map[], map[]) }

  ghost predicate Exact(s: Books)
  {
    forall e :: Tally(s.received, e) == Owed(s.b, e) + Tally(s.granted, e) + Tally(s.spilt, e)
  }

  /** A step that takes in `got` frames of x, grants it g, loses n, and moves the rest one for one. */
  lemma Carried(s: Books, b': Bufs, x: nat, got: nat, g: nat, n: nat)
    requires Exact(s)
    requires forall e :: Owed(b', e) + (if e == x then g + n else 0) == Owed(s.b, e) + (if e == x then got else 0)
    ensures Exact(Enter(s, b', x, got, g, n))
  {
    var y := Enter(s, b', x, got, g, n);
    forall e
      ensures Tally(y.received, e) == Owed(b', e) + Tally(y.granted, e) + Tally(y.spilt, e)
    {
      assert Tally(s.received, e) == Owed(s.b, e) + Tally(s.granted, e) + Tally(s.spilt, e);
    }
  }

  lemma StepValid(s: Books, ev: Event)
    requires Valid(s.b)
    ensures Valid(Step(s, ev).b) && Step(s, ev).b.ledger.window == s.b.ledger.window
  {
    match ev {
      case CallOpens(k, win) => if k !in s.b.rxs { OpenOwesSame(s.b, k, ReliableRxSize(win, true)); }
      case DataArrives(k, ok) => ArriveOwesOne(s.b, k, ok);
      case AppTakes(k, delivered) => ConsumeOwesSame(s.b, k, delivered);
      case CallEnds(k) => CloseOwesSame(s.b, k);
    }
  }

  lemma StepExact(s: Books, ev: Event)
    requires Valid(s.b) && Exact(s)
    ensures Exact(Step(s, ev))
  {
    match ev {
      case CallOpens(k, win) =>
        if k !in s.b.rxs { OpenOwesSame(s.b, k, ReliableRxSize(win, true)); }
      case DataArrives(k, ok) =>
        var (b, g) := Arrive(s.b, k, ok);
        ArriveOwesOne(s.b, k, ok);
        Carried(s, b, k.epoch, 1, g, 0);
      case AppTakes(k, delivered) =>
        var (b, g, sg) := Consume(s.b, k, delivered);
        ConsumeOwesSame(s.b, k, delivered);
        Carried(s, b, k.epoch, 0, g, 0);
      case CallEnds(k) =>
        var (b, g) := Close(s.b, k);
        CloseOwesSame(s.b, k);
        Carried(s, b, k.epoch, 0, g, Spill(s.b, k));
    }
  }

  /** Whatever the peer sends, the ledger's `outstanding` is the number of its frames in our buffers
      and never exceeds the advertised window. */
  lemma {:induction false} OutstandingIsBuffered(window: nat, evs: seq<Event>)
    requires 0 < window <= U32_MAX
    ensures var b := Run(Start(window), evs).b;
            Valid(b) && b.ledger.window == window
            && b.ledger.outstanding == Sum(b.rxs, PinnedOf) <= window
  {
    if evs != [] {
      OutstandingIsBuffered(window, evs[..|evs| - 1]);
      StepValid(Run(Start(window), evs[..|evs| - 1]), evs[|evs| - 1]);
    }
  }

  /** Exactly one connection credit per data frame, per incarnation, on every path: in every run,
      frames received = frames still pinned + credit held back + credit granted, plus whatever
      overflowed the 32-bit counter; and nothing overflows unless the window is over two thirds of
      the counter's range. */
  lemma OneCreditPerFrame(window: nat, evs: seq<Event>, e: nat)
    requires 0 < window <= U32_MAX
    ensures var s := Run(Start(window), evs);
            && Tally(s.received, e)
               == Sum(s.b.rxs, PinnedBy(e)) + s.b.ledger.Held(e) + Tally(s.granted, e) + Tally(s.spilt, e)
            && (3 * window <= 2 * U32_MAX ==> Tally(s.spilt, e) == 0)
  {
    OneCreditAll(window, evs);
    assert Exact(Run(Start(window), evs));
    if 3 * window <= 2 * U32_MAX { NothingSpilt(window, evs, e); }
  }

  lemma {:induction false} OneCreditAll(window: nat, evs: seq<Event>)
    requires 0 < window <= U32_MAX
    ensures Exact(Run(Start(window), evs))
  {
    if evs == [] {
      assert forall e :: Sum<Key, Rx>(map[], PinnedBy(e)) == 0;
    } else {
      OneCreditAll(window, evs[..|evs| - 1]);
      OutstandingIsBuffered(window, evs[..|evs| - 1]);
      StepExact(Run(Start(window), evs[..|evs| - 1]), evs[|evs| - 1]);
    }
  }

  lemma {:induction false} NothingSpilt(window: nat, evs: seq<Event>, e: nat)
    requires 0 < window && 3 * window <= 2 * U32_MAX
    ensures Tally(Run(Start(window), evs).spilt, e) == 0
  {
    if evs != [] {
      var (s, ev) := (Run(Start(window), evs[..|evs| - 1]), evs[|evs| - 1]);
      NothingSpilt(window, evs[..|evs| - 1], e);
      OutstandingIsBuffered(window, evs[..|evs| - 1]);
      if ev.CallEnds? { NoSpill(s.b, ev.k); }
    }
  }

  // ------------------------------------------------------------------
  // the bound on the window is exact
  // ------------------------------------------------------------------

  const CALL := Key(0, 0)

  /** One call with the largest buffer, and n messages through it one at a time. */
  function Trickle(n: nat): seq<Event>
  {
    if n == 0 then [CallOpens(CALL, U32_MAX)] else Trickle(n - 1) + [DataArrives(CALL, true)] + [AppTakes(CALL, false)]
  }

  /** Then m messages nobody reads. */
  function Flood(n: nat, m: nat): seq<Event>
  {
    if m == 0 then Trickle(n) else Flood(n, m - 1) + [DataArrives(CALL, true)]
  }

  /** The one call has m messages buffered, and h credits are held back. */
  predicate At(s: Books, window: nat, m: nat, h: nat)
  {
    && CALL in s.b.rxs && s.b.ledger.window == window && s.b.ledger.outstanding == m && s.b.ledger.Held(0) == h
    && var r := s.b.rxs[CALL]; r.win == U32_MAX && r.queued == r.pinned == m && !r.released
  }

  lemma RunOne(s: Books, evs: seq<Event>, ev: Event)
    ensures Run(s, evs + [ev]) == Step(Run(s, evs), ev)
  {
    assert (evs + [ev])[..|evs + [ev]| - 1] == evs;
  }

  /** One message through the call holds one credit more back. */
  lemma Trickles(s: Books, window: nat, h: nat)
    requires At(s, window, 0, h) && (h + 1) * 2 < window <= U32_MAX
    ensures At(Step(Step(s, DataArrives(CALL, true)), AppTakes(CALL, false)), window, 0, h + 1)
  {
    var y := Step(s, DataArrives(CALL, true));
    assert At(y, window, 1, h);
  }

  lemma {:induction false} TrickleHolds(window: nat, n: nat)
    requires n * 2 < window <= U32_MAX
    ensures At(Run(Start(window), Trickle(n)), window, 0, n)
  {
    if n == 0 {
      RunOne(Start(window), [], CallOpens(CALL, U32_MAX));
      assert Trickle(0) == [] + [CallOpens(CALL, U32_MAX)];
    } else {
      TrickleHolds(window, n - 1);
      Trickles(Run(Start(window), Trickle(n - 1)), window, n - 1);
      RunOne(Start(window), Trickle(n - 1), DataArrives(CALL, true));
      RunOne(Start(window), Trickle(n - 1) + [DataArrives(CALL, true)], AppTakes(CALL, false));
    }
  }

  lemma {:induction false} FloodFills(window: nat, n: nat, m: nat)
    requires n * 2 < window <= U32_MAX && m <= window
    ensures At(Run(Start(window), Flood(n, m)), window, m, n)
  {
    if m == 0 {
      TrickleHolds(window, n);
    } else {
      FloodFills(window, n, m - 1);
      RunOne(Start(window), Flood(n, m - 1), DataArrives(CALL, true));
    }
  }

  /** Some peer can make the counter overflow exactly when the window is over two thirds of its range. */
  lemma CreditCanSpillIff(window: nat)
    requires 0 < window <= U32_MAX
    ensures (exists evs, e :: Tally(Run(Start(window), evs).spilt, e) > 0) <==> 3 * window > 2 * U32_MAX
  {
    if 3 * window > 2 * U32_MAX {
      var n := (window - 1) / 2;
      var evs := Flood(n, window);
      FloodFills(window, n, window);
      RunOne(Start(window), evs, CallEnds(CALL));
      assert Tally(Run(Start(window), evs + [CallEnds(CALL)]).spilt, 0) > 0;
    } else {
      forall evs, e
        ensures Tally(Run(Start(window), evs).spilt, e) == 0
      {
        NothingSpilt(window, evs, e);
      }
    }
  }
}
