/** The client's receiving side when the server restarts under it. The Conn locks to the incarnation it
    hears, drops what it held back when it hears a new one, and returns no credit for frames of one it
    has moved past; what stays bounded and what is given up is exact all the same. */
module Restarts {
  import opened Sums
  import opened Credit
  import B = Buffers

  datatype Event =
    /** An H or T of incarnation e, for a call that is over. */
    | Answered(e: nat)
    /** A call's first accepted frame tells which incarnation it is of. */
    | CallOpens(k: B.Key, win: u32)
    /** A data frame of a call that runs, or is over. */
    | DataArrives(k: B.Key, ok: bool)
    /** A data frame of incarnation e is refused before anything is made of it: for its flags or shape, or
        by the sequence window of a call that has accepted nothing yet. The Conn does not lock to e. */
    | RefusedArrives(e: nat)
    /** A data frame of incarnation e names a running call of another one. */
    | StragglerArrives(k: B.Key, e: nat)
    | AppTakes(k: B.Key, delivered: bool)
    | CallEnds(k: B.Key)

  /** `breaks` counts how often another incarnation than the one at hand was heard; the tallies are per
      incarnation: data frames received, credits granted, and credits given up. */
  datatype Conn = Conn(b: B.Bufs, current: Option<nat>, breaks: nat,
                       received: map<nat, nat>, granted: map<nat, nat>, forfeit: map<nat, nat>)

  /** Does incarnation e still have someone to return credit to? */
  predicate Current(c: Conn, e: nat) { c.current.None? || c.current.value == e }

  /** Everything held back is dropped. */
  function Renewed(c: Conn): Conn
  {
    c.(b := c.b.(ledger := c.b.ledger.(pending := map[])),
       forfeit := map e | e in c.forfeit.Keys + c.b.ledger.pending.Keys :: B.Tally(c.forfeit, e) + c.b.ledger.Held(e))
  }

  function Locked(c: Conn, e: nat): Conn
  {
    if c.current == Some(e) then c
    else if c.current.None? then c.(current := Some(e))
    else Renewed(c).(current := Some(e), breaks := c.breaks + 1)
  }

  predicate HasRoom(b: B.Bufs, k: B.Key) { B.Live(b, k) && b.ledger.Admits() && b.rxs[k].queued < b.rxs[k].win }

  /** A data frame of an incarnation moved past, for a call still running: buffered as ever, but its
      refusal returns nothing. */
  function StaleArrive(b: B.Bufs, k: B.Key, ok: bool): B.Bufs
    requires B.Live(b, k)
  {
    if ok && HasRoom(b, k) then B.Arrive(b, k, ok).0
    else if ok then B.Forfeit(b, k).(refused := b.refused + 1)
    else B.Forfeit(b, k)
  }

  function StaleTake(b: B.Bufs, k: B.Key, delivered: bool): B.Bufs
  {
    if k !in b.rxs || b.rxs[k].queued == 0 then b
    else
      var r := B.Consume(b, k, delivered).0.rxs[k];
      B.Put(b, k, r, if b.rxs[k].pinned == 0 then b.ledger else b.ledger.Retire(k.epoch, 1, false).0)
  }

  function StaleEnd(b: B.Bufs, k: B.Key): B.Bufs
  {
    if !B.Live(b, k) then b
    else B.Put(b, k, b.rxs[k].(pinned := 0, released := true), b.ledger.Retire(k.epoch, b.rxs[k].pinned, false).0)
  }

  /** The Conn's buffers become b, having taken in `got` frames of e, granted it g and given up n. */
  function Enter(c: Conn, b: B.Bufs, e: nat, got: nat, g: nat, n: nat): Conn
  {
    c.(b := b, received := B.Bump(c.received, e, got), granted := B.Bump(c.granted, e, g),
       forfeit := B.Bump(c.forfeit, e, n))
  }

  function Arrived(c: Conn, k: B.Key, ok: bool): Conn
  {
    var (b, g) := B.Arrive(c.b, k, ok);
    Enter(c, b, k.epoch, 1, g, 0)
  }

  /** The credit of a frame of incarnation e that no call has a say in: returned, or given up if e was
      moved past. */
  function Unbuffered(c: Conn, e: nat): Conn
  {
    if Current(c, e) then
      var (b, g) := B.Credited(c.b, e);
      Enter(c, b, e, 1, g, 0)
    else Enter(c, c.b, e, 1, 0, 1).(breaks := c.breaks + 1)
  }

  function Taken(c: Conn, k: B.Key, delivered: bool): Conn
  {
    if Current(c, k.epoch) then
      var (b, g, _) := B.Consume(c.b, k, delivered);
      Enter(c, b, k.epoch, 0, g, 0)
    else
      Enter(c, StaleTake(c.b, k, delivered), k.epoch, 0, 0,
            if k in c.b.rxs && c.b.rxs[k].queued > 0 && c.b.rxs[k].pinned > 0 then 1 else 0)
  }

  function Ended(c: Conn, k: B.Key): Conn
  {
    if Current(c, k.epoch) then
      var (b, g) := B.Close(c.b, k);
      Enter(c, b, k.epoch, 0, g, B.Spill(c.b, k))
    else Enter(c, StaleEnd(c.b, k), k.epoch, 0, 0, if B.Live(c.b, k) then c.b.rxs[k].pinned else 0)
  }

  function Step(c: Conn, ev: Event): Conn
  {
    match ev
    case Answered(e) => Locked(c, e)
    case CallOpens(k, win) =>
      if k in c.b.rxs then c
      else
        var y := Locked(c, k.epoch);
        y.(b := y.b.(rxs := y.b.rxs[k := B.NewRx(ReliableRxSize(win, true))]))
    case DataArrives(k, ok) =>
      if !B.Live(c.b, k) then Arrived(Locked(c, k.epoch), k, ok)
      else if Current(c, k.epoch) then Arrived(c, k, ok)
      else Enter(c, StaleArrive(c.b, k, ok), k.epoch, 1, 0, if ok && HasRoom(c.b, k) then 0 else 1)
    case RefusedArrives(e) => Unbuffered(c, e)
    case StragglerArrives(k, e) =>
      if !B.Live(c.b, k) || e == k.epoch then c else Enter(c, c.b, e, 1, 0, 1).(breaks := c.breaks + 1)
    case AppTakes(k, delivered) => Taken(c, k, delivered)
    case CallEnds(k) => Ended(c, k)
  }

  function Run(c: Conn, evs: seq<Event>): Conn
    decreases |evs|
  {
    if evs == [] then c else Step(Run(c, evs[..|evs| - 1]), evs[|evs| - 1])
  }

  function Start(window: nat): Conn
  {
    Conn(B.Bufs(Ledger(window, 0, map[]), map[], 0), None, 0, map[], map[], map[])
  }

  // ------------------------------------------------------------------
  // the invariant
  // ------------------------------------------------------------------

  ghost predicate Exact(c: Conn)
  {
    forall e :: B.Tally(c.received, e) == B.Owed(c.b, e) + B.Tally(c.granted, e) + B.Tally(c.forfeit, e)
  }

  ghost predicate Inv(c: Conn, window: nat) { B.Valid(c.b) && c.b.ledger.window == window && Exact(c) }

  /** Without a restart every call is of the one incarnation there is. */
  ghost predicate Together(c: Conn) { c.breaks == 0 ==> forall k :: k in c.b.rxs ==> c.current == Some(k.epoch) }

  lemma RenewedInv(c: Conn, window: nat)
    requires Inv(c, window)
    ensures Inv(Renewed(c), window)
  {
    var y := Renewed(c);
    forall e
      ensures B.Tally(y.received, e) == B.Owed(y.b, e) + B.Tally(y.granted, e) + B.Tally(y.forfeit, e)
    {
      assert B.Tally(c.received, e) == B.Owed(c.b, e) + B.Tally(c.granted, e) + B.Tally(c.forfeit, e);
    }
  }

  lemma LockedInv(c: Conn, e: nat, window: nat)
    requires Inv(c, window)
    ensures Inv(Locked(c, e), window)
  {
    RenewedInv(c, window);
  }

  /** A step that takes in `got` frames of x, grants it g, gives up n, and moves the rest one for one. */
  lemma Carried(c: Conn, b: B.Bufs, x: nat, got: nat, g: nat, n: nat)
    requires Exact(c)
    requires forall e :: B.Owed(b, e) + (if e == x then g + n else 0) == B.Owed(c.b, e) + (if e == x then got else 0)
    ensures Exact(Enter(c, b, x, got, g, n))
  {
    var y := Enter(c, b, x, got, g, n);
    forall e
      ensures B.Tally(y.received, e) == B.Owed(b, e) + B.Tally(y.granted, e) + B.Tally(y.forfeit, e)
    {
      assert B.Tally(c.received, e) == B.Owed(c.b, e) + B.Tally(c.granted, e) + B.Tally(c.forfeit, e);
    }
  }

  lemma ArrivedInv(c: Conn, k: B.Key, ok: bool, window: nat)
    requires Inv(c, window)
    ensures Inv(Arrived(c, k, ok), window)
  {
    var (b, g) := B.Arrive(c.b, k, ok);
    B.ArriveOwesOne(c.b, k, ok);
    Carried(c, b, k.epoch, 1, g, 0);
  }

  lemma UnbufferedInv(c: Conn, e: nat, window: nat)
    requires Inv(c, window)
    ensures Inv(Unbuffered(c, e), window)
  {
    if Current(c, e) {
      var (b, g) := B.Credited(c.b, e);
      B.CreditedOwesOne(c.b, e);
      Carried(c, b, e, 1, g, 0);
    } else {
      Carried(c, c.b, e, 1, 0, 1);
    }
  }

  /** A refused frame of an incarnation moved past is given up. */
  lemma StaleArriveOwes(b: B.Bufs, k: B.Key, ok: bool)
    requires B.Valid(b) && B.Live(b, k)
    ensures var y := StaleArrive(b, k, ok);
            && B.Valid(y) && y.ledger.window == b.ledger.window
            && forall e :: B.Owed(y, e) == B.Owed(b, e) + (if e == k.epoch && ok && HasRoom(b, k) then 1 else 0)
  {
    if ok && HasRoom(b, k) { B.ArriveOwesOne(b, k, ok); } else { B.Repin(b, k, B.Forfeit(b, k).rxs[k], b.ledger); }
  }

  lemma StaleTakeOwes(b: B.Bufs, k: B.Key, delivered: bool)
    requires B.Valid(b)
    ensures var (y, lost) := (StaleTake(b, k, delivered), k in b.rxs && b.rxs[k].queued > 0 && b.rxs[k].pinned > 0);
            && B.Valid(y) && y.ledger.window == b.ledger.window
            && forall e :: B.Owed(y, e) + (if e == k.epoch && lost then 1 else 0) == B.Owed(b, e)
  {
    if k in b.rxs && b.rxs[k].queued > 0 {
      B.LeaveRests(b.ledger, 1);
      B.Repin(b, k, StaleTake(b, k, delivered).rxs[k], StaleTake(b, k, delivered).ledger);
      B.ConsumeOwesSame(b, k, delivered);
    }
  }

  lemma StaleEndOwes(b: B.Bufs, k: B.Key)
    requires B.Valid(b)
    ensures var (y, lost) := (StaleEnd(b, k), if B.Live(b, k) then b.rxs[k].pinned else 0);
            && B.Valid(y) && y.ledger.window == b.ledger.window
            && forall e :: B.Owed(y, e) + (if e == k.epoch then lost else 0) == B.Owed(b, e)
  {
    if B.Live(b, k) {
      B.LeaveRests(b.ledger, b.rxs[k].pinned);
      B.Repin(b, k, StaleEnd(b, k).rxs[k], StaleEnd(b, k).ledger);
    }
  }

  lemma TakenInv(c: Conn, k: B.Key, delivered: bool, window: nat)
    requires Inv(c, window)
    ensures Inv(Taken(c, k, delivered), window)
  {
    if Current(c, k.epoch) {
      var (b, g, _) := B.Consume(c.b, k, delivered);
      B.ConsumeOwesSame(c.b, k, delivered);
      Carried(c, b, k.epoch, 0, g, 0);
    } else {
      StaleTakeOwes(c.b, k, delivered);
      Carried(c, StaleTake(c.b, k, delivered), k.epoch, 0, 0,
              if k in c.b.rxs && c.b.rxs[k].queued > 0 && c.b.rxs[k].pinned > 0 then 1 else 0);
    }
  }

  lemma EndedInv(c: Conn, k: B.Key, window: nat)
    requires Inv(c, window)
    ensures Inv(Ended(c, k), window)
  {
    if Current(c, k.epoch) {
      var (b, g) := B.Close(c.b, k);
      B.CloseOwesSame(c.b, k);
      Carried(c, b, k.epoch, 0, g, B.Spill(c.b, k));
    } else {
      StaleEndOwes(c.b, k);
      Carried(c, StaleEnd(c.b, k), k.epoch, 0, 0, if B.Live(c.b, k) then c.b.rxs[k].pinned else 0);
    }
  }

  lemma OpensInv(c: Conn, k: B.Key, win: u32, window: nat)
    requires Inv(c, window) && k !in c.b.rxs
    ensures Inv(c.(b := c.b.(rxs := c.b.rxs[k := B.NewRx(ReliableRxSize(win, true))])), window)
  {
    B.OpenOwesSame(c.b, k, ReliableRxSize(win, true));
  }

  lemma StepInv(c: Conn, ev: Event, window: nat)
    requires Inv(c, window)
    ensures Inv(Step(c, ev), window)
  {
    match ev
    case Answered(e) => LockedInv(c, e, window);
    case CallOpens(k, win) =>
      LockedInv(c, k.epoch, window);
      if k !in c.b.rxs { OpensInv(Locked(c, k.epoch), k, win, window); }
    case DataArrives(k, ok) =>
      if !B.Live(c.b, k) {
        LockedInv(c, k.epoch, window);
        ArrivedInv(Locked(c, k.epoch), k, ok, window);
      } else if Current(c, k.epoch) {
        ArrivedInv(c, k, ok, window);
      } else {
        StaleArriveOwes(c.b, k, ok);
        Carried(c, StaleArrive(c.b, k, ok), k.epoch, 1, 0, if ok && HasRoom(c.b, k) then 0 else 1);
      }
    case RefusedArrives(e) => UnbufferedInv(c, e, window);
    case StragglerArrives(k, e) => Carried(c, c.b, e, 1, 0, 1);
    case AppTakes(k, delivered) => TakenInv(c, k, delivered, window);
    case CallEnds(k) => EndedInv(c, k, window);
  }

  lemma {:induction false} RunInv(window: nat, evs: seq<Event>)
    requires 0 < window <= U32_MAX
    ensures Inv(Run(Start(window), evs), window)
  {
    if evs == [] {
      assert forall e :: Sum<B.Key, B.Rx>(map[], B.PinnedBy(e)) == 0;
    } else {
      RunInv(window, evs[..|evs| - 1]);
      StepInv(Run(Start(window), evs[..|evs| - 1]), evs[|evs| - 1], window);
    }
  }

  /** Nothing is given up before the first restart, but for what overflows the ledger's counter. */
  ghost predicate Whole(c: Conn, window: nat)
  {
    Together(c) && (c.breaks == 0 && 3 * window <= 2 * U32_MAX ==> forall e :: B.Tally(c.forfeit, e) == 0)
  }

  lemma EnterWhole(c: Conn, b: B.Bufs, e: nat, got: nat, g: nat, n: nat, window: nat)
    requires Whole(c, window) && b.rxs.Keys == c.b.rxs.Keys
    requires c.breaks == 0 && 3 * window <= 2 * U32_MAX ==> n == 0
    ensures Whole(Enter(c, b, e, got, g, n), window)
  {
    var y := Enter(c, b, e, got, g, n);
    if c.breaks == 0 {
      forall k | k in y.b.rxs
        ensures y.current == Some(k.epoch)
      {
        assert k in c.b.rxs;
      }
      forall x | 3 * window <= 2 * U32_MAX
        ensures B.Tally(y.forfeit, x) == 0
      {
        assert B.Tally(c.forfeit, x) == 0;
      }
    }
  }

  lemma EndWhole(c: Conn, k: B.Key, window: nat)
    requires Inv(c, window) && Whole(c, window)
    ensures Whole(Ended(c, k), window)
  {
    if 3 * window <= 2 * U32_MAX { B.NoSpill(c.b, k); }
    if Current(c, k.epoch) {
      var (b, g) := B.Close(c.b, k);
      EnterWhole(c, b, k.epoch, 0, g, B.Spill(c.b, k), window);
    } else {
      EnterWhole(c, StaleEnd(c.b, k), k.epoch, 0, 0, if B.Live(c.b, k) then c.b.rxs[k].pinned else 0, window);
    }
  }

  lemma TakeWhole(c: Conn, k: B.Key, delivered: bool, window: nat)
    requires Whole(c, window)
    ensures Whole(Taken(c, k, delivered), window)
  {
    if Current(c, k.epoch) {
      var (b, g, _) := B.Consume(c.b, k, delivered);
      EnterWhole(c, b, k.epoch, 0, g, 0, window);
    } else {
      EnterWhole(c, StaleTake(c.b, k, delivered), k.epoch, 0, 0,
                 if k in c.b.rxs && c.b.rxs[k].queued > 0 && c.b.rxs[k].pinned > 0 then 1 else 0, window);
    }
  }

  lemma ArriveWhole(c: Conn, k: B.Key, ok: bool, window: nat)
    requires Whole(c, window)
    ensures Whole(Arrived(c, k, ok), window)
  {
    var (b, g) := B.Arrive(c.b, k, ok);
    EnterWhole(c, b, k.epoch, 1, g, 0, window);
  }

  lemma UnbufferedWhole(c: Conn, e: nat, window: nat)
    requires Whole(c, window)
    ensures Whole(Unbuffered(c, e), window)
  {
    if Current(c, e) {
      var (b, g) := B.Credited(c.b, e);
      EnterWhole(c, b, e, 1, g, 0, window);
    }
  }

  lemma LockWhole(c: Conn, e: nat, window: nat)
    requires Whole(c, window)
    ensures Whole(Locked(c, e), window)
  {
  }

  lemma StepWhole(c: Conn, ev: Event, window: nat)
    requires Inv(c, window) && Whole(c, window)
    ensures Whole(Step(c, ev), window)
  {
    match ev
    case Answered(e) => LockWhole(c, e, window);
    case CallOpens(k, win) => LockWhole(c, k.epoch, window);
    case DataArrives(k, ok) =>
      if !B.Live(c.b, k) {
        LockWhole(c, k.epoch, window);
        ArriveWhole(Locked(c, k.epoch), k, ok, window);
      } else if Current(c, k.epoch) {
        ArriveWhole(c, k, ok, window);
      } else {
        EnterWhole(c, StaleArrive(c.b, k, ok), k.epoch, 1, 0, if ok && HasRoom(c.b, k) then 0 else 1, window);
      }
    case RefusedArrives(e) => UnbufferedWhole(c, e, window);
    case StragglerArrives(k, e) =>
    case AppTakes(k, delivered) => TakeWhole(c, k, delivered, window);
    case CallEnds(k) => EndWhole(c, k, window);
  }

  lemma {:induction false} RunWhole(window: nat, evs: seq<Event>)
    requires 0 < window <= U32_MAX
    ensures Whole(Run(Start(window), evs), window)
  {
    if evs != [] {
      RunInv(window, evs[..|evs| - 1]);
      RunWhole(window, evs[..|evs| - 1]);
      StepWhole(Run(Start(window), evs[..|evs| - 1]), evs[|evs| - 1], window);
    }
  }

  /** Across any number of restarts, whatever the servers send: what the Conn has buffered never exceeds
      its window, every data frame's credit is pinned, held back, granted or given up, and none is given
      up while only one incarnation was heard (with a window of at most two thirds of the counter's range). */
  lemma OneCreditAcrossRestarts(window: nat, evs: seq<Event>, e: nat)
    requires 0 < window <= U32_MAX
    ensures var c := Run(Start(window), evs);
            && c.b.ledger.outstanding == Sum(c.b.rxs, B.PinnedOf) <= window
            && B.Tally(c.received, e)
               == Sum(c.b.rxs, B.PinnedBy(e)) + c.b.ledger.Held(e) + B.Tally(c.granted, e) + B.Tally(c.forfeit, e)
            && (c.breaks == 0 && 3 * window <= 2 * U32_MAX ==> B.Tally(c.forfeit, e) == 0)
  {
    RunInv(window, evs);
    RunWhole(window, evs);
    assert Exact(Run(Start(window), evs));
  }
}
