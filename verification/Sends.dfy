/** The sending side of one endpoint: every call's stream sender beside the connection sender they
    share, the credits held by sends that have not reached the wire yet, and the ways those credits
    come back. */
module Sends {
  import opened Sums
  import opened Credit

  /** One call's send half. `held` counts sends that took both credits and have neither transmitted
      nor given them back; `orphan` counts sends whose credits a RESET drain took back under them;
      `sends` says whether the call's shape has data frames in this direction at all. */
  datatype Tx = Tx(sends: bool, tx: Sender, held: nat, orphan: nat, live: bool)

  datatype Out = Out(conn: Sender, txs: map<nat, Tx>)

  function SentOf(k: nat, t: Tx): nat { t.tx.sent }

  function HeldOf(k: nat, t: Tx): nat { t.held }

  predicate CanTake(o: Out, sid: nat)
  {
    sid in o.txs && o.txs[sid].sends && o.txs[sid].live && !o.txs[sid].tx.Empty() && !o.conn.Empty()
  }

  /** A send takes one credit of each window, or parks holding nothing. */
  function Take(o: Out, sid: nat): Out
  {
    if !CanTake(o, sid) then o
    else
      var t := o.txs[sid];
      Out(o.conn.Take(), o.txs[sid := t.(tx := t.tx.Take(), held := t.held + 1)])
  }

  predicate CanSpend(o: Out, sid: nat) { sid in o.txs && o.txs[sid].live && o.txs[sid].held > 0 }

  /** A credited frame reaches the wire. */
  function Spend(o: Out, sid: nat): Out
  {
    if !CanSpend(o, sid) then o
    else var t := o.txs[sid]; o.(txs := o.txs[sid := t.(held := t.held - 1)])
  }

  predicate CanPutBack(o: Out, sid: nat) { sid in o.txs && o.txs[sid].held + o.txs[sid].orphan > 0 }

  function Settled(t: Tx): Tx
    requires t.held + t.orphan > 0
  {
    if t.held > 0 then t.(held := t.held - 1) else t.(orphan := t.orphan - 1)
  }

  /** The client's undo: the connection half goes back only if the stream half did. */
  function PutBack(o: Out, sid: nat): Out
  {
    if !CanPutBack(o, sid) then o
    else
      var t := Settled(o.txs[sid]);
      if t.tx.sent == 0 then o.(txs := o.txs[sid := t])
      else Out(o.conn.Refund(1), o.txs[sid := t.(tx := t.tx.Refund(1))])
  }

  /** The server's undo returns both halves unconditionally. */
  function PutBackPlain(o: Out, sid: nat): Out
  {
    if !CanPutBack(o, sid) then o
    else var t := Settled(o.txs[sid]); Out(o.conn.Refund(1), o.txs[sid := t.(tx := t.tx.Refund(1))])
  }

  function End(o: Out, sid: nat): Out
  {
    if sid !in o.txs then o
    else var t := o.txs[sid]; o.(txs := o.txs[sid := t.(live := false, tx := t.tx.Release())])
  }

  /** A RESET before the first lock: the ended call's whole connection spend is taken back. */
  function TakeBack(o: Out, sid: nat): Out
  {
    if sid !in o.txs then o
    else
      var t := o.txs[sid];
      Out(o.conn.Refund(t.tx.sent),
          o.txs[sid := t.(tx := t.tx.(sent := 0), orphan := t.orphan + t.held, held := 0)])
  }

  predicate ValidTx(t: Tx)
  {
    && t.held <= t.tx.sent <= t.tx.granted
    && (t.orphan > 0 ==> t.tx.sent == 0 && !t.live)
    && (if t.sends then t.live ==> t.tx.on else t.tx.sent == 0)
  }

  /** The connection window is charged exactly what the calls were. */
  ghost predicate Paired(o: Out) { o.conn.sent == Sum(o.txs, SentOf) }

  ghost predicate Valid(o: Out)
  {
    Paired(o) && forall k :: k in o.txs ==> ValidTx(o.txs[k])
  }

  ghost function Held(o: Out): nat { Sum(o.txs, HeldOf) }

  lemma Retx(o: Out, sid: nat, t: Tx)
    requires sid in o.txs
    ensures Sum(o.txs[sid := t], SentOf) + o.txs[sid].tx.sent == Sum(o.txs, SentOf) + t.tx.sent
    ensures Sum(o.txs[sid := t], HeldOf) + o.txs[sid].held == Sum(o.txs, HeldOf) + t.held
    ensures o.txs[sid].tx.sent <= Sum(o.txs, SentOf) && o.txs[sid].held <= Sum(o.txs, HeldOf)
  {
    SumUpdate(o.txs, sid, t, SentOf);
    SumUpdate(o.txs, sid, t, HeldOf);
    SumAtLeast(o.txs, sid, SentOf);
    SumAtLeast(o.txs, sid, HeldOf);
  }

  /** A send that takes its credits is charged on both windows and counted as held. */
  lemma TakeKeeps(o: Out, sid: nat)
    requires Valid(o)
    ensures Valid(Take(o, sid))
    ensures Take(o, sid).conn.sent - Held(Take(o, sid)) == o.conn.sent - Held(o)
  {
    if CanTake(o, sid) { Retx(o, sid, Take(o, sid).txs[sid]); }
  }

  /** A held credit becomes a frame on the wire, charged as before. */
  lemma SpendKeeps(o: Out, sid: nat)
    requires Valid(o)
    ensures Valid(Spend(o, sid)) && Spend(o, sid).conn == o.conn
    ensures Held(Spend(o, sid)) + (if CanSpend(o, sid) then 1 else 0) == Held(o)
  {
    if CanSpend(o, sid) { Retx(o, sid, Spend(o, sid).txs[sid]); }
  }

  /** A send that never reaches the wire leaves both windows as if it had not been tried. */
  lemma PutBackKeeps(o: Out, sid: nat)
    requires Valid(o)
    ensures Valid(PutBack(o, sid))
    ensures PutBack(o, sid).conn.sent - Held(PutBack(o, sid)) == o.conn.sent - Held(o)
  {
    if CanPutBack(o, sid) {
      Retx(o, sid, PutBack(o, sid).txs[sid]);
      assert ValidTx(o.txs[sid]);
    }
  }

  lemma EndKeeps(o: Out, sid: nat)
    requires Valid(o)
    ensures Valid(End(o, sid)) && End(o, sid).conn == o.conn && Held(End(o, sid)) == Held(o)
  {
    if sid in o.txs {
      Retx(o, sid, End(o, sid).txs[sid]);
      assert ValidTx(o.txs[sid]);
    }
  }

  /** The server never drains, so its unconditional undo is the guarded one. */
  lemma PlainUndoIsGuarded(o: Out, sid: nat)
    requires Valid(o) && (sid in o.txs ==> o.txs[sid].orphan == 0)
    ensures PutBackPlain(o, sid) == PutBack(o, sid)
  {
  }

  /** After a drain every send still in progress finds nothing to return: the connection half is
      already back, and it cannot go back twice. */
  lemma DrainTakesAllOnce(o: Out, sid: nat)
    requires Valid(o) && sid in o.txs && !o.txs[sid].live
    ensures var d := TakeBack(o, sid);
            && Valid(d)
            && d.conn.sent + o.txs[sid].tx.sent == o.conn.sent
            && Held(d) + o.txs[sid].held == Held(o)
            && PutBack(d, sid).conn == d.conn
  {
    Retx(o, sid, TakeBack(o, sid).txs[sid]);
  }

  // ------------------------------------------------------------------
  // the Go core: the same pairing with the locks released in between
  // ------------------------------------------------------------------

  /** `mids` are refunds taken off a stream sender and not yet applied to the connection sender: the
      gap between the two lock regions of an undo or a drain. */
  datatype Locked = Locked(conn: Sender, streams: map<nat, Sender>, mids: seq<nat>)

  datatype Action =
    | NewStream(sid: nat, window: nat)
    | Acquire2(sid: nat)
    | UndoStream(sid: nat)
    | DrainStream(sid: nat)
    | RefundConn(i: nat)
    | GrantStream(sid: nat, n: int)
    | ObserveStream(sid: nat, n: int)
    | ReleaseStream(sid: nat)
    | GrantConn(n: int)
    | ObserveConn(n: int)

  function Act(g: Locked, a: Action): Locked
  {
    match a
    case NewStream(sid, w) => if sid in g.streams then g else g.(streams := g.streams[sid := FRESH.Assume(w)])
    case Acquire2(sid) =>
      if sid !in g.streams || g.streams[sid].Empty() || g.conn.Empty() then g
      else g.(streams := g.streams[sid := g.streams[sid].Take()], conn := g.conn.Take())
    case UndoStream(sid) =>
      if sid !in g.streams || g.streams[sid].sent == 0 then g
      else g.(streams := g.streams[sid := g.streams[sid].Refund(1)], mids := g.mids + [1])
    case DrainStream(sid) =>
      if sid !in g.streams then g
      else g.(streams := g.streams[sid := g.streams[sid].(sent := 0)], mids := g.mids + [g.streams[sid].sent])
    case RefundConn(i) =>
      if i >= |g.mids| then g
      else g.(conn := g.conn.Refund(g.mids[i]), mids := g.mids[..i] + g.mids[i + 1..])
    case GrantStream(sid, n) =>
      if sid !in g.streams then g else g.(streams := g.streams[sid := g.streams[sid].Grant(n)])
    case ObserveStream(sid, n) =>
      if sid !in g.streams then g else g.(streams := g.streams[sid := g.streams[sid].Observe(n)])
    case ReleaseStream(sid) =>
      if sid !in g.streams then g else g.(streams := g.streams[sid := g.streams[sid].Release()])
    case GrantConn(n) => g.(conn := g.conn.Grant(n))
    case ObserveConn(n) => g.(conn := g.conn.Observe(n))
  }

  function Actions(g: Locked, acts: seq<Action>): Locked
    decreases |acts|
  {
    if acts == [] then g else Act(Actions(g, acts[..|acts| - 1]), acts[|acts| - 1])
  }

  function SenderSent(k: nat, s: Sender): nat { s.sent }

  ghost function Total(s: seq<nat>): nat { if s == [] then 0 else Total(s[..|s| - 1]) + s[|s| - 1] }

  lemma {:induction false} TotalConcat(a: seq<nat>, b: seq<nat>)
    ensures Total(a + b) == Total(a) + Total(b)
  {
    if b == [] {
      assert a + b == a;
    } else {
      TotalConcat(a, b[..|b| - 1]);
      assert (a + b)[..|a + b| - 1] == a + b[..|b| - 1];
    }
  }

  ghost predicate LockedPaired(g: Locked)
  {
    g.conn.sent == Sum(g.streams, SenderSent) + Total(g.mids)
  }

  lemma SetStream(g: Locked, sid: nat, s: Sender)
    requires sid in g.streams
    ensures Sum(g.streams[sid := s], SenderSent) + g.streams[sid].sent == Sum(g.streams, SenderSent) + s.sent
  {
    SumUpdate(g.streams, sid, s, SenderSent);
  }

  lemma RefundKeepsPaired(g: Locked, i: nat)
    requires LockedPaired(g) && i < |g.mids|
    ensures LockedPaired(Act(g, RefundConn(i)))
  {
    var (a, x, b) := (g.mids[..i], g.mids[i], g.mids[i + 1..]);
    assert g.mids == a + [x] + b && Total([x]) == x;
    TotalConcat(a, [x]);
    TotalConcat(a + [x], b);
    TotalConcat(a, b);
  }

  lemma SpendKeepsPaired(g: Locked, a: Action)
    requires LockedPaired(g) && (a.Acquire2? || a.UndoStream? || a.DrainStream?) && a.sid in g.streams
    ensures LockedPaired(Act(g, a))
  {
    var s := g.streams[a.sid];
    match a
    case Acquire2(sid) => SetStream(g, sid, s.Take());
    case UndoStream(sid) =>
      SetStream(g, sid, s.Refund(1));
      TotalConcat(g.mids, [1]);
      assert Total([1]) == 1;
    case DrainStream(sid) =>
      SetStream(g, sid, s.(sent := 0));
      TotalConcat(g.mids, [s.sent]);
      assert Total([s.sent]) == s.sent;
  }

  lemma ActKeepsPaired(g: Locked, a: Action)
    requires LockedPaired(g)
    ensures LockedPaired(Act(g, a))
  {
    match a {
      case RefundConn(i) => if i < |g.mids| { RefundKeepsPaired(g, i); }
      case GrantConn(n) =>
      case ObserveConn(n) =>
      case NewStream(sid, w) => SumUpdate(g.streams, sid, FRESH.Assume(w), SenderSent);
      case Acquire2(sid) => if sid in g.streams { SpendKeepsPaired(g, a); }
      case UndoStream(sid) => if sid in g.streams { SpendKeepsPaired(g, a); }
      case DrainStream(sid) => if sid in g.streams { SpendKeepsPaired(g, a); }
      case GrantStream(sid, n) => if sid in g.streams { SetStream(g, sid, g.streams[sid].Grant(n)); }
      case ObserveStream(sid, n) => if sid in g.streams { SetStream(g, sid, g.streams[sid].Observe(n)); }
      case ReleaseStream(sid) => if sid in g.streams { SetStream(g, sid, g.streams[sid].Release()); }
    }
  }

  /** Between restarts, under any interleaving of acquires, parks, undos, drains, grants and call
      ends over any number of streams, the connection sender is charged exactly what the streams
      are, plus the refunds on their way from one lock to the other. */
  lemma {:induction false} PairedUnderAnyInterleaving(window: nat, acts: seq<Action>)
    ensures var g := Actions(Locked(FRESH.Assume(window), map[], []), acts);
            g.conn.sent == Sum(g.streams, SenderSent) + Total(g.mids)
  {
    if acts != [] {
      PairedUnderAnyInterleaving(window, acts[..|acts| - 1]);
      ActKeepsPaired(Actions(Locked(FRESH.Assume(window), map[], []), acts[..|acts| - 1]), acts[|acts| - 1]);
    }
  }
}
