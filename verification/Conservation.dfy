/** Connection-window accounting over every run of the two-endpoint system: the invariant that ties
    both endpoints and both channels together, preserved event by event. */
module Conservation {
  import opened Sums
  import opened Credit
  import opened Channel
  import opened Duplex
  import B = Buffers
  import S = Sends

  /** Send half and receive half of an endpoint name the same calls, alive together. */
  ghost predicate InStep(o: S.Out, b: B.Bufs)
  {
    && (forall sid :: sid in o.txs <==> K(sid) in b.rxs)
    && (forall sid :: sid in o.txs ==> (o.txs[sid].live <==> !b.rxs[K(sid)].released))
    && (forall k :: k in b.rxs ==> k.epoch == 0)
  }

  /** One endpoint in good order. */
  ghost predicate Half(o: S.Out, b: B.Bufs)
  {
    S.Valid(o) && B.Valid(b) && InStep(o, b) && W_CONN <= b.ledger.window
  }

  ghost predicate NoOrphans(o: S.Out) { forall sid :: sid in o.txs ==> o.txs[sid].orphan == 0 }

  ghost predicate Ends(z: System)
  {
    && Half(z.c.out, z.c.bufs) && Half(z.s.out, z.s.bufs) && NoOrphans(z.s.out)
    && ClientConn(z) && ServerConn(z)
  }

  /** The client's connection sender runs on the assumption until the lock, then on the server's
      advertised window plus grants; it never overspends. */
  ghost predicate ClientConn(z: System)
  {
    var t := z.c.out.conn;
    && t.on && t.sent <= t.granted <= MAX_SAFE
    && (z.c.locked <==> t.observed)
    && (if t.observed then t.granted >= z.s.bufs.ledger.window else t.granted == W_CONN)
  }

  ghost predicate ServerConn(z: System)
  {
    var t := z.s.out.conn;
    if z.s.known then t.on && t.observed && t.sent <= t.granted <= MAX_SAFE && t.granted >= z.c.bufs.ledger.window
    else t == FRESH && z.s.out.txs == map[]
  }

  /** Credit granted beyond the advertised window w. */
  function Above(s: Sender, w: nat): int { if s.observed then s.granted - w else 0 }

  /** The conservation law of one direction: o sends over fwd to b, credit returns over bwd. */
  ghost predicate Balanced(o: S.Out, fwd: seq<Frame>, b: B.Bufs, bwd: seq<Frame>, lost: nat, refunded: nat)
  {
    o.conn.sent + refunded ==
      S.Held(o) + Weigh(fwd, IsData) + B.Owed(b, 0) + Weigh(bwd, ConnCredit) + lost + Above(o.conn, b.ledger.window)
  }

  ghost predicate Conserved(z: System)
  {
    && Balanced(z.c.out, z.up, z.s.bufs, z.down, z.lostUp, z.refunded)
    && Balanced(z.s.out, z.down, z.c.bufs, z.up, z.lostDown, 0)
  }

  /** The server buffers nothing. */
  ghost predicate Unpinned(b: B.Bufs) { forall k :: k in b.rxs ==> b.rxs[k].pinned == 0 }

  lemma OwedIsLedger(o: S.Out, b: B.Bufs)
    requires InStep(o, b)
    ensures B.Owed(b, 0) == Sum(b.rxs, B.PinnedOf) + b.ledger.Held(0)
  {
    SumAgree(b.rxs, b.rxs, B.PinnedOf, B.PinnedBy(0));
  }

  /** What a push adds to the two connection-level measures. */
  lemma Adds(ch: seq<Frame>, x: Frame)
    ensures Weigh(ch + [x], IsData) == Weigh(ch, IsData) + IsData(x)
    ensures Weigh(ch + [x], ConnCredit) == Weigh(ch, ConnCredit) + ConnCredit(x)
  {
    WeighPush(ch, x, IsData);
    WeighPush(ch, x, ConnCredit);
  }

  lemma AddsGrant(ch: seq<Frame>, g: nat)
    ensures Weigh(PushGrant(ch, g), IsData) == Weigh(ch, IsData)
    ensures Weigh(PushGrant(ch, g), ConnCredit) == Weigh(ch, ConnCredit) + g
  {
    Adds(ch, ConnWindow(g));
  }

  lemma AddsCredit(ch: seq<Frame>, sid: nat, g: nat)
    ensures Weigh(PushCredit(ch, sid, g), IsData) == Weigh(ch, IsData)
    ensures Weigh(PushCredit(ch, sid, g), ConnCredit) == Weigh(ch, ConnCredit)
  {
    Adds(ch, Window(sid, g));
  }

  // ------------------------------------------------------------------
  // one endpoint at a time
  // ------------------------------------------------------------------

  /** Ending a call at one endpoint: nothing charged changes, everything pinned is owed or granted. */
  lemma CloseHalf(o: S.Out, b: B.Bufs, sid: nat)
    requires Half(o, b) && sid in o.txs && o.txs[sid].live
    ensures var (b', g) := B.Close(b, K(sid));
            && Half(S.End(o, sid), b') && b'.ledger.window == b.ledger.window
            && B.Owed(b', 0) + g + B.Spill(b, K(sid)) == B.Owed(b, 0)
    ensures S.End(o, sid).conn == o.conn && S.Held(S.End(o, sid)) == S.Held(o)
    ensures NoOrphans(o) ==> NoOrphans(S.End(o, sid))
  {
    B.CloseOwesSame(b, K(sid));
    S.EndKeeps(o, sid);
  }

  lemma RecvHalf(o: S.Out, b: B.Bufs, sid: nat, delivered: bool)
    requires Half(o, b)
    ensures var (b', g, sg) := B.Consume(b, K(sid), delivered);
            && Half(o, b') && b'.ledger.window == b.ledger.window
            && B.Owed(b', 0) + g == B.Owed(b, 0)
  {
    B.ConsumeOwesSame(b, K(sid), delivered);
  }

  lemma ArriveHalf(o: S.Out, b: B.Bufs, sid: nat, ok: bool)
    requires Half(o, b)
    ensures var (b', g) := B.Arrive(b, K(sid), ok);
            && Half(o, b') && b'.ledger.window == b.ledger.window
            && B.Owed(b', 0) + g == B.Owed(b, 0) + 1
  {
    B.ArriveOwesOne(b, K(sid), ok);
  }

  lemma OpenHalf(o: S.Out, b: B.Bufs, sid: nat, t: S.Tx, win: nat)
    requires Half(o, b) && sid !in o.txs && win > 0
    requires S.ValidTx(t) && t.live && t.tx.sent == 0 && t.orphan == 0
    ensures var o' := o.(txs := o.txs[sid := t]);
            var b' := b.(rxs := b.rxs[K(sid) := B.NewRx(win)]);
            && Half(o', b') && B.Owed(b', 0) == B.Owed(b, 0) && S.Held(o') == S.Held(o)
            && (NoOrphans(o) ==> NoOrphans(o'))
  {
    B.OpenOwesSame(b, K(sid), win);
    SumUpdate(o.txs, sid, t, S.SentOf);
    SumUpdate(o.txs, sid, t, S.HeldOf);
  }

  /** Changing what a stream sender is allowed, but not what it sent. */
  lemma RestampHalf(o: S.Out, b: B.Bufs, sid: nat, s: Sender)
    requires Half(o, b) && sid in o.txs && s.sent == o.txs[sid].tx.sent && S.ValidTx(o.txs[sid].(tx := s))
    ensures Half(SetTx(o, sid, s), b) && S.Held(SetTx(o, sid, s)) == S.Held(o)
    ensures NoOrphans(o) ==> NoOrphans(SetTx(o, sid, s))
  {
    S.Retx(o, sid, o.txs[sid].(tx := s));
  }

  /** A terminal reads as "no window", but the call it lands on is over in the same breath. */
  lemma TermHalf(o: S.Out, b: B.Bufs, sid: nat)
    requires Half(o, b) && sid in o.txs && o.txs[sid].live
    requires b.rxs[K(sid)].pinned + b.ledger.Held(0) <= U32_MAX
    ensures var (b', g) := B.Close(b, K(sid));
            var o' := S.End(SetTx(o, sid, o.txs[sid].tx.Observe(0)), sid);
            && Half(o', b') && b'.ledger.window == b.ledger.window
            && B.Owed(b', 0) + g == B.Owed(b, 0)
            && o'.conn == o.conn && S.Held(o') == S.Held(o)
  {
    CloseHalf(o, b, sid);
    EndCommutes(o, sid);
    var s := o.txs[sid].tx.Observe(0).Release();
    RestampHalf(S.End(o, sid), B.Close(b, K(sid)).0, sid, s);
  }

  lemma EndCommutes(o: S.Out, sid: nat)
    requires S.Valid(o) && sid in o.txs
    ensures var (e, s) := (S.End(o, sid), o.txs[sid].tx.Observe(0));
            && S.End(SetTx(o, sid, s), sid) == SetTx(e, sid, s.Release())
            && S.ValidTx(e.txs[sid].(tx := s.Release())) && s.sent == e.txs[sid].tx.sent
  {
    assert S.ValidTx(o.txs[sid]);
  }

  lemma RestampConn(o: S.Out, b: B.Bufs, s: Sender)
    requires Half(o, b) && s.sent == o.conn.sent
    ensures Half(o.(conn := s), b) && S.Held(o.(conn := s)) == S.Held(o)
  {
  }

  // ------------------------------------------------------------------
  // endpoint operations inside the system
  // ------------------------------------------------------------------

  /** A step that only moves credit from what the client owes to a grant on the way to the server. */
  lemma MovedDown(z: System, y: System, g: nat)
    requires Ends(z) && Conserved(z)
    requires y.s == z.s && y.c.locked == z.c.locked && y.c.out.conn == z.c.out.conn
    requires S.Held(y.c.out) == S.Held(z.c.out) && Half(y.c.out, y.c.bufs)
    requires y.c.bufs.ledger.window == z.c.bufs.ledger.window && B.Owed(y.c.bufs, 0) + g == B.Owed(z.c.bufs, 0)
    requires Weigh(y.up, IsData) == Weigh(z.up, IsData) && Weigh(y.up, ConnCredit) == Weigh(z.up, ConnCredit) + g
    requires y.down == z.down && y.lostUp == z.lostUp && y.lostDown == z.lostDown && y.refunded == z.refunded
    ensures Ends(y) && Conserved(y)
  {
  }

  /** The same on the server's side: what it owes becomes a grant, or is lost with a stopped server. */
  lemma MovedUp(z: System, y: System, g: nat)
    requires Ends(z) && Conserved(z)
    requires y.c == z.c && y.s.known == z.s.known && y.s.out.conn == z.s.out.conn
    requires !z.s.known ==> y.s.out.txs == map[]
    requires S.Held(y.s.out) == S.Held(z.s.out) && Half(y.s.out, y.s.bufs) && NoOrphans(y.s.out)
    requires y.s.bufs.ledger.window == z.s.bufs.ledger.window && B.Owed(y.s.bufs, 0) + g == B.Owed(z.s.bufs, 0)
    requires Weigh(y.down, IsData) == Weigh(z.down, IsData)
    requires Weigh(y.down, ConnCredit) + y.lostUp == Weigh(z.down, ConnCredit) + z.lostUp + g
    requires y.up == z.up && y.lostDown == z.lostDown && y.refunded == z.refunded
    ensures Ends(y) && Conserved(y)
  {
  }

  lemma ClientTakeStep(z: System, sid: nat)
    requires Ends(z) && Conserved(z)
    ensures Ends(Next(z, ClientTake(sid))) && Conserved(Next(z, ClientTake(sid)))
  {
    S.TakeKeeps(z.c.out, sid);
  }

  lemma ClientUndoStep(z: System, sid: nat)
    requires Ends(z) && Conserved(z)
    ensures Ends(Next(z, ClientUndo(sid))) && Conserved(Next(z, ClientUndo(sid)))
  {
    S.PutBackKeeps(z.c.out, sid);
  }

  lemma ClientSendStep(z: System, sid: nat)
    requires Ends(z) && Conserved(z)
    ensures Ends(Next(z, ClientSend(sid))) && Conserved(Next(z, ClientSend(sid)))
  {
    S.SpendKeeps(z.c.out, sid);
    Adds(z.up, Data(sid));
  }

  lemma ServerTakeStep(z: System, sid: nat)
    requires Ends(z) && Conserved(z)
    ensures Ends(Next(z, ServerTake(sid))) && Conserved(Next(z, ServerTake(sid)))
  {
    S.TakeKeeps(z.s.out, sid);
  }

  lemma ServerUndoStep(z: System, sid: nat)
    requires Ends(z) && Conserved(z)
    ensures Ends(Next(z, ServerUndo(sid))) && Conserved(Next(z, ServerUndo(sid)))
  {
    S.PlainUndoIsGuarded(z.s.out, sid);
    S.PutBackKeeps(z.s.out, sid);
  }

  lemma ServerSendStep(z: System, sid: nat)
    requires Ends(z) && Conserved(z)
    ensures Ends(Next(z, ServerSend(sid))) && Conserved(Next(z, ServerSend(sid)))
  {
    S.SpendKeeps(z.s.out, sid);
    Adds(z.down, Data(sid));
  }

  /** What either side owes fits its window while nothing was given back twice, so a bulk return
      never overflows the ledger. */
  lemma OwedFits(z: System)
    requires Ends(z) && Conserved(z)
    ensures B.Owed(z.c.bufs, 0) + Weigh(z.down, IsData) <= z.c.bufs.ledger.window
    ensures z.refunded == 0 ==> B.Owed(z.s.bufs, 0) + Weigh(z.up, IsData) <= z.s.bufs.ledger.window
  {
  }

  lemma PinFits(o: S.Out, b: B.Bufs, sid: nat)
    requires InStep(o, b) && B.Valid(b) && sid in o.txs
    requires B.Owed(b, 0) <= U32_MAX || b.rxs[K(sid)].pinned == 0
    ensures b.rxs[K(sid)].pinned + b.ledger.Held(0) <= U32_MAX
  {
    OwedIsLedger(o, b);
    SumAtLeast(b.rxs, K(sid), B.PinnedOf);
    assert b.ledger.Held(0) * 2 < b.ledger.window;
  }

  lemma ClientPinFits(z: System, sid: nat)
    requires Ends(z) && Conserved(z) && sid in z.c.out.txs
    ensures z.c.bufs.rxs[K(sid)].pinned + z.c.bufs.ledger.Held(0) <= U32_MAX
  {
    OwedFits(z);
    PinFits(z.c.out, z.c.bufs, sid);
  }

  lemma ServerPinFits(z: System, sid: nat)
    requires Ends(z) && Conserved(z) && sid in z.s.out.txs && (z.refunded > 0 ==> Unpinned(z.s.bufs))
    ensures z.s.bufs.rxs[K(sid)].pinned + z.s.bufs.ledger.Held(0) <= U32_MAX
  {
    OwedFits(z);
    PinFits(z.s.out, z.s.bufs, sid);
  }

  lemma ClientCloseStep(z: System, sid: nat)
    requires Ends(z) && Conserved(z) && ClientLive(z, sid)
    ensures Ends(ClientClose(z, sid)) && Conserved(ClientClose(z, sid))
  {
    var (b, g) := B.Close(z.c.bufs, K(sid));
    ClientPinFits(z, sid);
    CloseHalf(z.c.out, z.c.bufs, sid);
    AddsGrant(z.up, g);
    MovedDown(z, ClientClose(z, sid), g);
  }

  lemma ClientAbortStep(z: System, sid: nat)
    requires Ends(z) && Conserved(z)
    ensures Ends(ClientAborts(z, sid)) && Conserved(ClientAborts(z, sid))
  {
    if ClientLive(z, sid) {
      Adds(z.up, Control(sid));
      ClientCloseStep(z.(up := z.up + [Control(sid)]), sid);
    }
  }

  lemma ClientRecvStep(z: System, sid: nat, delivered: bool)
    requires Ends(z) && Conserved(z)
    ensures Ends(ClientTakes(z, sid, delivered)) && Conserved(ClientTakes(z, sid, delivered))
  {
    var (b, g, sg) := B.Consume(z.c.bufs, K(sid), delivered);
    RecvHalf(z.c.out, z.c.bufs, sid, delivered);
    AddsGrant(z.up, g);
    AddsCredit(PushGrant(z.up, g), sid, sg);
    MovedDown(z, ClientTakes(z, sid, delivered), g);
  }

  lemma ClientOpenStep(z: System, sid: nat, ups: bool, downs: bool, size: u32)
    requires Ends(z) && Conserved(z)
    ensures Ends(Opened(z, sid, ups, downs, size)) && Conserved(Opened(z, sid, ups, downs, size))
  {
    if sid in z.c.waiting && sid !in z.c.out.txs && K(sid) !in z.c.bufs.rxs {
      var y := Opened(z, sid, ups, downs, size);
      OpenHalf(z.c.out, z.c.bufs, sid, y.c.out.txs[sid], ReliableRxSize(size, true));
      Adds(z.up, y.up[|z.up|]);
    }
  }

  /** The client's first lock trades the assumed window for the advertised one without moving any
      credit already spent. */
  lemma ClientLockStep(z: System)
    requires Ends(z) && Conserved(z)
    ensures var y := ClientLocks(z, z.s.bufs.ledger.window); Ends(y) && Conserved(y)
  {
    RestampConn(z.c.out, z.c.bufs, z.c.out.conn.Observe(z.s.bufs.ledger.window));
  }

  /** Adopting the stream window: a sender still on the W_INIT assumption may only see a window at
      least that large. */
  lemma ClientAdoptStep(z: System, sid: nat, w: nat)
    requires Ends(z) && Conserved(z)
    requires ClientLive(z, sid) && !z.c.out.txs[sid].tx.observed && z.c.out.txs[sid].sends ==>
               w >= W_INIT >= z.c.out.txs[sid].tx.granted
    ensures Ends(ClientAdopts(z, sid, w)) && Conserved(ClientAdopts(z, sid, w))
  {
    if ClientLive(z, sid) {
      assert S.ValidTx(z.c.out.txs[sid]);
      RestampHalf(z.c.out, z.c.bufs, sid, z.c.out.txs[sid].tx.Observe(w));
    }
  }

  lemma HearHeadStep(z: System, sid: nat, w: nat)
    requires Ends(z) && Conserved(z)
    requires ClientLive(z, sid) && !z.c.out.txs[sid].tx.observed && z.c.out.txs[sid].sends ==>
               w >= W_INIT >= z.c.out.txs[sid].tx.granted
    ensures var y := HearHead(z, sid, w, z.s.bufs.ledger.window); Ends(y) && Conserved(y)
  {
    ClientLockStep(z);
    var y := ClientLocks(z, z.s.bufs.ledger.window);
    ClientAdoptStep(y, sid, w);
    Adds(y.up, Reset(sid));
  }

  lemma HearTermStep(z: System, sid: nat)
    requires Ends(z) && Conserved(z)
    ensures var y := HearTerm(z, sid, z.s.bufs.ledger.window); Ends(y) && Conserved(y)
  {
    ClientLockStep(z);
    var y := ClientLocks(z, z.s.bufs.ledger.window);
    if ClientLive(y, sid) {
      TermEnds(y, sid);
    } else {
      Adds(y.up, Reset(sid));
    }
  }

  lemma TermEnds(y: System, sid: nat)
    requires Ends(y) && Conserved(y) && ClientLive(y, sid)
    ensures var w := ClientClose(ClientAdopts(y, sid, 0), sid); Ends(w) && Conserved(w)
  {
    var (b, g) := B.Close(y.c.bufs, K(sid));
    ClientPinFits(y, sid);
    TermHalf(y.c.out, y.c.bufs, sid);
    AddsGrant(y.up, g);
    MovedDown(y, ClientClose(ClientAdopts(y, sid, 0), sid), g);
  }

  lemma HearDataStep(z: System, sid: nat, ok: bool)
    requires Ends(z) && Conserved(z) && z.down != [] && z.down[0] == Data(sid)
    requires z.c.locked
    requires ClientLive(z, sid) ==> z.c.out.txs[sid].tx.observed || !z.c.out.txs[sid].sends
    ensures Ends(ClientHears(z, ok)) && Conserved(ClientHears(z, ok))
  {
    ClientAdoptStep(z, sid, 0);
    var x := if ok then ClientAdopts(z, sid, 0) else z;
    ArriveHalf(x.c.out, z.c.bufs, sid, ok);
    var g := B.Arrive(z.c.bufs, K(sid), ok).1;
    AddsGrant(z.up, g);
    Adds(PushGrant(z.up, g), Reset(sid));
  }

  lemma HearWindowStep(z: System, sid: nat, n: nat)
    requires Ends(z) && Conserved(z)
    requires ClientLive(z, sid) && z.c.out.txs[sid].sends ==> z.c.out.txs[sid].tx.granted <= MAX_SAFE
    ensures Ends(HearWindow(z, sid, n)) && Conserved(HearWindow(z, sid, n))
  {
    if ClientLive(z, sid) {
      assert S.ValidTx(z.c.out.txs[sid]);
      RestampHalf(z.c.out, z.c.bufs, sid, z.c.out.txs[sid].tx.Grant(n));
    }
  }

  lemma HearConnWindowStep(z: System, ok: bool)
    requires Ends(z) && Conserved(z) && z.down != [] && z.down[0].ConnWindow?
    ensures Ends(ClientHears(z, ok)) && Conserved(ClientHears(z, ok))
  {
    RestampConn(z.c.out, z.c.bufs, z.c.out.conn.Grant(z.down[0].n));
  }

  /** Taking a call's whole spend back moves it from spent to refunded. */
  lemma TakeBackStep(y: System, sid: nat)
    requires Ends(y) && Conserved(y) && sid in y.c.out.txs && !y.c.out.txs[sid].live
    ensures var x := y.(c := y.c.(out := S.TakeBack(y.c.out, sid)),
                        refunded := y.refunded + Max(0, y.c.out.txs[sid].tx.sent - y.c.out.txs[sid].held));
            Ends(x) && Conserved(x)
  {
    S.DrainTakesAllOnce(y.c.out, sid);
  }

  lemma HearResetStep(z: System, sid: nat)
    requires Ends(z) && Conserved(z)
    ensures Ends(HearReset(z, sid)) && Conserved(HearReset(z, sid))
  {
    if ClientLive(z, sid) {
      ClientAbortStep(z, sid);
      if !z.c.locked { TakeBackStep(ClientAborts(z, sid), sid); }
    }
  }

  // ------------------------------------------------------------------
  // the server's events
  // ------------------------------------------------------------------

  lemma ServerGrantStep(z: System, g: nat)
    ensures var y := ServerGrant(z, g);
            && Weigh(y.down, ConnCredit) + y.lostUp == Weigh(z.down, ConnCredit) + z.lostUp + g
            && Weigh(y.down, IsData) == Weigh(z.down, IsData)
  {
    AddsGrant(z.down, g);
  }

  lemma ServerRecvStep(z: System, sid: nat, delivered: bool)
    requires Ends(z) && Conserved(z)
    ensures Ends(ServerTakes(z, sid, delivered)) && Conserved(ServerTakes(z, sid, delivered))
  {
    var (b, g, sg) := B.Consume(z.s.bufs, K(sid), delivered);
    RecvHalf(z.s.out, z.s.bufs, sid, delivered);
    var y := z.(s := z.s.(bufs := b));
    ServerGrantStep(y, g);
    AddsCredit(ServerGrant(y, g).down, sid, sg);
    MovedUp(z, ServerTakes(z, sid, delivered), g);
  }

  lemma FinishStep(z: System, sid: nat, term: bool)
    requires Ends(z) && Conserved(z)
    ensures Ends(Finished(z, sid, term)) && Conserved(Finished(z, sid, term))
  {
    if ServerLive(z, sid) {
      CloseHalf(z.s.out, z.s.bufs, sid);
      Adds(z.down, Term(sid, z.s.bufs.ledger.window));
      var y := if term then z.(s := z.s.(acked := true), down := z.down + [Term(sid, z.s.bufs.ledger.window)]) else z;
      var (b, g) := B.Close(y.s.bufs, K(sid));
      var n := B.Spill(y.s.bufs, K(sid));
      ServerGrantStep(y.(s := y.s.(out := S.End(y.s.out, sid), bufs := b), lostUp := y.lostUp + n), g);
      MovedUp(z, Finished(z, sid, term), g + n);
    }
  }

  lemma FlushStep(z: System, sid: nat)
    requires Ends(z) && Conserved(z)
    ensures Ends(Flushed(z, sid)) && Conserved(Flushed(z, sid))
  {
    Adds(z.down, Head(sid, 0, z.s.bufs.ledger.window));
  }

  lemma ContainStep(z: System)
    requires Ends(z) && Conserved(z)
    ensures var y := Contained(z, z.c.bufs.ledger.window); Ends(y) && Conserved(y)
  {
    RestampConn(z.s.out, z.s.bufs, z.s.out.conn.Observe(z.c.bufs.ledger.window));
  }

  lemma AdmitStep(z: System, sid: nat, ups: bool, downs: bool, w: nat, size: u32)
    requires Ends(z) && Conserved(z) && sid !in z.s.out.txs && W_INIT <= w
    ensures var y := Admitted(z, sid, ups, downs, w, z.c.bufs.ledger.window, size); Ends(y) && Conserved(y)
  {
    ContainStep(z);
    var y := Contained(z, z.c.bufs.ledger.window);
    OpenHalf(y.s.out, y.s.bufs, sid, S.Tx(downs, FRESH.Observe(w), 0, 0, true), ReliableRxSize(size, true));
    Adds(y.down, Head(sid, ReliableRxSize(size, true), y.s.bufs.ledger.window));
  }

  lemma HearOpenStep(z: System, f: Frame, admit: bool, size: u32)
    requires Ends(z) && Conserved(z) && f.Open? && f.window >= W_INIT && f.connWindow == z.c.bufs.ledger.window
    requires f.sid !in z.s.out.txs
    ensures Ends(HearOpen(z, f, admit, size)) && Conserved(HearOpen(z, f, admit, size))
  {
    var y := Noted(z, f.sid);
    MovedUp(z, y, 0);
    Adds(y.down, Reset(f.sid));
    if Late(z, f.sid) || z.s.draining || z.s.stopped {
      MovedUp(y, y.(down := y.down + [Reset(f.sid)]), 0);
    } else if !admit {
      RefuseStep(y, f.sid);
    } else {
      AdmitStep(y, f.sid, f.ups, f.downs, f.window, size);
    }
  }

  lemma RefuseStep(z: System, sid: nat)
    requires Ends(z) && Conserved(z)
    ensures var y := Refused(z, sid, z.c.bufs.ledger.window); Ends(y) && Conserved(y)
  {
    ContainStep(z);
    var y := Contained(z, z.c.bufs.ledger.window);
    Adds(y.down, Term(sid, y.s.bufs.ledger.window));
    MovedUp(y, Refused(z, sid, z.c.bufs.ledger.window), 0);
  }

  /** A data frame off the wire becomes one credit owed, granted or lost. */
  lemma HearClientDataStep(z: System, sid: nat, ok: bool)
    requires Ends(z) && Conserved(z) && z.up != [] && z.up[0] == Data(sid)
    ensures var y := HearClientData(z.(up := z.up[1..]), sid, ok); Ends(y) && Conserved(y)
  {
    var y := z.(up := z.up[1..]);
    if ServerLive(y, sid) {
      BufferedUp(z, sid, ok);
    } else if z.s.known {
      BufferedUp(z, sid, ok);
      var x := ServerBuffers(y, sid, ok);
      Adds(x.down, Reset(sid));
      MovedUp(x, x.(down := x.down + [Reset(sid)]), 0);
    } else {
      Adds(y.down, Reset(sid));
    }
  }

  lemma BufferedUp(z: System, sid: nat, ok: bool)
    requires Ends(z) && Conserved(z) && z.up != [] && z.up[0] == Data(sid)
    ensures var y := ServerBuffers(z.(up := z.up[1..]), sid, ok); Ends(y) && Conserved(y)
  {
    var y := z.(up := z.up[1..]);
    var (b, g) := B.Arrive(y.s.bufs, K(sid), ok);
    ArriveHalf(y.s.out, y.s.bufs, sid, ok);
    ServerGrantStep(y.(s := y.s.(bufs := b)), g);
  }

  lemma HearControlStep(z: System, sid: nat)
    requires Ends(z) && Conserved(z)
    ensures Ends(HearControl(z, sid)) && Conserved(HearControl(z, sid))
  {
    Adds(z.down, Reset(sid));
    MovedUp(z, HearControl(z, sid), 0);
  }

  lemma HearClientWindowStep(z: System, sid: nat, n: nat)
    requires Ends(z) && Conserved(z)
    requires ServerLive(z, sid) ==> z.s.out.txs[sid].tx.granted <= MAX_SAFE
    ensures Ends(HearClientWindow(z, sid, n)) && Conserved(HearClientWindow(z, sid, n))
  {
    if ServerLive(z, sid) {
      assert S.ValidTx(z.s.out.txs[sid]);
      RestampHalf(z.s.out, z.s.bufs, sid, z.s.out.txs[sid].tx.Grant(n));
      MovedUp(z, HearClientWindow(z, sid, n), 0);
    }
  }

  lemma HearClientConnWindowStep(z: System, n: nat)
    requires Ends(z) && Conserved(z) && z.up != [] && z.up[0] == ConnWindow(n)
    ensures var y := HearClientConnWindow(z.(up := z.up[1..]), n); Ends(y) && Conserved(y)
  {
    RestampConn(z.s.out, z.s.bufs, z.s.out.conn.Grant(n));
  }

  /** Taking a frame that carries no connection credit off a channel. */
  lemma Popped(z: System)
    requires Ends(z) && Conserved(z)
    ensures z.up != [] && !z.up[0].Data? && !z.up[0].ConnWindow? ==>
              Ends(z.(up := z.up[1..])) && Conserved(z.(up := z.up[1..]))
    ensures z.down != [] && !z.down[0].Data? && !z.down[0].ConnWindow? ==>
              Ends(z.(down := z.down[1..])) && Conserved(z.(down := z.down[1..]))
  {
  }
}
