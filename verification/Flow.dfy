/** The theorems about every run of the two-endpoint system: connection credit is conserved in both
    directions, neither window is ever overrun, and a sender out of credit is always one retirement
    away from a grant. */
module Flow {
  import opened Sums
  import opened Credit
  import opened Channel
  import opened Duplex
  import opened Conservation
  import opened StreamWindow
  import opened Overtaking
  import opened Order
  import B = Buffers
  import S = Sends

  /** Short of overtaking, credit is lost only to a saturated accumulator or to a draining server, and
      no frame is refused. */
  ghost predicate Losses(z: System)
  {
    && (Straight(z) && !z.s.draining && z.c.out.conn.granted < MAX_SAFE ==> z.lostUp == 0)
    && (z.s.out.conn.granted < MAX_SAFE ==> z.lostDown == 0)
    && z.c.bufs.refused == 0 && (Straight(z) ==> z.s.bufs.refused == 0)
  }

  /** A server that has answered nothing and is not draining owes nothing. */
  ghost predicate Idle(z: System)
  {
    Straight(z) && !z.s.acked && !z.s.draining ==> z.s.bufs.ledger.pending == map[]
  }

  ghost predicate Ordered(z: System) { Leads(z) && Marks(z) && Acks(z, z.down) && Losses(z) && Idle(z) }

  ghost predicate Core(z: System) { Ends(z) && Conserved(z) && Calls(z) && Ordered(z) }

  ghost predicate Inv(z: System) { Core(z) && Track(z) }

  // ------------------------------------------------------------------
  // the client's own events
  // ------------------------------------------------------------------

  /** An event of the client that hears nothing. */
  lemma ClientOrdered(z: System, y: System)
    requires Ordered(z) && Grows(z, y) && Settled(z, y) && y.s == z.s && y.down == z.down
    requires y.c.locked == z.c.locked && y.c.out.conn.granted == z.c.out.conn.granted
             && y.c.bufs.refused == z.c.bufs.refused
    requires y.lostUp == z.lostUp && y.lostDown == z.lostDown && y.refunded == z.refunded
    requires Opens(y, y.up)
    ensures Ordered(y)
  {
    if !Straight(z) { StillOvertaken(z, y); }
    LeadsSame(z, y);
    MarksKept(z, y);
  }

  /** The client's frames other than OPENs do not matter to the order. */
  lemma OpensPushed(z: System, y: System, a: Frame, b: Frame)
    requires Opens(z, z.up) && Grows(z, y)
    requires y.up == z.up || y.up == z.up + [a] || y.up == z.up + [a] + [b]
    requires !IsAck(a) && (a.Open? ==> OpenMatches(y, a) && a.connWindow == y.c.bufs.ledger.window)
    requires !IsAck(b) && !b.Open?
    ensures Opens(y, y.up)
  {
  }

  lemma ClientQuiet(z: System, e: Event)
    requires ByClient(e)
    ensures var y := Next(z, e);
            && y.s == z.s && y.down == z.down && y.c.locked == z.c.locked
            && y.c.out.conn.granted == z.c.out.conn.granted && y.c.bufs.refused == z.c.bufs.refused
            && y.lostUp == z.lostUp && y.lostDown == z.lostDown && y.refunded == z.refunded
  {
  }

  /** What the client puts on the channel: at most two frames, and an OPEN only of its own call. */
  lemma ClientPushes(z: System, e: Event) returns (a: Frame, b: Frame)
    requires ByClient(e)
    ensures var y := Next(z, e);
            && !IsAck(a) && (a.Open? ==> e.ClientOpen? && OpenMatches(y, a) && a.connWindow == y.c.bufs.ledger.window)
            && !IsAck(b) && !b.Open?
            && (y.up == z.up || y.up == z.up + [a] || y.up == z.up + [a] + [b])
  {
    a, b := Reset(0), Reset(0);
    match e
    case ClientOpen(x, _, _, _) =>
      if x in z.c.waiting && x !in z.c.out.txs && K(x) !in z.c.bufs.rxs { a := Next(z, e).up[|z.up|]; }
    case ClientSend(x) => a := Data(x);
    case ClientHalfClose(x) => a := Control(x);
    case ClientAbort(x) => a, b := Control(x), ConnWindow(B.Close(z.c.bufs, K(x)).1);
    case ClientRecv(x, delivered) =>
      var (_, g, sg) := B.Consume(z.c.bufs, K(x), delivered);
      a, b := if g > 0 then ConnWindow(g) else Window(x, sg), Window(x, sg);
    case _ =>
  }

  lemma ClientMoves(z: System, e: Event)
    requires Ends(z) && Conserved(z) && Calls(z)
    requires ByClient(e)
    ensures Ends(Next(z, e)) && Conserved(Next(z, e)) && AllSame(z, Next(z, e))
  {
    match e
    case ClientAlloc => MovedDown(z, Next(z, e), 0); ConnWindowCalls(z, Next(z, e));
    case ClientOpen(x, ups, downs, size) =>
      ClientOpenStep(z, x, ups, downs, size);
      OpenCalls(z, x, ups, downs, size);
    case ClientTake(x) => ClientTakeStep(z, x); ClientTakeCalls(z, x);
    case ClientSend(x) => ClientSendStep(z, x); ClientSendCalls(z, x);
    case ClientUndo(x) => ClientUndoStep(z, x); ClientUndoCalls(z, x);
    case ClientHalfClose(x) => HalfCloseMoves(z, x);
    case ClientAbort(x) => ClientAbortStep(z, x); ClientAbortCalls(z, x);
    case ClientRecv(x, delivered) => ClientRecvStep(z, x, delivered); ClientRecvCalls(z, x, delivered);
  }

  lemma HalfCloseMoves(z: System, x: nat)
    requires Ends(z) && Conserved(z) && Calls(z)
    ensures var y := Next(z, ClientHalfClose(x)); Ends(y) && Conserved(y) && AllSame(z, y)
  {
    if ClientLive(z, x) {
      Adds(z.up, Control(x));
      MovedDown(z, z.(up := z.up + [Control(x)]), 0);
      PlainUpCalls(z, x, Control(x));
    }
  }

  lemma ClientKeepsOrder(z: System, e: Event)
    requires Ordered(z)
    requires ByClient(e)
    ensures Ordered(Next(z, e))
  {
    var y := Next(z, e);
    ClientGrows(z, e);
    ClientQuiet(z, e);
    var a, b := ClientPushes(z, e);
    OpensPushed(z, y, a, b);
    ClientOrdered(z, y);
  }

  lemma ClientInv(z: System, e: Event)
    requires Inv(z)
    requires ByClient(e)
    ensures Core(Next(z, e))
  {
    ClientMoves(z, e);
    AllKept(z, Next(z, e));
    ClientKeepsOrder(z, e);
  }

  // ------------------------------------------------------------------
  // the client hears a frame
  // ------------------------------------------------------------------

  lemma HeardOrdered(z: System, y: System, a: Frame, b: Frame)
    requires Ordered(z) && Grows(z, y) && Settled(z, y) && y.s == z.s && z.down != [] && y.down == z.down[1..]
    requires IsAck(z.down[0]) ==> y.c.locked
    requires y.c.locked ==> z.c.locked || IsAck(z.down[0])
    requires y.refunded > 0 ==> Barren(z) || !Straight(z)
    requires !a.Open? && !IsAck(a) && !b.Open? && !IsAck(b)
             && (y.up == z.up || y.up == z.up + [a] || y.up == z.up + [a] + [b])
    requires Losses(y)
    ensures Ordered(y)
  {
    LeadsPop(z, y);
    OnPop(z, z.down, z.s.acked);
    OpensPushed(z, y, a, b);
    MarksKept(z, y);
    if !Straight(z) { StillOvertaken(z, y); }
  }

  /** A frame other than H or T before the lock is neither data nor, short of a drain or overtaking, a
      grant. */
  lemma BeforeLock(z: System)
    requires Ordered(z) && z.down != [] && !z.c.locked && !IsAck(z.down[0])
    ensures LeadOk(z, z.down[0])
  {
    OnPop(z, z.down, z.s.acked);
  }

  lemma AckKeepsOrder(z: System, ok: bool)
    requires Ordered(z) && ClientConn(z) && z.down != [] && IsAck(z.down[0])
    ensures Ordered(ClientHears(z, ok))
  {
    var (x, y) := (z.down[0].sid, ClientHears(z, ok));
    HearGrows(z, ok);
    HeardOrdered(z, y, if ClientLive(z, x) then ConnWindow(B.Close(z.c.bufs, K(x)).1) else Reset(x), Reset(0));
  }

  lemma AckInv(z: System, ok: bool)
    requires Inv(z) && z.down != [] && IsAck(z.down[0])
    ensures Core(ClientHears(z, ok))
  {
    if z.down[0].Head? { HeadMoves(z, ok); } else { TermMoves(z, ok); }
    AllKept(z, ClientHears(z, ok));
    AckKeepsOrder(z, ok);
  }

  lemma HeadMoves(z: System, ok: bool)
    requires Inv(z) && z.down != [] && z.down[0].Head?
    ensures var y := ClientHears(z, ok); Ends(y) && Conserved(y) && AllSame(z, y)
  {
    var (f, w) := (z.down[0], z.(down := z.down[1..]));
    Popped(z);
    LanePop(z.down, f.sid);
    HeadCalls(z, f.sid, f.window, f.connWindow);
    assert CallOk(ViewOf(z, f.sid));
    HearHeadStep(w, f.sid, f.window);
  }

  lemma TermMoves(z: System, ok: bool)
    requires Inv(z) && z.down != [] && z.down[0].Term?
    ensures var y := ClientHears(z, ok); Ends(y) && Conserved(y) && AllSame(z, y)
  {
    var (f, w) := (z.down[0], z.(down := z.down[1..]));
    Popped(z);
    TermCalls(z, f.sid, f.connWindow);
    HearTermStep(w, f.sid);
  }

  lemma DataKeepsOrder(z: System, ok: bool)
    requires Ordered(z) && z.c.locked && z.down != [] && z.down[0].Data? && ClientHears(z, ok).c.bufs.refused == 0
    ensures Ordered(ClientHears(z, ok))
  {
    var (x, y) := (z.down[0].sid, ClientHears(z, ok));
    HearGrows(z, ok);
    var g := B.Arrive(z.c.bufs, K(x), ok).1;
    HeardOrdered(z, y, if g > 0 then ConnWindow(g) else Reset(x), Reset(x));
  }

  /** The client's buffers have room for a data frame, which only ever comes after the lock. */
  lemma ClientAdmits(z: System, x: nat)
    requires Inv(z) && z.down != [] && z.down[0] == Data(x)
    ensures z.c.locked && z.c.bufs.ledger.Admits()
    ensures ClientLive(z, x) ==> z.c.out.txs[x].tx.observed || !z.c.out.txs[x].sends
  {
    if !z.c.locked { BeforeLock(z); }
    LanePop(z.down, x);
    DataOk(ViewOf(z, x), x, true, LaneOf(z.down[1..], x));
    OwedFits(z);
    OwedIsLedger(z.c.out, z.c.bufs);
  }

  lemma DataInv(z: System, ok: bool)
    requires Inv(z) && z.down != [] && z.down[0].Data?
    ensures Core(ClientHears(z, ok))
  {
    var x := z.down[0].sid;
    ClientAdmits(z, x);
    DataCalls(z, x, ok);
    HearDataStep(z, x, ok);
    AllKept(z, ClientHears(z, ok));
    DataKeepsOrder(z, ok);
  }

  lemma WindowKeepsOrder(z: System, ok: bool)
    requires Ordered(z) && z.down != [] && z.down[0].Window?
    ensures Ordered(ClientHears(z, ok))
  {
    HearGrows(z, ok);
    HeardOrdered(z, ClientHears(z, ok), Reset(0), Reset(0));
  }

  lemma WindowInv(z: System, ok: bool)
    requires Inv(z) && z.down != [] && z.down[0].Window?
    ensures Core(ClientHears(z, ok))
  {
    var f := z.down[0];
    assert CallOk(ViewOf(z, f.sid));
    Popped(z);
    WindowCalls(z, f.sid, f.n);
    HearWindowStep(z.(down := z.down[1..]), f.sid, f.n);
    AllKept(z, ClientHears(z, ok));
    WindowKeepsOrder(z, ok);
  }

  lemma ConnWindowInv(z: System, ok: bool)
    requires Inv(z) && z.down != [] && z.down[0].ConnWindow?
    ensures Core(ClientHears(z, ok))
  {
    var y := ClientHears(z, ok);
    if !z.c.locked { BeforeLock(z); }
    ConnWindowCalls(z, y);
    HearConnWindowStep(z, ok);
    AllKept(z, y);
    HearGrows(z, ok);
    HeardOrdered(z, y, Reset(0), Reset(0));
  }

  /** Before the lock and short of overtaking, a RESET takes back credit only from a server that will
      never count on it. */
  lemma ResetKeepsOrder(z: System, ok: bool)
    requires Ordered(z) && z.down != [] && z.down[0].Reset? && Sound(ViewOf(z, z.down[0].sid))
    ensures Ordered(ClientHears(z, ok))
  {
    var (x, y, w) := (z.down[0].sid, ClientHears(z, ok), z.(down := z.down[1..]));
    if !z.c.locked { BeforeLock(z); }
    HearGrows(z, ok);
    if ClientLive(w, x) { ResetParts(w, x); }
    HeardOrdered(z, y, Control(x), ConnWindow(B.Close(z.c.bufs, K(x)).1));
  }

  lemma ResetInv(z: System, ok: bool)
    requires Inv(z) && z.down != [] && z.down[0].Reset?
    ensures Core(ClientHears(z, ok))
  {
    var x := z.down[0].sid;
    if !z.c.locked { BeforeLock(z); }
    Popped(z);
    ResetCalls(z, x);
    HearResetStep(z.(down := z.down[1..]), x);
    AllKept(z, ClientHears(z, ok));
    ResetKeepsOrder(z, ok);
  }

  lemma HearInv(z: System, ok: bool)
    requires Inv(z)
    ensures Core(ClientHears(z, ok))
  {
    if z.down != [] {
      match z.down[0]
      case Head(_, _, _) => AckInv(z, ok);
      case Term(_, _) => AckInv(z, ok);
      case Data(_) => DataInv(z, ok);
      case Window(_, _) => WindowInv(z, ok);
      case ConnWindow(_) => ConnWindowInv(z, ok);
      case Reset(_) => ResetInv(z, ok);
      case _ => assert false;
    }
  }

  // ------------------------------------------------------------------
  // the server's events
  // ------------------------------------------------------------------

  /** A frame the server may append: an answer, or anything harmless ahead of the first answer. */
  ghost predicate Fit(y: System, acked: bool, x: Frame)
  {
    && !x.Open? && !x.Control? && (IsAck(x) ==> x.connWindow == y.s.bufs.ledger.window)
    && (IsAck(x) || acked || LeadOk(y, x))
  }

  function Plus(ch: seq<Frame>, x: Option<Frame>): seq<Frame> { if x.Some? then ch + [x.value] else ch }

  predicate Acked(x: Option<Frame>) { x.Some? && IsAck(x.value) }

  lemma PushOrdered(z: System, y: System, ch: seq<Frame>, acked: bool, x: Option<Frame>)
    requires LeadsOn(y, ch, acked) && Acks(y, ch) && (x.Some? ==> Fit(y, acked, x.value))
    ensures LeadsOn(y, Plus(ch, x), acked || Acked(x)) && Acks(y, Plus(ch, x))
  {
    if x.Some? { OnPush(y, ch, acked, x.value); }
  }

  lemma ServerPushes(z: System, y: System, a: Option<Frame>, b: Option<Frame>)
    requires Ordered(z) && Grows(z, y) && y.down == Plus(Plus(z.down, a), b)
    requires a.Some? ==> Fit(y, z.s.acked, a.value)
    requires b.Some? ==> Fit(y, z.s.acked || Acked(a), b.value)
    requires y.s.acked == (z.s.acked || Acked(a) || Acked(b))
    ensures Leads(y) && Acks(y, y.down)
  {
    OnGrows(z, y, z.down, z.s.acked);
    PushOrdered(z, y, z.down, z.s.acked, a);
    PushOrdered(z, y, Plus(z.down, a), z.s.acked || Acked(a), b);
  }

  lemma ServerOrdered(z: System, y: System, a: Option<Frame>, b: Option<Frame>)
    requires Ordered(z) && Grows(z, y) && Settled(z, y) && y.c == z.c
    requires y.up == z.up || (z.up != [] && y.up == z.up[1..])
    requires y.down == Plus(Plus(z.down, a), b)
    requires a.Some? ==> Fit(y, z.s.acked, a.value)
    requires b.Some? ==> Fit(y, z.s.acked || Acked(a), b.value)
    requires y.s.acked == (z.s.acked || Acked(a) || Acked(b))
    requires y.refunded == z.refunded && (y.s.stopped ==> y.s.draining) && Losses(y)
    requires y.s.acked || y.s.draining || !Straight(y) || y.s.bufs.ledger.pending == z.s.bufs.ledger.pending
    ensures Ordered(y)
  {
    if !Straight(z) { StillOvertaken(z, y); }
    ServerPushes(z, y, a, b);
    MarksKept(z, y);
  }

  /** Before the first H or T, a RESET for a call the server has seen is harmless. */
  lemma ResetFits(z: System, y: System, x: nat)
    requires Marks(z) && Track(z) && Grows(z, y) && Settled(z, y) && x in z.s.seen
    ensures Fit(y, z.s.acked, Reset(x))
    ensures z.s.acked || z.s.draining || Silent(z, x) || !Straight(z)
  {
    if !z.s.acked && !z.s.draining && Straight(z) { SeenSilent(z, x); }
    if !Straight(z) { StillOvertaken(z, y); }
  }

  lemma ServerSendKeepsOrder(z: System, x: nat)
    requires Ordered(z) && Calls(z)
    ensures Ordered(Next(z, ServerSend(x)))
  {
    ServerGrows(z, ServerSend(x));
    if S.CanSpend(z.s.out, x) {
      assert Sound(ViewOf(z, x));
      ServerOrdered(z, Next(z, ServerSend(x)), Some(Data(x)), None);
    }
  }

  lemma ServerActKeepsOrder(z: System, e: Event)
    requires Ordered(z) && (e.ServerTake? || e.ServerUndo? || e.ServerFlush? || e.ServerDrain? || e.ServerStop?)
    ensures Ordered(Next(z, e))
  {
    ServerGrows(z, e);
    ServerOrdered(z, Next(z, e),
                  if e.ServerFlush? && ServerLive(z, e.sid)
                  then Some(Head(e.sid, 0, z.s.bufs.ledger.window)) else None,
                  None);
  }

  lemma ServerSendMoves(z: System, e: Event)
    requires Ends(z) && Conserved(z) && Calls(z)
    requires ByServer(e)
    ensures Ends(Next(z, e)) && Conserved(Next(z, e)) && AllSame(z, Next(z, e))
  {
    match e
    case ServerTake(x) => ServerTakeStep(z, x); ServerTakeCalls(z, x);
    case ServerSend(x) => ServerSendStep(z, x); ServerSendCalls(z, x);
    case ServerUndo(x) => ServerUndoStep(z, x); ServerUndoCalls(z, x);
    case ServerFlush(x) => FlushStep(z, x); FlushCalls(z, x);
    case ServerDrain => MovedUp(z, Next(z, e), 0); ConnWindowCalls(z, Next(z, e));
    case ServerStop => MovedUp(z, Next(z, e), 0); ConnWindowCalls(z, Next(z, e));
  }

  lemma ServerSendInv(z: System, e: Event)
    requires Inv(z)
    requires ByServer(e)
    ensures Core(Next(z, e))
  {
    ServerSendMoves(z, e);
    AllKept(z, Next(z, e));
    if e.ServerSend? { ServerSendKeepsOrder(z, e.sid); } else { ServerActKeepsOrder(z, e); }
  }

  /** Only a call with client data ever holds anything in the server's buffers. */
  lemma BufferedSends(z: System, x: nat)
    requires Calls(z) && Marks(z) && x in z.s.out.txs && K(x) in z.s.bufs.rxs && z.s.bufs.rxs[K(x)].queued > 0
    ensures z.s.acked
  {
    assert CallOk(ViewOf(z, x));
  }

  lemma BarrenUnpinned(z: System)
    requires Ends(z) && Calls(z) && Barren(z)
    ensures Unpinned(z.s.bufs)
  {
    forall k | k in z.s.bufs.rxs
      ensures z.s.bufs.rxs[k].pinned == 0
    {
      assert k == K(k.sid);
      assert Sound(ViewOf(z, k.sid)) && CallOk(ViewOf(z, k.sid));
    }
  }

  lemma ServerRecvKeepsOrder(z: System, x: nat, delivered: bool)
    requires Ordered(z) && Calls(z)
    ensures Ordered(ServerTakes(z, x, delivered))
  {
    var y := ServerTakes(z, x, delivered);
    var (b, g, sg) := B.Consume(z.s.bufs, K(x), delivered);
    ServerRecvGrows(z, x, delivered);
    assert Sound(ViewOf(z, x));
    if z.s.bufs.ledger != b.ledger || g > 0 { BufferedSends(z, x); }
    ServerOrdered(z, y, if g > 0 && !z.s.stopped then Some(ConnWindow(g)) else None,
                  if sg > 0 then Some(Window(x, sg)) else None);
  }

  lemma ServerRecvInv(z: System, x: nat, delivered: bool)
    requires Inv(z)
    ensures Core(ServerTakes(z, x, delivered))
  {
    ServerRecvStep(z, x, delivered);
    ServerRecvCalls(z, x, delivered);
    AllKept(z, ServerTakes(z, x, delivered));
    ServerRecvKeepsOrder(z, x, delivered);
  }

  lemma NothingSpills(z: System, x: nat)
    requires Marks(z) && Calls(z) && Ends(z) && Conserved(z) && Straight(z) && ServerLive(z, x)
    ensures B.Spill(z.s.bufs, K(x)) == 0
  {
    if z.refunded > 0 { BarrenUnpinned(z); }
    ServerPinFits(z, x);
  }

  lemma FinishLosses(z: System, x: nat, term: bool)
    requires Losses(z) && Marks(z) && Calls(z) && Ends(z) && Conserved(z) && ServerLive(z, x)
    ensures Losses(Finished(z, x, term))
  {
    FinishParts(z, x, term);
    if Straight(z) { NothingSpills(z, x); }
  }

  /** A call that ends without an answer before it owes nothing. */
  lemma FinishQuiet(z: System, x: nat)
    requires Marks(z) && Calls(z) && ServerLive(z, x)
    ensures z.s.acked || (B.Close(z.s.bufs, K(x)).1 == 0 && B.Close(z.s.bufs, K(x)).0.ledger == z.s.bufs.ledger)
  {
    assert Sound(ViewOf(z, x));
    if z.s.bufs.rxs[K(x)].pinned > 0 { BufferedSends(z, x); }
  }

  lemma FinishDown(z: System, x: nat, term: bool)
    requires ServerLive(z, x)
    ensures var (y, g) := (Finished(z, x, term), B.Close(z.s.bufs, K(x)).1);
            && y.up == z.up && y.refunded == z.refunded
            && y.down == Plus(Plus(z.down, if term then Some(Term(x, z.s.bufs.ledger.window)) else None),
                              if g > 0 && !z.s.stopped then Some(ConnWindow(g)) else None)
  {
  }

  lemma FinishKeepsOrder(z: System, x: nat, term: bool)
    requires Ordered(z) && Calls(z) && Ends(z) && Conserved(z)
    ensures Ordered(Finished(z, x, term))
  {
    if ServerLive(z, x) {
      var g := B.Close(z.s.bufs, K(x)).1;
      FinishGrows(z, x, term);
      FinishParts(z, x, term);
      FinishDown(z, x, term);
      FinishLosses(z, x, term);
      FinishQuiet(z, x);
      ServerOrdered(z, Finished(z, x, term), if term then Some(Term(x, z.s.bufs.ledger.window)) else None,
                    if g > 0 && !z.s.stopped then Some(ConnWindow(g)) else None);
    }
  }

  lemma FinishInv(z: System, x: nat, term: bool)
    requires Inv(z)
    ensures Core(Finished(z, x, term))
  {
    FinishStep(z, x, term);
    FinishCalls(z, x, term);
    AllKept(z, Finished(z, x, term));
    FinishKeepsOrder(z, x, term);
  }

  // ------------------------------------------------------------------
  // the server hears a frame
  // ------------------------------------------------------------------

  lemma DataDown(z: System, x: nat, ok: bool)
    ensures var y := HearClientData(z, x, ok);
            var g := if ServerLive(z, x) || z.s.known then B.Arrive(z.s.bufs, K(x), ok).1 else 0;
            && y.up == z.up && y.c == z.c && y.refunded == z.refunded && y.lostDown == z.lostDown
            && y.s == z.s.(bufs := y.s.bufs)
            && (!z.s.stopped && (ServerLive(z, x) || z.s.known) ==> y.lostUp == z.lostUp)
            && y.down == Plus(Plus(z.down, if g > 0 && !z.s.stopped then Some(ConnWindow(g)) else None),
                              if ServerLive(z, x) then None else Some(Reset(x)))
  {
  }

  /** Data only comes from a call the server has seen, of a client it knows. */
  lemma DataSeen(z: System, x: nat)
    requires Marks(z) && Calls(z) && z.up != [] && z.up[0] == Data(x)
    ensures x in z.s.seen && (z.s.draining || z.s.known) && !Silent(z, x)
  {
    LanePop(z.up, x);
    ClientDataOk(ViewOf(z, x), x, true, LaneOf(z.up[1..], x));
  }

  lemma DataLosses(z: System, x: nat, ok: bool)
    requires Losses(z) && Marks(z) && Calls(z) && z.up != [] && z.up[0] == Data(x)
    requires Straight(z) && ServerLive(z, x) ==> z.s.bufs.ledger.Admits()
    ensures Losses(HearClientData(z.(up := z.up[1..]), x, ok))
  {
    DataSeen(z, x);
    ClientDataCalls(z, x, ok);
    DataDown(z.(up := z.up[1..]), x, ok);
  }

  lemma ClientDataKeepsOrder(z: System, x: nat, ok: bool)
    requires Ordered(z) && Calls(z) && Track(z) && z.up != [] && z.up[0] == Data(x)
    requires Straight(z) && ServerLive(z, x) ==> z.s.bufs.ledger.Admits()
    ensures Ordered(HearClientData(z.(up := z.up[1..]), x, ok))
  {
    var w := z.(up := z.up[1..]);
    var y := HearClientData(w, x, ok);
    DataSeen(z, x);
    DataLosses(z, x, ok);
    DataDown(w, x, ok);
    ServerDataGrows(w, x, ok);
    ResetFits(z, y, x);
    var g := if ServerLive(z, x) || z.s.known then B.Arrive(z.s.bufs, K(x), ok).1 else 0;
    ServerOrdered(z, y, if g > 0 && !z.s.stopped then Some(ConnWindow(g)) else None,
                  if ServerLive(z, x) then None else Some(Reset(x)));
  }

  /** The server's buffers have room for a data frame of a running call. */
  lemma ServerAdmits(z: System, x: nat)
    requires Inv(z) && Straight(z) && z.up != [] && z.up[0] == Data(x) && ServerLive(z, x)
    ensures z.s.bufs.ledger.Admits()
  {
    LanePop(z.up, x);
    assert CallOk(ViewOf(z, x));
    OwedFits(z);
    OwedIsLedger(z.s.out, z.s.bufs);
  }

  lemma ClientDataInv(z: System, x: nat, ok: bool)
    requires Inv(z) && z.up != [] && z.up[0] == Data(x)
    ensures Core(HearClientData(z.(up := z.up[1..]), x, ok))
  {
    if Straight(z) && ServerLive(z, x) { ServerAdmits(z, x); }
    HearClientDataStep(z, x, ok);
    ClientDataCalls(z, x, ok);
    AllKept(z, HearClientData(z.(up := z.up[1..]), x, ok));
    ClientDataKeepsOrder(z, x, ok);
  }

  lemma ControlKeepsOrder(z: System, x: nat)
    requires Ordered(z) && Track(z) && z.up != [] && z.up[0] == Control(x) && x in z.s.seen
    ensures Ordered(HearControl(z.(up := z.up[1..]), x))
  {
    var y := HearControl(z.(up := z.up[1..]), x);
    ResetFits(z, y, x);
    ServerOrdered(z, y, if ServerLive(z, x) then None else Some(Reset(x)), None);
  }

  lemma ControlInv(z: System, x: nat)
    requires Inv(z) && z.up != [] && z.up[0] == Control(x)
    ensures Core(HearControl(z.(up := z.up[1..]), x))
  {
    var w := z.(up := z.up[1..]);
    Popped(z);
    HearControlStep(w, x);
    ControlCalls(z, x);
    AllKept(z, HearControl(w, x));
    LanePop(z.up, x);
    ControlHeardOk(ViewOf(z, x), x, Control(x), LaneOf(w.up, x));
    ControlKeepsOrder(z, x);
  }

  lemma ResetHeardInv(z: System, x: nat)
    requires Inv(z) && z.up != [] && z.up[0] == Reset(x)
    ensures Core(z.(up := z.up[1..]))
  {
    Popped(z);
    ResetHeardCalls(z, x);
    AllKept(z, z.(up := z.up[1..]));
    ServerOrdered(z, z.(up := z.up[1..]), None, None);
  }

  lemma ClientWindowGrows(z: System, y: System, x: nat, n: nat)
    requires z.up != [] && y == HearClientWindow(z.(up := z.up[1..]), x, n)
    ensures Grows(z, y) && Settled(z, y)
  {
  }

  lemma ClientWindowKeepsOrder(z: System, x: nat, n: nat)
    requires Ordered(z) && z.up != [] && z.up[0] == Window(x, n)
    ensures Ordered(HearClientWindow(z.(up := z.up[1..]), x, n))
  {
    var y := HearClientWindow(z.(up := z.up[1..]), x, n);
    ClientWindowGrows(z, y, x, n);
    ServerOrdered(z, y, None, None);
  }

  lemma ClientWindowInv(z: System, x: nat, n: nat)
    requires Inv(z) && z.up != [] && z.up[0] == Window(x, n)
    ensures Core(HearClientWindow(z.(up := z.up[1..]), x, n))
  {
    var w := z.(up := z.up[1..]);
    Popped(z);
    assert CallOk(ViewOf(z, x));
    HearClientWindowStep(w, x, n);
    ClientWindowCalls(z, x, n);
    AllKept(z, HearClientWindow(w, x, n));
    ClientWindowKeepsOrder(z, x, n);
  }

  lemma ClientConnWindowKeepsOrder(z: System, n: nat)
    requires Ordered(z) && ServerConn(z) && z.up != [] && z.up[0] == ConnWindow(n) && (n > 0 ==> z.s.known)
    ensures Ordered(HearClientConnWindow(z.(up := z.up[1..]), n))
  {
    ServerOrdered(z, HearClientConnWindow(z.(up := z.up[1..]), n), None, None);
  }

  /** A connection grant only ever reaches a server that knows the client. */
  lemma ClientConnWindowInv(z: System, n: nat)
    requires Inv(z) && z.up != [] && z.up[0] == ConnWindow(n)
    ensures Core(HearClientConnWindow(z.(up := z.up[1..]), n))
  {
    var w := z.(up := z.up[1..]);
    HearClientConnWindowStep(z, n);
    ConnWindowCalls(z, HearClientConnWindow(w, n));
    AllKept(z, HearClientConnWindow(w, n));
    ClientConnWindowKeepsOrder(z, n);
  }

  /** An OPEN that is answered, not admitted. */
  lemma AnswerKeepsOrder(z: System, y: System, f: Frame, x: Frame)
    requires Ordered(z) && ServerConn(z) && (z.lostDown > 0 ==> z.s.known)
    requires z.up != [] && z.up[0] == f && f.Open? && y.c == z.c && y.up == z.up[1..] && y.down == z.down + [x]
    requires y.s == z.s.(seen := z.s.seen + {f.sid}, heard := z.s.heard + 1, acked := z.s.acked || x.Term?,
                         known := y.s.known, out := z.s.out.(conn := y.s.out.conn))
    requires f.sid !in z.s.out.txs
    requires y.lostUp == z.lostUp && y.lostDown == z.lostDown && y.refunded == z.refunded
    requires if x.Term? then x.connWindow == z.s.bufs.ledger.window && y.s.known
             else && x == Reset(f.sid) && y.s.known == z.s.known && y.s.out == z.s.out
                  && (z.s.draining || (z.s.known && (z.s.acked || !f.ups || !Straight(z))))
    requires y.s.out.conn == z.s.out.conn || !z.s.known
    ensures Ordered(y)
  {
    ServerPushes(z, y, Some(x), None);
  }

  lemma AdmitKeepsOrder(z: System, f: Frame, size: u32)
    requires Ordered(z) && ServerConn(z) && (z.lostDown > 0 ==> z.s.known) && !z.s.draining
    requires z.up != [] && z.up[0] == f && f.Open? && f.sid !in z.s.seen
    ensures Ordered(Admitted(Noted(z.(up := z.up[1..]), f.sid), f.sid, f.ups, f.downs, f.window, f.connWindow, size))
  {
    var y := Admitted(Noted(z.(up := z.up[1..]), f.sid), f.sid, f.ups, f.downs, f.window, f.connWindow, size);
    assert OpenMatches(z, f);
    ServerPushes(z, y,
                 if f.ups || f.downs
                 then Some(Head(f.sid, ReliableRxSize(size, true), z.s.bufs.ledger.window)) else None,
                 None);
  }

  /** The OPEN next to be heard is the next one that left. */
  lemma NextOpen(z: System, f: Frame)
    requires Track(z) && !z.c.locked && z.up != [] && z.up[0] == f && f.Open?
    ensures z.s.heard < |z.c.left| && z.c.left[z.s.heard] == Shape(f.sid, f.ups, f.downs) && f.sid > 0
    ensures OpensIn(z.up[1..]) == z.c.left[z.s.heard + 1..]
  {
    var rest := z.c.left[z.s.heard..];
    assert rest == [Shape(f.sid, f.ups, f.downs)] + OpensIn(z.up[1..]);
    assert rest[0] == z.c.left[z.s.heard] && rest[1..] == z.c.left[z.s.heard + 1..];
    assert OfCall(z.c, z.c.left[z.s.heard]);
  }

  /** An OPEN found late before any answer was overtaken by a unary one. */
  lemma LateHeard(z: System, f: Frame)
    requires Track(z) && !z.c.locked && !z.s.acked && !z.s.draining
             && z.up != [] && z.up[0] == f && f.Open? && Late(z, f.sid)
    ensures Followed(z.c.left, z.s.heard, z.s.hwm) && z.s.heard < |z.c.left|
    ensures Followed(z.c.left, z.s.heard + 1, z.s.hwm) && (f.ups ==> !Straight(z))
  {
    NextOpen(z, f);
    LateIsBeaten(z.c.left, z.s.heard, z.s.hwm);
  }

  lemma HearOpenKeepsOrder(z: System, f: Frame, admit: bool, size: u32)
    requires Ordered(z) && Track(z) && ServerConn(z) && (z.lostDown > 0 ==> z.s.known)
    requires z.up != [] && z.up[0] == f && f.Open? && f.sid !in z.s.seen && f.sid !in z.s.out.txs
    ensures Ordered(HearOpen(z.(up := z.up[1..]), f, admit, size))
  {
    var y := HearOpen(z.(up := z.up[1..]), f, admit, size);
    if Late(z, f.sid) || z.s.draining || z.s.stopped {
      if !z.s.acked && !z.s.draining { LateHeard(z, f); }
      AnswerKeepsOrder(z, y, f, Reset(f.sid));
    } else if !admit {
      AnswerKeepsOrder(z, y, f, Term(f.sid, z.s.bufs.ledger.window));
    } else {
      AdmitKeepsOrder(z, f, size);
    }
  }

  lemma OpenInv(z: System, f: Frame, admit: bool, size: u32)
    requires Inv(z) && z.up != [] && z.up[0] == f && f.Open?
    ensures Core(HearOpen(z.(up := z.up[1..]), f, admit, size))
  {
    var w := z.(up := z.up[1..]);
    assert OpenMatches(z, f);
    assert CallOk(ViewOf(z, f.sid));
    Popped(z);
    HearOpenStep(w, f, admit, size);
    HearOpenCalls(z, f, admit, size);
    AllKept(z, HearOpen(w, f, admit, size));
    HearOpenKeepsOrder(z, f, admit, size);
  }

  lemma SmallHearInv(z: System, ok: bool, admit: bool, size: u32)
    requires Inv(z) && z.up != [] && !z.up[0].Open? && !z.up[0].Data?
    ensures Core(ServerHears(z, ok, admit, size))
  {
    match z.up[0]
    case Control(x) => ControlInv(z, x);
    case Window(x, n) => ClientWindowInv(z, x, n);
    case ConnWindow(n) => ClientConnWindowInv(z, n);
    case Reset(x) => ResetHeardInv(z, x);
    case _ => assert false;
  }

  lemma ServerHearInv(z: System, ok: bool, admit: bool, size: u32)
    requires Inv(z)
    ensures Core(ServerHears(z, ok, admit, size))
  {
    if z.up != [] {
      match z.up[0]
      case Open(_, _, _, _, _) => OpenInv(z, z.up[0], admit, size);
      case Data(x) => ClientDataInv(z, x, ok);
      case _ => SmallHearInv(z, ok, admit, size);
    }
  }

  // ------------------------------------------------------------------
  // which OPENs are where
  // ------------------------------------------------------------------

  /** At most two frames without an OPEN change nothing about the OPENs in flight. */
  lemma SameOpens(z: System, y: System, a: Frame, b: Frame)
    requires !a.Open? && !b.Open? && (y.up == z.up || y.up == z.up + [a] || y.up == z.up + [a] + [b])
    ensures OpensIn(y.up) == OpensIn(z.up)
  {
    OpensPush(z.up, a);
    OpensPush(z.up + [a], b);
  }

  lemma OpenKeepsLeft(z: System, y: System, x: Shape)
    requires Numbered(z.c) && Trail(z) && y.s == z.s && y.c.left == z.c.left + [x] && x.sid !in z.c.out.txs
    requires x.sid in y.c.out.txs && y.c.out.txs == z.c.out.txs[x.sid := y.c.out.txs[x.sid]] && OfCall(y.c, x)
    ensures Distinct(y.c.left) && forall k :: 0 <= k < |y.c.left| ==> OfCall(y.c, y.c.left[k])
  {
    forall k | 0 <= k < |y.c.left|
      ensures OfCall(y.c, y.c.left[k]) && (k < |z.c.left| ==> y.c.left[k].sid != x.sid)
    {
      if k < |z.c.left| { assert OfCall(z.c, z.c.left[k]); }
    }
  }

  /** What was heard is where it was. */
  lemma SeenStays(l: seq<Shape>, m: seq<Shape>, n: nat, sid: nat)
    requires l <= m && n <= |l| && exists k :: 0 <= k < n && l[k].sid == sid
    ensures exists k :: 0 <= k < n && m[k].sid == sid
  {
    var k :| 0 <= k < n && l[k].sid == sid;
    assert m[k].sid == sid;
  }

  lemma OpenKeepsTrail(z: System, y: System, x: Shape, f: Frame)
    requires Numbered(z.c) && Trail(z) && y.s == z.s && y.up == z.up + [f] && ShapeIn(f) == [x]
    requires y.c.left == z.c.left + [x] && x.sid !in z.c.out.txs
    requires x.sid in y.c.out.txs && y.c.out.txs == z.c.out.txs[x.sid := y.c.out.txs[x.sid]] && OfCall(y.c, x)
    ensures Trail(y)
  {
    OpensPush(z.up, f);
    assert y.c.left[z.s.heard..] == z.c.left[z.s.heard..] + [x];
    OpenKeepsLeft(z, y, x);
    forall sid | sid in y.s.seen
      ensures exists k :: 0 <= k < y.s.heard && y.c.left[k].sid == sid
    {
      SeenStays(z.c.left, y.c.left, z.s.heard, sid);
    }
    if !z.s.acked && !z.s.draining { FollowedStays(z.c.left, y.c.left, z.s.heard, z.s.hwm); }
  }

  lemma OpenKeepsTrack(z: System, x: nat, ups: bool, downs: bool, size: u32)
    requires Track(z)
    ensures Track(Opened(z, x, ups, downs, size))
  {
    var y := Opened(z, x, ups, downs, size);
    if x in z.c.waiting && x !in z.c.out.txs && K(x) !in z.c.bufs.rxs && !z.c.locked {
      OpenKeepsTrail(z, y, Shape(x, ups, downs), y.up[|z.up|]);
    }
  }

  lemma AllocKeepsTrack(z: System)
    requires Track(z)
    ensures Track(Allocated(z))
  {
    if !z.c.locked { TrailKept(z, Allocated(z)); }
  }

  lemma PlainKeepsTrack(z: System, e: Event)
    requires Track(z) && ByClient(e) && !e.ClientAlloc? && !e.ClientOpen?
    ensures Track(Next(z, e))
  {
    ClientGrows(z, e);
    var a, b := ClientPushes(z, e);
    SameOpens(z, Next(z, e), a, b);
    TrackKept(z, Next(z, e));
  }

  lemma ClientKeepsTrack(z: System, e: Event)
    requires Track(z) && ByClient(e)
    ensures Track(Next(z, e))
  {
    match e
    case ClientAlloc => AllocKeepsTrack(z);
    case ClientOpen(x, ups, downs, size) => OpenKeepsTrack(z, x, ups, downs, size);
    case _ => PlainKeepsTrack(z, e);
  }

  /** What hearing a frame makes the client send: at most two frames, no OPEN. */
  lemma HearPushes(z: System, ok: bool) returns (a: Frame, b: Frame)
    requires z.down != []
    ensures var y := ClientHears(z, ok);
            && !a.Open? && !b.Open? && (y.up == z.up || y.up == z.up + [a] || y.up == z.up + [a] + [b])
            && y.c.left == z.c.left && y.c.next == z.c.next && y.c.waiting == z.c.waiting
            && y.c.out.txs.Keys == z.c.out.txs.Keys
  {
    var (f, w) := (z.down[0], z.(down := z.down[1..]));
    a, b := Reset(0), Reset(0);
    match f
    case Head(x, _, _) => a := Reset(x);
    case Term(x, _) => a := if ClientLive(z, x) then ConnWindow(B.Close(z.c.bufs, K(x)).1) else Reset(x);
    case Data(x) =>
      var g := B.Arrive(z.c.bufs, K(x), ok).1;
      a, b := if g > 0 then ConnWindow(g) else Reset(x), Reset(x);
    case Reset(x) =>
      if ClientLive(w, x) { ResetParts(w, x); }
      a, b := Control(x), ConnWindow(B.Close(z.c.bufs, K(x)).1);
    case _ =>
  }

  lemma HearKeepsTrack(z: System, ok: bool)
    requires Track(z)
    ensures Track(ClientHears(z, ok))
  {
    if z.down != [] {
      var a, b := HearPushes(z, ok);
      SameOpens(z, ClientHears(z, ok), a, b);
      HearGrows(z, ok);
      TrackKept(z, ClientHears(z, ok));
    }
  }

  lemma OpenHeardTrail(z: System, f: Frame, y: System)
    requires Track(z) && !z.c.locked && z.up != [] && z.up[0] == f && f.Open?
    requires y.c == z.c && y.up == z.up[1..] && y.s.seen == z.s.seen + {f.sid} && y.s.heard == z.s.heard + 1
    requires !y.s.acked && !y.s.draining ==>
               !z.s.acked && !z.s.draining && y.s.hwm == if Late(z, f.sid) then z.s.hwm else f.sid
    requires !y.s.acked && !y.s.draining && !Late(z, f.sid) ==> !f.ups && !f.downs
    ensures Trail(y)
  {
    NextOpen(z, f);
    forall sid | sid in y.s.seen
      ensures exists k :: 0 <= k < y.s.heard && y.c.left[k].sid == sid
    {
      if sid in z.s.seen {
        var k :| 0 <= k < z.s.heard && z.c.left[k].sid == sid;
        assert y.c.left[k].sid == sid;
      } else {
        assert y.c.left[z.s.heard].sid == sid;
      }
    }
    if !y.s.acked && !y.s.draining {
      if Late(z, f.sid) { LateHeard(z, f); } else { UnaryLeads(z.c.left, z.s.heard, z.s.hwm); }
    }
  }

  lemma OpenHeardTrack(z: System, f: Frame, admit: bool, size: u32)
    requires Track(z) && ServerConn(z) && z.up != [] && z.up[0] == f && f.Open? && (z.s.stopped ==> z.s.draining)
    ensures Track(HearOpen(z.(up := z.up[1..]), f, admit, size))
  {
    if !z.c.locked { OpenHeardTrail(z, f, HearOpen(z.(up := z.up[1..]), f, admit, size)); }
  }

  lemma ServerKeepsTrack(z: System, y: System)
    requires Track(z) && Grows(z, y) && Settled(z, y) && y.c == z.c
    requires y.up == z.up || (z.up != [] && !z.up[0].Open? && y.up == z.up[1..])
    ensures Track(y)
  {
    TrackKept(z, y);
  }

  lemma ServerActTrack(z: System, e: Event)
    requires Track(z) && ByServer(e)
    ensures Track(Next(z, e))
  {
    ServerGrows(z, e);
    ServerKeepsTrack(z, Next(z, e));
  }

  lemma FinishTrack(z: System, x: nat, term: bool)
    requires Track(z)
    ensures Track(Finished(z, x, term))
  {
    if ServerLive(z, x) {
      FinishParts(z, x, term);
      FinishGrows(z, x, term);
      ServerKeepsTrack(z, Finished(z, x, term));
    }
  }

  lemma DataHeardTrack(z: System, x: nat, ok: bool)
    requires Track(z) && z.up != [] && z.up[0] == Data(x)
    ensures Track(HearClientData(z.(up := z.up[1..]), x, ok))
  {
    ServerDataGrows(z.(up := z.up[1..]), x, ok);
    ServerKeepsTrack(z, HearClientData(z.(up := z.up[1..]), x, ok));
  }

  lemma CreditHeardTrack(z: System, x: nat, n: nat)
    requires Track(z) && z.up != [] && z.up[0] == Window(x, n)
    ensures Track(HearClientWindow(z.(up := z.up[1..]), x, n))
  {
    var y := HearClientWindow(z.(up := z.up[1..]), x, n);
    ClientWindowGrows(z, y, x, n);
    ServerKeepsTrack(z, y);
  }

  lemma ServerHearTrack(z: System, ok: bool, admit: bool, size: u32)
    requires Track(z) && ServerConn(z) && (z.s.stopped ==> z.s.draining)
    ensures Track(ServerHears(z, ok, admit, size))
  {
    if z.up != [] {
      match z.up[0]
      case Open(_, _, _, _, _) => OpenHeardTrack(z, z.up[0], admit, size);
      case Data(x) => DataHeardTrack(z, x, ok);
      case Window(x, n) => CreditHeardTrack(z, x, n);
      case _ => ServerKeepsTrack(z, ServerHears(z, ok, admit, size));
    }
  }

  /** An event that hears a frame or takes one out of a buffer at the server. */
  predicate Hearing(e: Event) { e.ClientHear? || e.ServerFinish? || e.ServerRecv? || e.ServerHear? }

  lemma ServerLeaves(z: System, e: Event)
    requires Inv(z) && (e.ServerFinish? || e.ServerRecv?)
    ensures Core(Next(z, e))
  {
    match e
    case ServerFinish(x, term) => FinishInv(z, x, term);
    case ServerRecv(x, delivered) => ServerRecvInv(z, x, delivered);
  }

  lemma HearingCore(z: System, e: Event)
    requires Inv(z) && Hearing(e)
    ensures Core(Next(z, e))
  {
    match e
    case ClientHear(ok) => HearInv(z, ok);
    case ServerHear(ok, admit, size) => ServerHearInv(z, ok, admit, size);
    case _ => ServerLeaves(z, e);
  }

  lemma HearingTrack(z: System, e: Event)
    requires Track(z) && ServerConn(z) && (z.s.stopped ==> z.s.draining) && Hearing(e)
    ensures Track(Next(z, e))
  {
    match e
    case ClientHear(ok) => HearKeepsTrack(z, ok);
    case ServerFinish(x, term) => FinishTrack(z, x, term);
    case ServerRecv(x, delivered) => ServerRecvGrows(z, x, delivered); ServerKeepsTrack(z, Next(z, e));
    case ServerHear(ok, admit, size) => ServerHearTrack(z, ok, admit, size);
  }

  lemma StepTrack(z: System, e: Event)
    requires Track(z) && ServerConn(z) && (z.s.stopped ==> z.s.draining) && !e.ClientStart?
    ensures Track(Next(z, e))
  {
    if Hearing(e) { HearingTrack(z, e); } else if ByServer(e) { ServerActTrack(z, e); } else { ClientKeepsTrack(z, e); }
  }

  lemma StepCore(z: System, e: Event)
    requires Inv(z) && !e.ClientStart?
    ensures Core(Next(z, e))
  {
    if Hearing(e) { HearingCore(z, e); } else if ByServer(e) { ServerSendInv(z, e); } else { ClientInv(z, e); }
  }

  lemma StepInv(z: System, e: Event)
    requires Inv(z)
    ensures Inv(Next(z, e))
    decreases e.ClientStart?
  {
    if e.ClientStart? {
      StepInv(z, ClientAlloc);
      StepInv(Next(z, ClientAlloc), ClientOpen(z.c.next + 1, e.ups, e.downs, e.size));
    } else {
      StepCore(z, e);
      StepTrack(z, e);
    }
  }

  lemma InitInv(clientWindow: nat, serverWindow: nat)
    requires W_CONN <= clientWindow <= U32_MAX && W_CONN <= serverWindow <= U32_MAX
    ensures Inv(Init(clientWindow, serverWindow))
  {
  }

  lemma {:induction false} Invariant(clientWindow: nat, serverWindow: nat, es: seq<Event>)
    requires W_CONN <= clientWindow <= U32_MAX && W_CONN <= serverWindow <= U32_MAX
    ensures Inv(Exec(Init(clientWindow, serverWindow), es))
  {
    if es == [] {
      InitInv(clientWindow, serverWindow);
    } else {
      Invariant(clientWindow, serverWindow, es[..|es| - 1]);
      StepInv(Exec(Init(clientWindow, serverWindow), es[..|es| - 1]), es[|es| - 1]);
    }
  }

  // ------------------------------------------------------------------
  // the theorems
  // ------------------------------------------------------------------

  predicate SameWindows(z: System, y: System)
  {
    y.c.bufs.ledger.window == z.c.bufs.ledger.window && y.s.bufs.ledger.window == z.s.bufs.ledger.window
  }

  lemma StepWindows(z: System, e: Event)
    ensures SameWindows(z, Next(z, e))
  {
    match e
    case ClientStart(_, _, _) =>
    case ClientHear(ok) => HearGrows(z, ok);
    case ServerFinish(x, term) => FinishGrows(z, x, term);
    case ServerRecv(x, delivered) => ServerRecvGrows(z, x, delivered);
    case ServerHear(ok, admit, size) =>
      if z.up != [] && z.up[0].Data? { ServerDataGrows(z.(up := z.up[1..]), z.up[0].sid, ok); }
    case _ =>
      if ByServer(e) {
        ServerGrows(z, e);
      } else {
        ClientGrows(z, e);
      }
  }

  lemma {:induction false} Windows(z: System, es: seq<Event>)
    ensures SameWindows(z, Exec(z, es))
    decreases |es|
  {
    if es != [] {
      Windows(z, es[..|es| - 1]);
      StepWindows(Exec(z, es[..|es| - 1]), es[|es| - 1]);
    }
  }

  /** Connection credit is conserved. In every run, for each direction, the credits a sender spent are
      exactly the ones its unsent frames hold, plus the data frames in flight, plus the frames buffered
      by the receiver, plus the credit it holds back, plus the grants in flight, plus what was granted
      beyond the advertised window; nothing vanishes and nothing comes back twice short of a drain, a
      saturated accumulator or OPENs that overtook one another before the lock. */
  lemma CreditConserved(clientWindow: nat, serverWindow: nat, es: seq<Event>)
    requires W_CONN <= clientWindow <= U32_MAX && W_CONN <= serverWindow <= U32_MAX
    ensures var z := Exec(Init(clientWindow, serverWindow), es);
            && z.c.out.conn.sent + z.refunded
               == S.Held(z.c.out) + Weigh(z.up, IsData) + Sum(z.s.bufs.rxs, B.PinnedOf) + z.s.bufs.ledger.Held(0)
                  + Weigh(z.down, ConnCredit) + Above(z.c.out.conn, serverWindow) + z.lostUp
            && z.s.out.conn.sent
               == S.Held(z.s.out) + Weigh(z.down, IsData) + Sum(z.c.bufs.rxs, B.PinnedOf) + z.c.bufs.ledger.Held(0)
                  + Weigh(z.up, ConnCredit) + Above(z.s.out.conn, clientWindow) + z.lostDown
            && (Straight(z) && !z.s.draining ==> z.refunded == 0)
            && (Straight(z) && !z.s.draining && z.c.out.conn.granted < MAX_SAFE ==> z.lostUp == 0)
            && (z.s.out.conn.granted < MAX_SAFE ==> z.lostDown == 0)
  {
    Invariant(clientWindow, serverWindow, es);
    Windows(Init(clientWindow, serverWindow), es);
    Accounted(Exec(Init(clientWindow, serverWindow), es));
  }

  /** The invariant, read as accounts. */
  lemma Accounted(z: System)
    requires Inv(z)
    ensures z.c.out.conn.sent + z.refunded
            == S.Held(z.c.out) + Weigh(z.up, IsData) + Sum(z.s.bufs.rxs, B.PinnedOf) + z.s.bufs.ledger.Held(0)
               + Weigh(z.down, ConnCredit) + Above(z.c.out.conn, z.s.bufs.ledger.window) + z.lostUp
    ensures z.s.out.conn.sent
            == S.Held(z.s.out) + Weigh(z.down, IsData) + Sum(z.c.bufs.rxs, B.PinnedOf) + z.c.bufs.ledger.Held(0)
               + Weigh(z.up, ConnCredit) + Above(z.s.out.conn, z.c.bufs.ledger.window) + z.lostDown
    ensures Straight(z) && !z.s.draining ==> z.refunded == 0
    ensures Losses(z)
  {
    OwedIsLedger(z.s.out, z.s.bufs);
    OwedIsLedger(z.c.out, z.c.bufs);
  }

  /** Neither window is ever overrun: no endpoint has refused a frame for want of room, and the next
      data frame for a running call finds room in both windows; toward the server's connection window
      as long as no OPENs overtook one another before the lock. */
  lemma NeverOverrun(clientWindow: nat, serverWindow: nat, es: seq<Event>)
    requires W_CONN <= clientWindow <= U32_MAX && W_CONN <= serverWindow <= U32_MAX
    ensures var z := Exec(Init(clientWindow, serverWindow), es);
            && z.c.bufs.refused == 0 && (Straight(z) ==> z.s.bufs.refused == 0)
            && (z.down != [] && z.down[0].Data? && ClientLive(z, z.down[0].sid) ==>
                  && z.c.bufs.ledger.outstanding < clientWindow
                  && z.c.bufs.rxs[K(z.down[0].sid)].queued < z.c.bufs.rxs[K(z.down[0].sid)].win)
            && (z.up != [] && z.up[0].Data? && ServerLive(z, z.up[0].sid) ==>
                  && (Straight(z) ==> z.s.bufs.ledger.outstanding < serverWindow)
                  && z.s.bufs.rxs[K(z.up[0].sid)].queued < z.s.bufs.rxs[K(z.up[0].sid)].win)
  {
    Invariant(clientWindow, serverWindow, es);
    Windows(Init(clientWindow, serverWindow), es);
    var z := Exec(Init(clientWindow, serverWindow), es);
    Accounted(z);
    if z.down != [] && z.down[0].Data? { ClientRoom(z, z.down[0].sid); }
    if z.up != [] && z.up[0].Data? { ServerRoom(z, z.up[0].sid); }
  }

  lemma ClientRoom(z: System, x: nat)
    requires Inv(z) && z.down != [] && z.down[0] == Data(x)
    ensures z.c.bufs.ledger.Admits() && (ClientLive(z, x) ==> z.c.bufs.rxs[K(x)].queued < z.c.bufs.rxs[K(x)].win)
  {
    ClientAdmits(z, x);
    LanePop(z.down, x);
    DataOk(ViewOf(z, x), x, true, LaneOf(z.down[1..], x));
  }

  lemma ServerRoom(z: System, x: nat)
    requires Inv(z) && z.up != [] && z.up[0] == Data(x)
    ensures ServerLive(z, x) ==>
              (Straight(z) ==> z.s.bufs.ledger.Admits()) && z.s.bufs.rxs[K(x)].queued < z.s.bufs.rxs[K(x)].win
  {
    if Straight(z) && ServerLive(z, x) { ServerAdmits(z, x); }
    LanePop(z.up, x);
    ClientDataOk(ViewOf(z, x), x, true, LaneOf(z.up[1..], x));
  }

  /** The connection sender is always charged exactly what the stream senders are. */
  lemma AlwaysPaired(clientWindow: nat, serverWindow: nat, es: seq<Event>)
    requires W_CONN <= clientWindow <= U32_MAX && W_CONN <= serverWindow <= U32_MAX
    ensures var z := Exec(Init(clientWindow, serverWindow), es);
            && z.c.out.conn.sent == Sum(z.c.out.txs, S.SentOf) <= z.c.out.conn.granted
            && z.s.out.conn.sent == Sum(z.s.out.txs, S.SentOf) <= z.s.out.conn.granted
  {
    Invariant(clientWindow, serverWindow, es);
  }

  /** Until the client locks, what reaches it before the first H or T is never data, and a connection
      grant only if the server drains. */
  lemma AckLeads(clientWindow: nat, serverWindow: nat, es: seq<Event>)
    requires W_CONN <= clientWindow <= U32_MAX && W_CONN <= serverWindow <= U32_MAX
    ensures var z := Exec(Init(clientWindow, serverWindow), es);
            z.down != [] && !z.c.locked && !IsAck(z.down[0]) ==>
              !z.down[0].Data? && (z.down[0].ConnWindow? && Straight(z) ==> z.s.draining)
  {
    Invariant(clientWindow, serverWindow, es);
    var z := Exec(Init(clientWindow, serverWindow), es);
    if z.down != [] && !z.c.locked && !IsAck(z.down[0]) { BeforeLock(z); }
  }

  /** With pending + outstanding filling the window, less than half of it is held back, so more than
      half is buffered, and the next frame to leave a buffer triggers a grant. */
  lemma FullWindowGrants(b: B.Bufs, k: B.Key, delivered: bool)
    requires B.Valid(b) && k.epoch == 0 && b.ledger.outstanding + b.ledger.Held(0) >= b.ledger.window
    ensures b.ledger.outstanding * 2 > b.ledger.window
    ensures k in b.rxs && b.rxs[k].pinned > 0 ==> B.Consume(b, k, delivered).1 > 0 && B.Close(b, k).1 > 0
  {
    assert b.ledger.Held(0) * 2 < b.ledger.window;
    if k in b.rxs && b.rxs[k].pinned > 0 {
      SumAtLeast(b.rxs, k, B.PinnedOf);
      var l := b.ledger;
      assert forall n :: l.Leave(n).Held(0) == l.Held(0);
    }
  }

  /** No stall: when the client is out of connection credit and neither data, grants nor a first
      answer are in flight, more than half the server's window sits in its buffers, and whichever
      frame leaves one next, delivered or with its call, makes the server grant at once. */
  lemma ClientUnstuck(clientWindow: nat, serverWindow: nat, es: seq<Event>, x: nat, delivered: bool)
    requires W_CONN <= clientWindow <= U32_MAX && W_CONN <= serverWindow <= U32_MAX
    ensures var z := Exec(Init(clientWindow, serverWindow), es);
            z.c.out.conn.Empty() && S.Held(z.c.out) == 0 && Weigh(z.up, IsData) == 0 && Weigh(z.down, ConnCredit) == 0
            && (z.c.locked || Lead(z.down) == z.down) && Straight(z) && !z.s.draining
            && z.c.out.conn.granted < MAX_SAFE ==>
              && z.s.bufs.ledger.outstanding * 2 > serverWindow
              && (K(x) in z.s.bufs.rxs && z.s.bufs.rxs[K(x)].pinned > 0 ==>
                    B.Consume(z.s.bufs, K(x), delivered).1 > 0 && B.Close(z.s.bufs, K(x)).1 > 0)
  {
    Invariant(clientWindow, serverWindow, es);
    Windows(Init(clientWindow, serverWindow), es);
    var z := Exec(Init(clientWindow, serverWindow), es);
    if z.c.out.conn.Empty() && S.Held(z.c.out) == 0 && Weigh(z.up, IsData) == 0 && Weigh(z.down, ConnCredit) == 0
       && (z.c.locked || Lead(z.down) == z.down) && Straight(z) && !z.s.draining && z.c.out.conn.granted < MAX_SAFE {
      Accounted(z);
      if !z.c.locked { UnansweredOwesNothing(z); }
      FullWindowGrants(z.s.bufs, K(x), delivered);
    }
  }

  lemma UnansweredOwesNothing(z: System)
    requires Inv(z) && !z.c.locked && Lead(z.down) == z.down && Straight(z) && !z.s.draining
    ensures B.Owed(z.s.bufs, 0) == 0
  {
    OwedIsLedger(z.s.out, z.s.bufs);
    forall k | k in z.s.bufs.rxs
      ensures z.s.bufs.rxs[k].pinned == 0
    {
      assert k == K(k.sid);
      assert Sound(ViewOf(z, k.sid)) && CallOk(ViewOf(z, k.sid));
    }
    SumZero(z.s.bufs.rxs, B.PinnedOf);
  }

  lemma ServerUnstuck(clientWindow: nat, serverWindow: nat, es: seq<Event>, x: nat, delivered: bool)
    requires W_CONN <= clientWindow <= U32_MAX && W_CONN <= serverWindow <= U32_MAX
    ensures var z := Exec(Init(clientWindow, serverWindow), es);
            z.s.out.conn.Empty() && S.Held(z.s.out) == 0 && Weigh(z.down, IsData) == 0 && Weigh(z.up, ConnCredit) == 0
            && z.s.out.conn.granted < MAX_SAFE ==>
              && z.c.bufs.ledger.outstanding * 2 > clientWindow
              && (K(x) in z.c.bufs.rxs && z.c.bufs.rxs[K(x)].pinned > 0 ==>
                    B.Consume(z.c.bufs, K(x), delivered).1 > 0 && B.Close(z.c.bufs, K(x)).1 > 0)
  {
    Invariant(clientWindow, serverWindow, es);
    Windows(Init(clientWindow, serverWindow), es);
    var z := Exec(Init(clientWindow, serverWindow), es);
    if z.s.out.conn.Empty() && S.Held(z.s.out) == 0 && Weigh(z.down, IsData) == 0 && Weigh(z.up, ConnCredit) == 0
       && z.s.out.conn.granted < MAX_SAFE {
      OwedIsLedger(z.c.out, z.c.bufs);
      FullWindowGrants(z.c.bufs, K(x), delivered);
    }
  }

  /** The application takes n messages of call k in a row; the sum of the stream grants that go out. */
  function Deliver(b: B.Bufs, k: B.Key, n: nat): (B.Bufs, nat)
  {
    if n == 0 then (b, 0)
    else
      var (b', g) := Deliver(b, k, n - 1);
      var (b'', _, sg) := B.Consume(b', k, true);
      (b'', g + sg)
  }

  lemma {:induction false} DeliverBatches(b: B.Bufs, k: B.Key, n: nat)
    requires B.Live(b, k) && b.rxs[k].queued >= n && b.rxs[k].back * 2 < b.rxs[k].win
    ensures var (b', g) := Deliver(b, k, n);
            && B.Live(b', k) && b'.rxs[k].win == b.rxs[k].win && b'.rxs[k].queued == b.rxs[k].queued - n
            && b'.rxs[k].back * 2 < b.rxs[k].win && b'.rxs[k].back + g == b.rxs[k].back + n
  {
    if n > 0 { DeliverBatches(b, k, n - 1); }
  }

  /** A whole window of call k is here, buffered or batched, and delivering n more messages, at most
      half a window, makes the endpoint grant. */
  predicate HalfAway(b: B.Bufs, k: B.Key)
  {
    && k in b.rxs && b.rxs[k].queued + b.rxs[k].back == b.rxs[k].win
    && var n := (b.rxs[k].win + 1) / 2 - b.rxs[k].back;
       0 < n <= b.rxs[k].queued && Deliver(b, k, n).1 > 0
  }

  lemma FullBufferGrants(b: B.Bufs, k: B.Key)
    requires B.Live(b, k) && B.ValidRx(b.rxs[k]) && b.rxs[k].queued + b.rxs[k].back == b.rxs[k].win
    ensures HalfAway(b, k)
  {
    DeliverBatches(b, k, (b.rxs[k].win + 1) / 2 - b.rxs[k].back);
  }

  /** The running sender t is out of stream credit, holds none, and nothing of call x that could
      change that is in flight, neither data out nor advertisement or credit back; and every message
      that reached r was delivered or still is buffered. */
  predicate Stalled(t: S.Tx, out: seq<Frame>, r: B.Rx, back: seq<Frame>, x: nat)
  {
    && t.sends && t.live && t.tx.Empty() && t.tx.granted < MAX_SAFE && t.held == 0 && r.gone == 0
    && Weigh(out, DataOf(x)) == 0 && Weigh(back, CreditOf(x)) == 0 && First(back, TouchesOf(x)).None?
  }

  lemma UpStall(z: System, x: nat)
    requires Calls(z) && Stalled(TxAt(z.c.out, x), z.up, RxAt(z.s.bufs, x), z.down, x) && ServerLive(z, x)
    ensures HalfAway(z.s.bufs, K(x))
  {
    assert Sound(ViewOf(z, x)) && CallOk(ViewOf(z, x));
    FullBufferGrants(z.s.bufs, K(x));
  }

  lemma DownStall(z: System, x: nat)
    requires Calls(z) && Stalled(TxAt(z.s.out, x), z.down, RxAt(z.c.bufs, x), z.up, x) && ClientLive(z, x)
    ensures HalfAway(z.c.bufs, K(x))
  {
    assert Sound(ViewOf(z, x)) && CallOk(ViewOf(z, x));
    FullBufferGrants(z.c.bufs, K(x));
  }

  /** No stall on one call's window either, in both directions: a running call out of stream credit
      with nothing of it in flight has a full window at the receiver, which grants after at most half
      a window of deliveries. */
  lemma StreamUnstuck(clientWindow: nat, serverWindow: nat, es: seq<Event>, x: nat)
    requires W_CONN <= clientWindow <= U32_MAX && W_CONN <= serverWindow <= U32_MAX
    ensures var z := Exec(Init(clientWindow, serverWindow), es);
            && (Stalled(TxAt(z.c.out, x), z.up, RxAt(z.s.bufs, x), z.down, x) && ServerLive(z, x)
                ==> HalfAway(z.s.bufs, K(x)))
            && (Stalled(TxAt(z.s.out, x), z.down, RxAt(z.c.bufs, x), z.up, x) && ClientLive(z, x)
                ==> HalfAway(z.c.bufs, K(x)))
  {
    Invariant(clientWindow, serverWindow, es);
    var z := Exec(Init(clientWindow, serverWindow), es);
    if Stalled(TxAt(z.c.out, x), z.up, RxAt(z.s.bufs, x), z.down, x) && ServerLive(z, x) { UpStall(z, x); }
    if Stalled(TxAt(z.s.out, x), z.down, RxAt(z.c.bufs, x), z.up, x) && ClientLive(z, x) { DownStall(z, x); }
  }
}
