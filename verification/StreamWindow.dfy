/** Per-call accounting over every run of the two-endpoint system: what one call contributes to both
    endpoints and both channels, and the invariant that keeps its receive buffer from overflowing. */
module StreamWindow {
  import opened Sums
  import opened Credit
  import opened Channel
  import opened Duplex
  import opened Conservation
  import B = Buffers
  import S = Sends

  /** One call's share of a channel: data frames, stream credit and OPENs in flight, the first frame
      naming the call and the first one that would touch its stream sender. */
  datatype Lane = Lane(data: nat, credit: nat, opens: nat, first: Option<Frame>, touch: Option<Frame>)

  function LaneOf(ch: seq<Frame>, sid: nat): Lane
  {
    Lane(Weigh(ch, DataOf(sid)), Weigh(ch, CreditOf(sid)), Weigh(ch, OpenOf(sid)),
         First(ch, NamesOf(sid)), First(ch, TouchesOf(sid)))
  }

  function Or(a: Option<Frame>, b: bool, x: Frame): Option<Frame> { if a.Some? then a else if b then Some(x) else None }

  function Joined(l: Lane, sid: nat, x: Frame): Lane
  {
    Lane(l.data + DataFor(sid, x), l.credit + CreditFor(sid, x), l.opens + OpenFor(sid, x),
         Or(l.first, Names(sid, x), x), Or(l.touch, Touches(sid, x), x))
  }

  lemma LanePush(ch: seq<Frame>, x: Frame, sid: nat)
    ensures LaneOf(ch + [x], sid) == Joined(LaneOf(ch, sid), sid, x)
    ensures !Names(sid, x) ==> LaneOf(ch + [x], sid) == LaneOf(ch, sid)
  {
    WeighPush(ch, x, DataOf(sid));
    WeighPush(ch, x, CreditOf(sid));
    WeighPush(ch, x, OpenOf(sid));
    FirstPush(ch, x, NamesOf(sid));
    FirstPush(ch, x, TouchesOf(sid));
  }

  /** Lane l with its first frame x taken off is lane k. */
  predicate Follows(l: Lane, k: Lane, sid: nat, x: Frame)
  {
    && l.data == k.data + DataFor(sid, x) && l.credit == k.credit + CreditFor(sid, x)
    && l.opens == k.opens + OpenFor(sid, x)
    && (if Names(sid, x) then l.first == Some(x) else k.first == l.first)
    && (if Touches(sid, x) then l.touch == Some(x) else k.touch == l.touch)
  }

  lemma LanePop(ch: seq<Frame>, sid: nat)
    requires ch != []
    ensures Follows(LaneOf(ch, sid), LaneOf(ch[1..], sid), sid, ch[0])
    ensures !Names(sid, ch[0]) ==> LaneOf(ch[1..], sid) == LaneOf(ch, sid)
  {
  }

  /** Everything one call is made of, seen across the whole system. */
  datatype View = View(began: bool, t: S.Tx, rc: B.Rx, admitted: bool, ts: S.Tx, rs: B.Rx, seen: bool,
                       up: Lane, down: Lane)

  const NO_TX := S.Tx(false, FRESH, 0, 0, false)
  const NO_RX := B.Rx(0, 0, 0, true, 0, 0)

  function TxAt(o: S.Out, sid: nat): S.Tx { if sid in o.txs then o.txs[sid] else NO_TX }

  function RxAt(b: B.Bufs, sid: nat): B.Rx { if K(sid) in b.rxs then b.rxs[K(sid)] else NO_RX }

  function ViewOf(z: System, sid: nat): View
  {
    View(sid in z.c.out.txs, TxAt(z.c.out, sid), RxAt(z.c.bufs, sid),
         sid in z.s.out.txs, TxAt(z.s.out, sid), RxAt(z.s.bufs, sid), sid in z.s.seen,
         LaneOf(z.up, sid), LaneOf(z.down, sid))
  }

  /** Credit beyond the window w this sender was advertised. */
  function Extra(s: Sender, w: nat): int { if s.observed then s.granted - w else 0 }

  /** Stream credit of one direction that is out of the sender's hands: held by a send, on the wire,
      in the buffer, waiting to be granted, or on its way back. */
  function Abroad(t: S.Tx, data: nat, r: B.Rx, credit: nat): int
  {
    t.held + data + r.queued + r.back + credit + Extra(t.tx, r.win)
  }

  /** Never more abroad than was sent; exactly that much plus the undelivered, while the sender runs. */
  predicate Room(t: S.Tx, data: nat, r: B.Rx, credit: nat)
  {
    && Abroad(t, data, r, credit) <= t.tx.sent
    && (t.live && t.tx.granted < MAX_SAFE ==> Abroad(t, data, r, credit) + r.gone == t.tx.sent)
  }

  predicate Pristine(v: View)
  {
    && !v.admitted && !v.seen
    && v.up == Lane(0, 0, 0, None, None) && v.down == Lane(0, 0, 0, None, None)
  }

  /** The client-to-server half of a call. */
  predicate UpOk(v: View)
  {
    if !v.t.sends then v.up.data == 0 && (v.admitted ==> v.rs.queued == 0)
    else
      && (!v.t.tx.observed ==> v.t.tx.granted == W_INIT)
      && (!v.seen ==> v.t.orphan == 0 && !v.t.tx.observed && v.t.tx.sent == v.t.held + v.up.data)
      && (v.admitted && !v.rs.released ==>
            && v.t.orphan == 0 && Room(v.t, v.up.data, v.rs, v.down.credit)
            && (v.t.tx.observed ==> v.t.tx.granted >= v.rs.win))
      // The advertisement is the first thing a running sender still on its assumption will hear.
      && (v.t.live && !v.t.tx.observed ==>
            if v.admitted then v.down.touch.Some? && v.down.touch.value.Head? && v.down.touch.value.window == v.rs.win
            else v.down.touch.Some? ==> v.down.touch.value.Term?)
  }

  /** The server-to-client half. */
  predicate DownOk(v: View)
  {
    if !v.admitted then
      v.down.data == 0 && v.rc.queued == 0 && v.rc.back == 0 && v.rc.gone == 0 && v.up.credit == 0
    else
      && v.ts.tx.observed && v.ts.tx.granted >= v.rc.win
      && (!v.ts.sends ==> v.down.data == 0)
      && (!v.rc.released ==> Room(v.ts, v.down.data, v.rc, v.up.credit))
  }

  predicate CallOk(v: View)
  {
    if !v.began then Pristine(v)
    else
      && W_INIT <= v.rc.win <= U32_MAX && (v.admitted ==> v.seen && W_INIT <= v.rs.win <= U32_MAX)
      && (v.t.sends ==> v.t.tx.granted <= MAX_SAFE) && v.ts.tx.granted <= MAX_SAFE
      && v.up.opens == (if v.seen then 0 else 1)
      && (!v.seen ==> v.down == Lane(0, 0, 0, None, None) && v.up.first.Some? && v.up.first.value.Open?)
      && UpOk(v) && DownOk(v)
  }

  /** The two endpoints' own invariants, for one call. */
  predicate Sound(v: View)
  {
    && (v.began ==> S.ValidTx(v.t) && B.ValidRx(v.rc) && (v.t.live <==> !v.rc.released))
    && (v.admitted ==> S.ValidTx(v.ts) && B.ValidRx(v.rs) && (v.ts.live <==> !v.rs.released) && v.ts.orphan == 0)
    && (!v.began ==> v.t == NO_TX && v.rc == NO_RX)
    && (!v.admitted ==> v.ts == NO_TX && v.rs == NO_RX)
  }

  ghost predicate Calls(z: System) { forall sid :: Sound(ViewOf(z, sid)) && CallOk(ViewOf(z, sid)) }

  /** An event that leaves the call as it was, or in a good view. */
  ghost predicate Kept(z: System, y: System, sid: nat)
  {
    ViewOf(y, sid) == ViewOf(z, sid) || CallOk(ViewOf(y, sid))
  }

  lemma EndsSound(z: System, sid: nat)
    requires Ends(z)
    ensures Sound(ViewOf(z, sid))
  {
  }

  lemma AllKept(z: System, y: System)
    requires Calls(z) && Ends(y) && forall sid :: Kept(z, y, sid)
    ensures Calls(y)
  {
    forall sid
      ensures Sound(ViewOf(y, sid)) && CallOk(ViewOf(y, sid))
    {
      assert Kept(z, y, sid) && CallOk(ViewOf(z, sid));
      EndsSound(y, sid);
    }
  }

  // ------------------------------------------------------------------
  // what the client's events do to one call
  // ------------------------------------------------------------------

  /** A send takes its stream credit, puts it on the wire, or gives it back. */
  lemma SendOk(v: View, t': S.Tx, sent: nat)
    requires CallOk(v) && Sound(v) && v.began && v.t.sends
    requires t' == v.t.(tx := v.t.tx.(sent := t'.tx.sent), held := t'.held)
    requires t'.tx.sent - t'.held - sent == v.t.tx.sent - v.t.held
    ensures CallOk(v.(t := t', up := v.up.(data := v.up.data + sent)))
  {
  }

  /** A frame without data or credit joins the client's side of the call. */
  lemma PlainUpOk(v: View, sid: nat, x: Frame)
    requires CallOk(v) && v.began && (x == Control(sid) || (x == Reset(sid) && v.seen))
    ensures CallOk(v.(up := Joined(v.up, sid, x)))
  {
  }

  lemma WindowOk(v: View, sid: nat, n: nat, d: Lane)
    requires CallOk(v) && Sound(v) && Follows(v.down, d, sid, Window(sid, n))
    ensures v.began
    ensures CallOk(v.(down := d, t := if v.t.live then v.t.(tx := v.t.tx.Grant(n)) else v.t))
  {
  }

  lemma HeadOk(v: View, sid: nat, w: nat, cw: nat, d: Lane)
    requires CallOk(v) && Sound(v) && Follows(v.down, d, sid, Head(sid, w, cw))
    ensures v.began && v.seen
    ensures CallOk(v.(down := d, t := if v.t.live then v.t.(tx := v.t.tx.Observe(w)) else v.t))
  {
  }

  lemma EndOk(v: View, rc': B.Rx)
    requires CallOk(v) && Sound(v) && v.began && rc' == v.rc.(released := true, pinned := 0)
    ensures CallOk(v.(t := v.t.(live := false, tx := v.t.tx.Release()), rc := rc'))
  {
  }

  /** A terminal reads as "no window"; a sender still on its assumption only hears one if the call
      was never admitted. */
  lemma TermOk(v: View, sid: nat, cw: nat, d: Lane, rc': B.Rx)
    requires CallOk(v) && Sound(v) && Follows(v.down, d, sid, Term(sid, cw))
    requires rc' == v.rc.(released := true, pinned := 0)
    ensures v.began && v.seen && (!v.t.live ==> CallOk(v.(down := d)))
    ensures v.t.live ==>
              CallOk(v.(down := d, t := v.t.(live := false, tx := v.t.tx.Observe(0).Release()), rc := rc'))
  {
  }

  function Taken(r: B.Rx, ok: bool): B.Rx
  {
    if r.released then r
    else if ok then r.(queued := r.queued + 1, pinned := r.pinned + 1) else r.(gone := r.gone + 1)
  }

  /** A data frame reaches the client: there is room for it, and the stream window is known. */
  lemma DataOk(v: View, sid: nat, ok: bool, d: Lane)
    requires CallOk(v) && Sound(v) && Follows(v.down, d, sid, Data(sid))
    ensures v.began && v.seen && (v.t.live ==> v.rc.queued < v.rc.win && (v.t.sends ==> v.t.tx.observed))
    ensures CallOk(v.(down := d, rc := Taken(v.rc, ok),
                        t := if v.t.live && ok then v.t.(tx := v.t.tx.Observe(0)) else v.t))
  {
  }

  /** A RESET before the lock takes everything back; no server-side buffer counts on it. */
  lemma ResetOk(v: View, sid: nat, d: Lane, rc': B.Rx, drain: bool)
    requires CallOk(v) && Sound(v) && Follows(v.down, d, sid, Reset(sid)) && v.t.live
    requires rc' == v.rc.(released := true, pinned := 0)
    requires drain && v.t.sends ==> !v.admitted
    ensures v.began && v.seen
    ensures CallOk(v.(down := d, rc := rc', up := Joined(v.up, sid, Control(sid)), t := Reaped(v.t, drain)))
  {
  }

  /** The application takes a message: its stream credit goes back, waits, or is forfeit. */
  lemma RecvOk(v: View, r': B.Rx, sid: nat, sg: nat)
    requires CallOk(v) && Sound(v) && v.began && v.rc.queued > 0
    requires r' == v.rc.(queued := v.rc.queued - 1, pinned := r'.pinned, back := r'.back, gone := r'.gone)
    requires r'.back + sg + r'.gone == v.rc.back + v.rc.gone + 1 && r'.gone >= v.rc.gone
    ensures CallOk(v.(rc := r', up := if sg == 0 then v.up else Joined(v.up, sid, Window(sid, sg))))
  {
  }

  // ------------------------------------------------------------------
  // what the server's events do to one call
  // ------------------------------------------------------------------

  lemma ServerSendOk(v: View, sid: nat, t': S.Tx, sent: bool)
    requires CallOk(v) && Sound(v) && v.admitted && v.ts.sends
    requires t' == v.ts.(tx := v.ts.tx.(sent := t'.tx.sent), held := t'.held)
    requires t'.tx.sent - t'.held - (if sent then 1 else 0) == v.ts.tx.sent - v.ts.held
    ensures CallOk(v.(ts := t', down := if sent then Joined(v.down, sid, Data(sid)) else v.down))
  {
  }

  /** An H or a RESET joins the server's side of a call whose OPEN was processed. */
  lemma PlainDownOk(v: View, sid: nat, x: Frame)
    requires CallOk(v) && Sound(v) && v.seen
    requires (x.Head? && x.sid == sid && v.admitted) || x == Reset(sid)
    ensures CallOk(v.(down := Joined(v.down, sid, x)))
  {
  }

  lemma FinishOk(v: View, sid: nat, rs': B.Rx, term: bool, cw: nat)
    requires CallOk(v) && Sound(v) && v.admitted && rs' == v.rs.(released := true, pinned := 0)
    ensures CallOk(v.(ts := v.ts.(live := false, tx := v.ts.tx.Release()), rs := rs',
                      down := if term then Joined(v.down, sid, Term(sid, cw)) else v.down))
  {
  }

  lemma ServerRecvOk(v: View, r': B.Rx, sid: nat, sg: nat)
    requires CallOk(v) && Sound(v) && v.admitted && v.rs.queued > 0
    requires r' == v.rs.(queued := v.rs.queued - 1, pinned := r'.pinned, back := r'.back, gone := r'.gone)
    requires r'.back + sg + r'.gone == v.rs.back + v.rs.gone + 1 && r'.gone >= v.rs.gone
    ensures CallOk(v.(rs := r', down := if sg == 0 then v.down else Joined(v.down, sid, Window(sid, sg))))
  {
  }

  lemma OpenHeardOk(v: View, sid: nat, f: Frame, u: Lane)
    requires CallOk(v) && Sound(v) && f.Open? && f.sid == sid && Follows(v.up, u, sid, f)
    ensures v.began && !v.seen && !v.admitted
    ensures CallOk(v.(up := u, seen := true, down := Joined(v.down, sid, Reset(sid))))
    ensures forall cw :: CallOk(v.(up := u, seen := true, down := Joined(v.down, sid, Term(sid, cw))))
  {
  }

  lemma AdmitOk(v: View, sid: nat, f: Frame, u: Lane, size: u32, cw: nat)
    requires CallOk(v) && Sound(v) && f.Open? && f.sid == sid && Follows(v.up, u, sid, f)
    requires f.window == v.rc.win && f.ups == v.t.sends
    ensures var win := ReliableRxSize(size, true);
            CallOk(v.(up := u, seen := true, admitted := true,
                      ts := S.Tx(f.downs, FRESH.Observe(f.window), 0, 0, true), rs := B.NewRx(win),
                      down := if f.ups || f.downs then Joined(v.down, sid, Head(sid, win, cw)) else v.down))
  {
  }

  lemma ClientDataOk(v: View, sid: nat, ok: bool, u: Lane)
    requires CallOk(v) && Sound(v) && Follows(v.up, u, sid, Data(sid))
    ensures v.began && v.seen && (v.admitted && !v.rs.released ==> v.rs.queued < v.rs.win)
    ensures CallOk(v.(up := u, rs := Taken(v.rs, ok)))
  {
  }

  lemma ControlHeardOk(v: View, sid: nat, x: Frame, u: Lane)
    requires CallOk(v) && Sound(v) && Follows(v.up, u, sid, x) && (x == Control(sid) || x == Reset(sid))
    ensures v.began && v.seen && CallOk(v.(up := u))
  {
  }

  lemma ClientWindowOk(v: View, sid: nat, n: nat, u: Lane)
    requires CallOk(v) && Sound(v) && Follows(v.up, u, sid, Window(sid, n))
    ensures v.began && v.seen
    ensures CallOk(v.(up := u, ts := if v.ts.live then v.ts.(tx := v.ts.tx.Grant(n)) else v.ts))
  {
  }

  // ------------------------------------------------------------------
  // every event keeps every call
  // ------------------------------------------------------------------

  ghost predicate AllSame(z: System, y: System) { forall sid :: Kept(z, y, sid) }

  lemma GrantLane(ch: seq<Frame>, g: nat, sid: nat)
    ensures LaneOf(PushGrant(ch, g), sid) == LaneOf(ch, sid)
  {
    LanePush(ch, ConnWindow(g), sid);
  }

  lemma CreditLane(ch: seq<Frame>, x: nat, g: nat, sid: nat)
    ensures LaneOf(PushCredit(ch, x, g), sid)
            == if g == 0 || sid != x then LaneOf(ch, sid) else Joined(LaneOf(ch, sid), sid, Window(x, g))
  {
    LanePush(ch, Window(x, g), sid);
  }

  lemma OpenCalls(z: System, x: nat, ups: bool, downs: bool, size: u32)
    requires Calls(z)
    ensures AllSame(z, Opened(z, x, ups, downs, size))
  {
    if x in z.c.waiting && x !in z.c.out.txs && K(x) !in z.c.bufs.rxs {
      var y := Opened(z, x, ups, downs, size);
      forall sid
        ensures Kept(z, y, sid)
      {
        LanePush(z.up, y.up[|z.up|], sid);
        assert Sound(ViewOf(z, sid)) && CallOk(ViewOf(z, sid));
      }
    }
  }

  lemma ClientTakeCalls(z: System, x: nat)
    requires Calls(z)
    ensures AllSame(z, Next(z, ClientTake(x)))
  {
    var y := Next(z, ClientTake(x));
    forall sid
      ensures Kept(z, y, sid)
    {
      if sid == x && S.CanTake(z.c.out, x) { SendOk(ViewOf(z, x), y.c.out.txs[x], 0); }
    }
  }

  lemma ClientUndoCalls(z: System, x: nat)
    requires Calls(z)
    ensures AllSame(z, Next(z, ClientUndo(x)))
  {
    var y := Next(z, ClientUndo(x));
    forall sid
      ensures Kept(z, y, sid)
    {
      assert Sound(ViewOf(z, sid)) && CallOk(ViewOf(z, sid));
      if sid == x && S.CanPutBack(z.c.out, x) && z.c.out.txs[x].held > 0 {
        SendOk(ViewOf(z, x), y.c.out.txs[x], 0);
      }
    }
  }

  lemma ClientSendCalls(z: System, x: nat)
    requires Calls(z)
    ensures AllSame(z, Next(z, ClientSend(x)))
  {
    var y := Next(z, ClientSend(x));
    forall sid
      ensures Kept(z, y, sid)
    {
      LanePush(z.up, Data(x), sid);
      if sid == x && S.CanSpend(z.c.out, x) {
        assert Sound(ViewOf(z, sid)) && CallOk(ViewOf(z, sid));
        SendOk(ViewOf(z, x), y.c.out.txs[x], 1); }
    }
  }

  lemma PlainUpCalls(z: System, x: nat, f: Frame)
    requires Calls(z) && x in z.c.out.txs && (f == Control(x) || (f == Reset(x) && x in z.s.seen))
    ensures AllSame(z, z.(up := z.up + [f]))
  {
    forall sid
      ensures Kept(z, z.(up := z.up + [f]), sid)
    {
      LanePush(z.up, f, sid);
      if sid == x { PlainUpOk(ViewOf(z, x), x, f); }
    }
  }

  lemma ClientRecvCalls(z: System, x: nat, delivered: bool)
    requires Calls(z)
    ensures AllSame(z, ClientTakes(z, x, delivered))
  {
    var y := ClientTakes(z, x, delivered);
    var (b, g, sg) := B.Consume(z.c.bufs, K(x), delivered);
    forall sid
      ensures Kept(z, y, sid)
    {
      GrantLane(z.up, g, sid);
      CreditLane(PushGrant(z.up, g), x, sg, sid);
      assert Sound(ViewOf(z, sid));
      if sid == x && K(x) in z.c.bufs.rxs && z.c.bufs.rxs[K(x)].queued > 0 {
        RecvOk(ViewOf(z, x), y.c.bufs.rxs[K(x)], x, sg);
      }
    }
  }

  lemma ClientAbortCalls(z: System, x: nat)
    requires Calls(z)
    ensures AllSame(z, ClientAborts(z, x))
  {
    var y := ClientAborts(z, x);
    forall sid
      ensures Kept(z, y, sid)
    {
      LanePush(z.up, Control(x), sid);
      GrantLane(z.up + [Control(x)], B.Close(z.c.bufs, K(x)).1, sid);
      if sid == x && ClientLive(z, x) {
        EndOk(ViewOf(z, x), y.c.bufs.rxs[K(x)]);
        PlainUpOk(ViewOf(z, x).(t := y.c.out.txs[x], rc := y.c.bufs.rxs[K(x)]), x, Control(x));
      }
    }
  }

  lemma HeadCalls(z: System, x: nat, w: nat, cw: nat)
    requires Calls(z) && z.down != [] && z.down[0] == Head(x, w, cw)
    ensures AllSame(z, HearHead(z.(down := z.down[1..]), x, w, cw))
  {
    var y := HearHead(z.(down := z.down[1..]), x, w, cw);
    forall sid
      ensures Kept(z, y, sid)
    {
      LanePop(z.down, sid);
      LanePush(z.up, Reset(x), sid);
      if sid == x {
        var v := ViewOf(z, x);
        HeadOk(v, x, w, cw, LaneOf(y.down, x));
        if !v.t.live { PlainUpOk(v.(down := LaneOf(y.down, x)), x, Reset(x)); }
      }
    }
  }

  lemma TermCalls(z: System, x: nat, cw: nat)
    requires Calls(z) && z.down != [] && z.down[0] == Term(x, cw)
    ensures AllSame(z, HearTerm(z.(down := z.down[1..]), x, cw))
  {
    var y := HearTerm(z.(down := z.down[1..]), x, cw);
    forall sid
      ensures Kept(z, y, sid)
    {
      LanePop(z.down, sid);
      LanePush(z.up, Reset(x), sid);
      GrantLane(z.up, B.Close(z.c.bufs, K(x)).1, sid);
      if sid == x {
        var v := ViewOf(z, x);
        TermOk(v, x, cw, LaneOf(y.down, x), v.rc.(released := true, pinned := 0));
        if !v.t.live { PlainUpOk(v.(down := LaneOf(y.down, x)), x, Reset(x)); }
      }
    }
  }

  /** What arrives for a running call is buffered if the connection window is not full. */
  lemma Buffered(b: B.Bufs, x: nat, ok: bool, sid: nat)
    requires B.Live(b, K(x)) ==> b.rxs[K(x)].queued < b.rxs[K(x)].win
    ensures RxAt(B.Arrive(b, K(x), ok).0, sid)
            == if sid == x then Taken(RxAt(b, x), ok && b.ledger.Admits()) else RxAt(b, sid)
    ensures !B.Live(b, K(x)) || b.ledger.Admits() ==> B.Arrive(b, K(x), ok).0.refused == b.refused
  {
  }

  lemma DataCalls(z: System, x: nat, ok: bool)
    requires Calls(z) && z.down != [] && z.down[0] == Data(x) && z.c.bufs.ledger.Admits()
    ensures var y := HearData(z.(down := z.down[1..]), x, ok);
            AllSame(z, y) && y.c.bufs.refused == z.c.bufs.refused
  {
    var y := HearData(z.(down := z.down[1..]), x, ok);
    var g := B.Arrive(z.c.bufs, K(x), ok).1;
    var v := ViewOf(z, x);
    var d := LaneOf(y.down, x);
    LanePop(z.down, x);
    DataOk(v, x, ok, d);
    if !v.t.live { PlainUpOk(v.(down := d, rc := Taken(v.rc, ok)), x, Reset(x)); }
    forall sid
      ensures Kept(z, y, sid)
    {
      Buffered(z.c.bufs, x, ok, sid);
      LanePop(z.down, sid);
      GrantLane(z.up, g, sid);
      LanePush(PushGrant(z.up, g), Reset(x), sid);
    }
    Buffered(z.c.bufs, x, ok, x);
  }

  lemma WindowCalls(z: System, x: nat, n: nat)
    requires Calls(z) && z.down != [] && z.down[0] == Window(x, n)
    ensures AllSame(z, HearWindow(z.(down := z.down[1..]), x, n))
  {
    var y := HearWindow(z.(down := z.down[1..]), x, n);
    forall sid
      ensures Kept(z, y, sid)
    {
      LanePop(z.down, sid);
      if sid == x { WindowOk(ViewOf(z, x), x, n, LaneOf(y.down, x)); }
    }
  }

  /** What a RESET leaves of the client's send half of call x. */
  function Reaped(t: S.Tx, drain: bool): S.Tx
  {
    var e := t.(live := false, tx := t.tx.Release());
    if drain then e.(tx := e.tx.(sent := 0), orphan := e.orphan + e.held, held := 0) else e
  }

  lemma ResetParts(z: System, x: nat)
    requires ClientLive(z, x)
    ensures var y := HearReset(z, x);
            && y.c.out.txs == z.c.out.txs[x := Reaped(z.c.out.txs[x], !z.c.locked)]
            && y.c.bufs.rxs == z.c.bufs.rxs[K(x) := z.c.bufs.rxs[K(x)].(released := true, pinned := 0)]
            && y.s == z.s && y.down == z.down
            && y.up == PushGrant(z.up + [Control(x)], B.Close(z.c.bufs, K(x)).1)
  {
  }

  lemma ResetCalls(z: System, x: nat)
    requires Calls(z) && z.down != [] && z.down[0] == Reset(x)
    requires !z.c.locked && x in z.c.out.txs && z.c.out.txs[x].sends ==> x !in z.s.out.txs
    ensures AllSame(z, HearReset(z.(down := z.down[1..]), x))
  {
    var w := z.(down := z.down[1..]);
    var v := ViewOf(z, x);
    LanePop(z.down, x);
    if ClientLive(z, x) {
      ResetParts(w, x);
      ResetOk(v, x, LaneOf(w.down, x), v.rc.(released := true, pinned := 0), !z.c.locked);
      LanePush(z.up, Control(x), x);
      ResetKept(z, HearReset(w, x), x, Reaped(z.c.out.txs[x], !z.c.locked),
                v.rc.(released := true, pinned := 0), B.Close(z.c.bufs, K(x)).1);
    } else {
      ResetIgnored(v, x, LaneOf(w.down, x));
      forall sid
        ensures Kept(z, w, sid)
      {
        LanePop(z.down, sid);
      }
    }
  }

  lemma ResetKept(z: System, y: System, x: nat, t: S.Tx, r: B.Rx, g: nat)
    requires z.down != [] && z.down[0] == Reset(x) && y.s == z.s && y.down == z.down[1..]
    requires x in z.c.out.txs && y.c.out.txs == z.c.out.txs[x := t]
    requires K(x) in z.c.bufs.rxs && y.c.bufs.rxs == z.c.bufs.rxs[K(x) := r]
    requires y.up == PushGrant(z.up + [Control(x)], g)
    requires CallOk(ViewOf(z, x).(down := LaneOf(z.down[1..], x), rc := r,
                                      up := LaneOf(z.up + [Control(x)], x), t := t))
    ensures AllSame(z, y)
  {
    forall sid
      ensures Kept(z, y, sid)
    {
      LanePop(z.down, sid);
      LanePush(z.up, Control(x), sid);
      GrantLane(z.up + [Control(x)], g, sid);
    }
  }

  lemma ResetIgnored(v: View, sid: nat, d: Lane)
    requires CallOk(v) && Sound(v) && Follows(v.down, d, sid, Reset(sid)) && !v.t.live
    ensures CallOk(v.(down := d))
  {
  }

  /** A frame about no call at all leaves a channel. */
  lemma ConnWindowCalls(z: System, y: System)
    requires Calls(z) && y.c.out.txs == z.c.out.txs && y.c.bufs == z.c.bufs
    requires y.s.out.txs == z.s.out.txs && y.s.bufs == z.s.bufs && y.s.seen == z.s.seen
    requires y.up == z.up || (z.up != [] && z.up[0].ConnWindow? && y.up == z.up[1..])
    requires y.down == z.down || (z.down != [] && z.down[0].ConnWindow? && y.down == z.down[1..])
    ensures AllSame(z, y)
  {
    forall sid
      ensures Kept(z, y, sid)
    {
      if z.up != [] { LanePop(z.up, sid); }
      if z.down != [] { LanePop(z.down, sid); }
    }
  }

  lemma ServerTakeCalls(z: System, x: nat)
    requires Calls(z)
    ensures AllSame(z, Next(z, ServerTake(x)))
  {
    var y := Next(z, ServerTake(x));
    forall sid
      ensures Kept(z, y, sid)
    {
      if sid == x && S.CanTake(z.s.out, x) { ServerSendOk(ViewOf(z, x), x, y.s.out.txs[x], false); }
    }
  }

  lemma ServerUndoCalls(z: System, x: nat)
    requires Calls(z)
    ensures AllSame(z, Next(z, ServerUndo(x)))
  {
    var y := Next(z, ServerUndo(x));
    forall sid
      ensures Kept(z, y, sid)
    {
      assert Sound(ViewOf(z, sid)) && CallOk(ViewOf(z, sid));
      if sid == x && S.CanPutBack(z.s.out, x) { ServerSendOk(ViewOf(z, x), x, y.s.out.txs[x], false); }
    }
  }

  lemma ServerSendCalls(z: System, x: nat)
    requires Calls(z)
    ensures AllSame(z, Next(z, ServerSend(x)))
  {
    var y := Next(z, ServerSend(x));
    forall sid
      ensures Kept(z, y, sid)
    {
      LanePush(z.down, Data(x), sid);
      if sid == x && S.CanSpend(z.s.out, x) {
        assert Sound(ViewOf(z, sid)) && CallOk(ViewOf(z, sid));
        ServerSendOk(ViewOf(z, x), x, y.s.out.txs[x], true);
      }
    }
  }

  lemma ServerGrantLane(z: System, g: nat, sid: nat)
    ensures LaneOf(ServerGrant(z, g).down, sid) == LaneOf(z.down, sid)
  {
    GrantLane(z.down, g, sid);
  }

  lemma FlushCalls(z: System, x: nat)
    requires Calls(z)
    ensures AllSame(z, Flushed(z, x))
  {
    var f := Head(x, 0, z.s.bufs.ledger.window);
    forall sid
      ensures Kept(z, Flushed(z, x), sid)
    {
      LanePush(z.down, f, sid);
      if sid == x && ServerLive(z, x) {
        assert CallOk(ViewOf(z, sid));
        PlainDownOk(ViewOf(z, x), x, f);
      }
    }
  }

  lemma FinishCalls(z: System, x: nat, term: bool)
    requires Calls(z)
    ensures AllSame(z, Finished(z, x, term))
  {
    var y := Finished(z, x, term);
    var f := Term(x, z.s.bufs.ledger.window);
    var g := B.Close(z.s.bufs, K(x)).1;
    forall sid
      ensures Kept(z, y, sid)
    {
      LanePush(z.down, f, sid);
      GrantLane(z.down, g, sid);
      GrantLane(z.down + [f], g, sid);
      if sid == x && ServerLive(z, x) {
        FinishOk(ViewOf(z, x), x, y.s.bufs.rxs[K(x)], term, f.connWindow);
      }
    }
  }

  lemma ServerRecvCalls(z: System, x: nat, delivered: bool)
    requires Calls(z)
    ensures AllSame(z, ServerTakes(z, x, delivered))
  {
    var y := ServerTakes(z, x, delivered);
    var (b, g, sg) := B.Consume(z.s.bufs, K(x), delivered);
    var w := z.(s := z.s.(bufs := b));
    forall sid
      ensures Kept(z, y, sid)
    {
      ServerGrantLane(w, g, sid);
      CreditLane(ServerGrant(w, g).down, x, sg, sid);
      assert Sound(ViewOf(z, sid));
      if sid == x && K(x) in z.s.bufs.rxs && z.s.bufs.rxs[K(x)].queued > 0 {
        ServerRecvOk(ViewOf(z, x), y.s.bufs.rxs[K(x)], x, sg);
      }
    }
  }

  /** An OPEN carries its call's own shape and window. */
  predicate OpenMatches(z: System, f: Frame)
  {
    && f.Open? && f.sid in z.c.out.txs && f.ups == z.c.out.txs[f.sid].sends
    && f.window == RxAt(z.c.bufs, f.sid).win
  }

  /** An OPEN that is answered without being admitted. */
  lemma TurnedAway(z: System, y: System, f: Frame, x: Frame)
    requires Calls(z) && f.Open? && z.up != [] && z.up[0] == f && y.c == z.c && y.up == z.up[1..]
    requires y.s.seen == z.s.seen + {f.sid} && y.s.out.txs == z.s.out.txs && y.s.bufs == z.s.bufs
    requires y.down == z.down + [x] && (x == Reset(f.sid) || (x.Term? && x.sid == f.sid))
    ensures AllSame(z, y)
  {
    LanePop(z.up, f.sid);
    OpenHeardOk(ViewOf(z, f.sid), f.sid, f, LaneOf(y.up, f.sid));
    forall sid
      ensures Kept(z, y, sid)
    {
      LanePop(z.up, sid);
      LanePush(z.down, x, sid);
    }
  }

  lemma AdmitCalls(z: System, f: Frame, size: u32)
    requires Calls(z) && z.up != [] && z.up[0] == f && OpenMatches(z, f)
    ensures AllSame(z, Admitted(Noted(z.(up := z.up[1..]), f.sid), f.sid, f.ups, f.downs, f.window, f.connWindow, size))
  {
    var y := Admitted(Noted(z.(up := z.up[1..]), f.sid), f.sid, f.ups, f.downs, f.window, f.connWindow, size);
    var cw := z.s.bufs.ledger.window;
    LanePop(z.up, f.sid);
    AdmitOk(ViewOf(z, f.sid), f.sid, f, LaneOf(y.up, f.sid), size, cw);
    forall sid
      ensures Kept(z, y, sid)
    {
      LanePop(z.up, sid);
      LanePush(z.down, Head(f.sid, ReliableRxSize(size, true), cw), sid);
    }
  }

  lemma HearOpenCalls(z: System, f: Frame, admit: bool, size: u32)
    requires Calls(z) && z.up != [] && z.up[0] == f && OpenMatches(z, f)
    ensures AllSame(z, HearOpen(z.(up := z.up[1..]), f, admit, size))
  {
    var y := HearOpen(z.(up := z.up[1..]), f, admit, size);
    if Late(z, f.sid) || z.s.draining || z.s.stopped {
      TurnedAway(z, y, f, Reset(f.sid));
    } else if !admit {
      TurnedAway(z, y, f, Term(f.sid, z.s.bufs.ledger.window));
    } else {
      AdmitCalls(z, f, size);
    }
  }

  /** The call a data frame belongs to, after it was heard. */
  lemma ClientDataOwn(z: System, x: nat, ok: bool)
    requires Calls(z) && z.up != [] && z.up[0] == Data(x)
    ensures B.Live(z.s.bufs, K(x)) ==> z.s.bufs.rxs[K(x)].queued < z.s.bufs.rxs[K(x)].win
    ensures var (v, u) := (ViewOf(z, x), LaneOf(z.up[1..], x));
            var w := v.(up := u, rs := Taken(v.rs, ok));
            CallOk(w) && (!v.ts.live ==> CallOk(w.(down := Joined(v.down, x, Reset(x)))))
  {
    var (v, u) := (ViewOf(z, x), LaneOf(z.up[1..], x));
    LanePop(z.up, x);
    ClientDataOk(v, x, ok, u);
    if !v.ts.live { PlainDownOk(v.(up := u, rs := Taken(v.rs, ok)), x, Reset(x)); }
  }

  lemma ClientDataLanes(z: System, x: nat, ok: bool, sid: nat)
    requires z.up != [] && z.up[0] == Data(x)
    ensures var y := HearClientData(z.(up := z.up[1..]), x, ok);
            && LaneOf(y.down, sid) == (if ServerLive(z, x) || sid != x then LaneOf(z.down, sid)
                                       else Joined(LaneOf(z.down, sid), x, Reset(x)))
            && (sid != x ==> LaneOf(y.up, sid) == LaneOf(z.up, sid))
  {
    var w := z.(up := z.up[1..]);
    var (b, g) := B.Arrive(z.s.bufs, K(x), ok);
    var w' := w.(s := w.s.(bufs := b));
    LanePop(z.up, sid);
    ServerGrantLane(w', g, sid);
    LanePush(z.down, Reset(x), sid);
    LanePush(ServerGrant(w', g).down, Reset(x), sid);
  }

  lemma ClientDataCalls(z: System, x: nat, ok: bool)
    requires Calls(z) && z.up != [] && z.up[0] == Data(x)
    ensures var y := HearClientData(z.(up := z.up[1..]), x, ok);
            && AllSame(z, y)
            && (!ServerLive(z, x) || z.s.bufs.ledger.Admits() ==> y.s.bufs.refused == z.s.bufs.refused)
  {
    var y := HearClientData(z.(up := z.up[1..]), x, ok);
    ClientDataOwn(z, x, ok && z.s.bufs.ledger.Admits());
    assert Sound(ViewOf(z, x));
    forall sid
      ensures Kept(z, y, sid)
    {
      Buffered(z.s.bufs, x, ok, sid);
      ClientDataLanes(z, x, ok, sid);
    }
    Buffered(z.s.bufs, x, ok, x);
  }

  lemma ControlCalls(z: System, x: nat)
    requires Calls(z) && z.up != [] && z.up[0] == Control(x)
    ensures AllSame(z, HearControl(z.(up := z.up[1..]), x))
  {
    var y := HearControl(z.(up := z.up[1..]), x);
    forall sid
      ensures Kept(z, y, sid)
    {
      LanePop(z.up, sid);
      LanePush(z.down, Reset(x), sid);
      if sid == x {
        var v := ViewOf(z, x);
        ControlHeardOk(v, x, Control(x), LaneOf(y.up, x));
        PlainDownOk(v.(up := LaneOf(y.up, x)), x, Reset(x));
      }
    }
  }

  lemma ResetHeardCalls(z: System, x: nat)
    requires Calls(z) && z.up != [] && z.up[0] == Reset(x)
    ensures AllSame(z, z.(up := z.up[1..]))
  {
    var y := z.(up := z.up[1..]);
    forall sid
      ensures Kept(z, y, sid)
    {
      LanePop(z.up, sid);
      if sid == x { ControlHeardOk(ViewOf(z, x), x, Reset(x), LaneOf(y.up, x)); }
    }
  }

  lemma ClientWindowCalls(z: System, x: nat, n: nat)
    requires Calls(z) && z.up != [] && z.up[0] == Window(x, n)
    ensures AllSame(z, HearClientWindow(z.(up := z.up[1..]), x, n))
  {
    var y := HearClientWindow(z.(up := z.up[1..]), x, n);
    forall sid
      ensures Kept(z, y, sid)
    {
      LanePop(z.up, sid);
      if sid == x { ClientWindowOk(ViewOf(z, x), x, n, LaneOf(y.up, x)); }
    }
  }
}
