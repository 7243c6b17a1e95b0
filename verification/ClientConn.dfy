/** The client connection as its input history drives it: frames heard, calls opened and ended by the
    application, time and sweeps. Two questions are asked of every history: whether frames addressed to
    another client incarnation can touch anything, and whether every call ends. */
module ClientConn {
  import opened Credit
  import opened SeqWindow

  datatype Config = Config(epoch: nat, reliable: bool, ttl: nat, liveness: nat, rti: nat, probe: nat, maxResets: nat)

  datatype Kind = Reset | Ping | Grant | Head | Data | Term

  datatype Frame = Frame(kind: Kind, epoch: nat, peerEpoch: nat, sid: nat, seqno: u32, window: nat, connWindow: nat)

  /** A live call: whether its OPEN left, the incarnation it is locked to, its windows, its deadline. */
  datatype Call = Call(opened_: bool, server: Option<nat>, rx: Window, tx: Sender, deadline: Option<int>)

  /** A finished call: until when it is remembered, and the abort it still owes the server. `sent` and
      `lastAt` are history: how often the abort was sent again, and when it last was armed or sent. */
  datatype Tomb = Tomb(expire: int, abort: bool, retxAt: int, ival: nat, sent: nat, lastAt: int)

  /** What the connection is made of: calls, tombstones, clocks, windows. */
  datatype Core = Core(live: map<nat, Call>, tombs: map<nat, Tomb>, lastRx: int, server: Option<nat>,
                       connTx: Sender, ledger: Ledger, nextSid: nat, clock: int)

  // ------------------------------------------------------------------
  // the sweeper
  // ------------------------------------------------------------------

  /** The sweeper's timer, with the time it was started or last fired, if it is on. */
  datatype Sweeping = Sweeping(timer: Option<int>, stopped: bool)
  {
    /** Started unless it runs already, or was stopped for good. */
    function Kick(now: int): Sweeping { if stopped || timer.Some? then this else this.(timer := Some(now)) }

    /** The timer fired and the sweep is done: it goes on exactly while there is work. */
    function Fired(now: int, work: bool): Sweeping
    {
      if timer.None? then this else this.(timer := if work then Some(now) else None)
    }

    function Stop(): Sweeping { Sweeping(None, true) }
  }

  class Sweeper {
    var timer: Option<int>
    var stopped: bool

    function State(): Sweeping
      reads this
    {
      Sweeping(timer, stopped)
    }

    constructor ()
      ensures State() == Sweeping(None, false)
    {
      timer, stopped := None, false;
    }

    method Kick(now: int)
      modifies this
      ensures State() == old(State()).Kick(now)
    {
      if stopped || timer.Some? { return; }
      timer := Some(now);
    }

    /** The end of the interval callback; `work` is what there is left to do. */
    method Fire(now: int, work: bool)
      modifies `timer
      ensures State() == old(State()).Fired(now, work)
    {
      if timer.None? { return; }
      timer := Some(now);
      if !work { timer := None; }
    }

    method Stop()
      modifies this
      ensures State() == old(State()).Stop()
    {
      stopped := true;
      timer := None;
    }
  }

  /** And the rest: the RESET rate limit, the RESETs emitted, and the sweeper. */
  datatype Conn = Conn(k: Core, resetAt: map<nat, int>, resets: seq<nat>, sw: Sweeping)

  datatype Event =
    | Tick(d: nat)
    | OpenCall(deadline: Option<int>)
    | SendOpen(sid: nat)
    | EndCall(sid: nat, abort: bool)
    | Hear(f: Frame)
    /** The sweeper's timer fires. */
    | Sweep
    | Close

  /** The call is over: a tombstone takes over, with the abort if one was sent. */
  function NewTomb(cfg: Config, c: Call, now: int, abort: bool): Tomb
  {
    var ttl := if c.deadline.Some? then Max(cfg.ttl, c.deadline.value - now) else cfg.ttl;
    if abort && c.opened_ then Tomb(now + ttl, true, now + cfg.rti, cfg.rti, 0, now)
    else Tomb(now + ttl, false, 0, 0, 0, now)
  }

  function Retired(cfg: Config, k: Core, sid: nat, abort: bool): Core
    requires sid in k.live
  {
    var y := k.(live := k.live - {sid});
    if cfg.reliable then y else y.(tombs := y.tombs[sid := NewTomb(cfg, k.live[sid], k.clock, abort)])
  }

  function ClearAbort(k: Core, sid: nat): Core
  {
    if sid in k.tombs then k.(tombs := k.tombs[sid := k.tombs[sid].(abort := false, retxAt := 0)]) else k
  }

  // ------------------------------------------------------------------
  // hearing a frame
  // ------------------------------------------------------------------

  function Locked(cfg: Config, k: Core, epoch: nat): Core
  {
    var y := k.(server := Some(epoch));
    if cfg.reliable && k.server.Some? && k.server.value != epoch
    then y.(connTx := y.connTx.Reassume(W_CONN), ledger := y.ledger.(pending := map[])) else y
  }

  function Advertised(cfg: Config, k: Core, f: Frame): Core
  {
    if cfg.reliable && (f.kind == Head || f.kind == Term) then k.(connTx := k.connTx.Observe(f.connWindow)) else k
  }

  function Unbuffered(cfg: Config, k: Core, f: Frame): Core
  {
    if !cfg.reliable || f.kind != Data || (k.server.Some? && k.server.value != f.epoch) then k
    else k.(ledger := k.ledger.Unadmitted(f.epoch, 1).0)
  }

  function SetCall(k: Core, sid: nat, call: Call): Core { k.(live := k.live[sid := call]) }

  /** An accepted frame of a live call. Here and below the second result says whether a call was retired,
      which kicks the sweeper. */
  function Accepted(cfg: Config, k: Core, f: Frame, rx: Window): (Core, bool)
    requires f.sid in k.live
  {
    var call := k.live[f.sid];
    var y := if call.server.None? then Locked(cfg, k, f.epoch) else k;
    var tx := if cfg.reliable then call.tx.Observe(f.window) else call.tx;
    var server := if call.server.None? then Some(f.epoch) else call.server;
    var z := Advertised(cfg, SetCall(y, f.sid, call.(rx := rx, tx := tx, server := server)), f).(lastRx := k.clock);
    if f.kind == Term then (Retired(cfg, z, f.sid, false), true) else (z, false)
  }

  function Live(cfg: Config, k: Core, f: Frame): (Core, bool)
    requires f.sid in k.live
  {
    var call := k.live[f.sid];
    if call.server.Some? && call.server.value != f.epoch then (k, false)
    else if f.kind == Grant then
      (if cfg.reliable then SetCall(k, f.sid, call.(tx := call.tx.Grant(f.window))) else k, false)
    else
      var (rx, v) := Checked(call.rx, f.seqno);
      if v == Accept then Accepted(cfg, k, f, rx)
      else
        var y := Unbuffered(cfg, SetCall(k, f.sid, call.(rx := rx)), f);
        if v == Dup then (y.(lastRx := k.clock), false)
        else if v == Beyond then (y, false)
        else (Retired(cfg, y, f.sid, true), true)
  }

  /** A sequenced frame for a call that is over, or never was; the latter draws a RESET. */
  function Stray(cfg: Config, k: Core, f: Frame): (Core, bool)
  {
    var y := Unbuffered(cfg, Advertised(cfg, Locked(cfg, k, f.epoch), f), f);
    if f.sid !in y.tombs then (y, true)
    else
      var z := y.(lastRx := y.clock);
      (if f.kind == Term then ClearAbort(z, f.sid) else z, false)
  }

  /** Is f addressed to this incarnation? A RESET echoes it as its epoch, everything else names it. */
  predicate Ours(cfg: Config, f: Frame) { if f.kind == Reset then f.epoch == cfg.epoch else f.peerEpoch == cfg.epoch }

  /** What a frame does, whether it draws a RESET, and whether it retired a call. */
  function Heard(cfg: Config, k: Core, f: Frame): (Core, bool, bool)
  {
    if f.kind == Reset then
      if f.epoch != cfg.epoch then (k, false, false)
      else if f.sid in k.live then (Retired(cfg, k, f.sid, true), false, true)
      else (ClearAbort(k, f.sid), false, false)
    else if f.peerEpoch != cfg.epoch then (k, !(f.sid == 0 && (f.kind == Ping || f.kind == Grant)), false)
    else if f.sid == 0 && f.kind == Grant then
      (if cfg.reliable && k.server == Some(f.epoch) then k.(connTx := k.connTx.Grant(f.window)) else k, false, false)
    else if f.kind == Grant then (if f.sid in k.live then Live(cfg, k, f).0 else k, false, false)
    else if f.kind == Ping then (k.(lastRx := k.clock), f.sid != 0 && f.sid !in k.live, false)
    else if f.sid in k.live then var (y, kick) := Live(cfg, k, f); (y, false, kick)
    else var (y, reset) := Stray(cfg, k, f); (y, reset, false)
  }

  /** Answer with a RESET, at most one per sid and RTI, from a bounded memory. */
  function SendReset(cfg: Config, c: Conn, sid: nat): Conn
  {
    if cfg.reliable then c.(resets := c.resets + [sid])
    else if sid in c.resetAt && c.k.clock - c.resetAt[sid] < cfg.rti then c
    else if sid !in c.resetAt && |c.resetAt| >= cfg.maxResets then c
    else Kicked(cfg, c.(resetAt := c.resetAt[sid := c.k.clock], resets := c.resets + [sid]))
  }

  /** The sweeper is only ever started on unreliable channels. */
  function Kicked(cfg: Config, c: Conn): Conn { if cfg.reliable then c else c.(sw := c.sw.Kick(c.k.clock)) }

  // ------------------------------------------------------------------
  // the sweep
  // ------------------------------------------------------------------

  /** A tombstone that is still there after a sweep at `now`: a due abort is scheduled anew, and goes out
      unless the sweep ends before it sends anything. */
  function SweptTomb(cfg: Config, t: Tomb, now: int, goes: bool): Tomb
  {
    if t.abort && t.retxAt != 0 && now > t.retxAt then
      var ival := Min(t.ival * 2, cfg.probe);
      var y := t.(ival := ival, retxAt := now + ival);
      if goes then y.(sent := t.sent + 1, lastAt := now) else y
    else t
  }

  function SweptTombs(cfg: Config, m: map<nat, Tomb>, now: int, goes: bool): map<nat, Tomb>
  {
    map sid | sid in m && now <= m[sid].expire :: SweptTomb(cfg, m[sid], now, goes)
  }

  /** Calls are waiting for a server not heard from for too long. */
  predicate PeerLost(cfg: Config, k: Core) { k.live != map[] && k.clock - k.lastRx >= cfg.liveness }

  /** Every live call fails; every abort obligation is dropped. */
  function Failed(cfg: Config, k: Core): Core
  {
    if cfg.reliable then k.(live := map[])
    else
      k.(live := map[],
         tombs := map sid | sid in k.live.Keys + k.tombs.Keys ::
                  if sid in k.live then NewTomb(cfg, k.live[sid], k.clock, false)
                  else k.tombs[sid].(abort := false, retxAt := 0))
  }

  function SweptCore(cfg: Config, k: Core): Core
  {
    var y := k.(tombs := SweptTombs(cfg, k.tombs, k.clock, !PeerLost(cfg, k)));
    if PeerLost(cfg, k) then Failed(cfg, y) else y
  }

  /** The timer fires: a sweep, and the timer goes on while there is work. */
  function Swept(cfg: Config, c: Conn): Conn
  {
    if c.sw.timer.None? then c
    else
      var y := c.(k := SweptCore(cfg, c.k),
                  resetAt := map sid | sid in c.resetAt && c.k.clock - c.resetAt[sid] <= cfg.ttl :: c.resetAt[sid]);
      y.(sw := c.sw.Fired(c.k.clock, HasWork(y)))
  }

  function Opened(cfg: Config, k: Core, deadline: Option<int>): Core
  {
    var armed := if !cfg.reliable && k.live == map[] then k.(lastRx := k.clock) else k;
    var call := Call(false, None, Fresh(cfg.reliable), FRESH.Assume(W_INIT), deadline);
    armed.(live := armed.live[armed.nextSid := call], nextSid := armed.nextSid + 1)
  }

  predicate HasWork(c: Conn) { c.k.live != map[] || c.k.tombs != map[] || c.resetAt != map[] }

  function Next(cfg: Config, c: Conn, e: Event): Conn
  {
    match e
    case Tick(d) => c.(k := c.k.(clock := c.k.clock + d))
    case OpenCall(deadline) => if c.sw.stopped then c else Kicked(cfg, c.(k := Opened(cfg, c.k, deadline)))
    case SendOpen(sid) =>
      if sid !in c.k.live then c
      else Kicked(cfg, c.(k := SetCall(c.k, sid, c.k.live[sid].(opened_ := true))))
    case EndCall(sid, abort) => if sid in c.k.live then Kicked(cfg, c.(k := Retired(cfg, c.k, sid, abort))) else c
    case Hear(f) =>
      var (k, reset, kick) := Heard(cfg, c.k, f);
      if reset then SendReset(cfg, c.(k := k), f.sid)
      else if kick then Kicked(cfg, c.(k := k))
      else c.(k := k)
    case Sweep => Swept(cfg, c)
    // Every call fails, and the sweeper stops for good.
    case Close => c.(k := Failed(cfg, c.k).(connTx := c.k.connTx.Release()), sw := c.sw.Stop())
  }

  function Start(window: nat, at: int): Conn
  {
    Conn(Core(map[], map[], at, None, FRESH.Assume(W_CONN), Ledger(window, 0, map[]), 1, at),
         map[], [], Sweeping(None, false))
  }

  function Run(cfg: Config, c: Conn, es: seq<Event>): Conn
    decreases |es|
  {
    if es == [] then c else Next(cfg, Run(cfg, c, es[..|es| - 1]), es[|es| - 1])
  }

  // ------------------------------------------------------------------
  // the sweeper runs exactly while there is work
  // ------------------------------------------------------------------

  /** On an unreliable channel, until the Conn closes, the timer is on if and only if there is work. */
  predicate Manned(cfg: Config, c: Conn)
  {
    if cfg.reliable || c.sw.stopped then c.sw.timer.None? else c.sw.timer.Some? <==> HasWork(c)
  }

  lemma LiveWork(cfg: Config, k: Core, f: Frame)
    requires f.sid in k.live
    ensures var (y, kick) := Live(cfg, k, f);
            && (!kick ==> y.live.Keys == k.live.Keys && y.tombs == k.tombs)
            && (kick && !cfg.reliable ==> f.sid in y.tombs)
  {
    assert k.live.Keys + {f.sid} == k.live.Keys;
  }

  lemma HeardWork(cfg: Config, k: Core, f: Frame)
    ensures var (y, _, kick) := Heard(cfg, k, f);
            && (!kick ==> y.live.Keys == k.live.Keys && y.tombs.Keys == k.tombs.Keys)
            && (kick && !cfg.reliable ==> f.sid in y.tombs)
  {
    if f.sid in k.live { LiveWork(cfg, k, f); }
    if f.sid in k.tombs { assert k.tombs.Keys + {f.sid} == k.tombs.Keys; }
  }

  lemma SameWork(a: Core, b: Core)
    requires a.live.Keys == b.live.Keys && a.tombs.Keys == b.tombs.Keys
    ensures (a.live == map[] <==> b.live == map[]) && (a.tombs == map[] <==> b.tombs == map[])
  {
    assert a.live == map[] <==> a.live.Keys == {};
    assert b.live == map[] <==> b.live.Keys == {};
    assert a.tombs == map[] <==> a.tombs.Keys == {};
    assert b.tombs == map[] <==> b.tombs.Keys == {};
  }

  lemma HearManned(cfg: Config, c: Conn, f: Frame)
    requires Manned(cfg, c)
    ensures Manned(cfg, Next(cfg, c, Hear(f)))
  {
    HeardWork(cfg, c.k, f);
    var (k, reset, kick) := Heard(cfg, c.k, f);
    if !kick { SameWork(k, c.k); }
    if reset && f.sid !in c.resetAt { assert f.sid in c.resetAt[f.sid := c.k.clock]; }
  }

  lemma MannedStep(cfg: Config, c: Conn, e: Event)
    requires Manned(cfg, c)
    ensures Manned(cfg, Next(cfg, c, e))
  {
    match e
    case Hear(f) => HearManned(cfg, c, f);
    case OpenCall(d) => assert c.k.nextSid in Opened(cfg, c.k, d).live;
    case SendOpen(sid) =>
      if sid in c.k.live { assert sid in SetCall(c.k, sid, c.k.live[sid].(opened_ := true)).live; }
    case EndCall(sid, abort) =>
      if sid in c.k.live && !cfg.reliable { assert sid in Retired(cfg, c.k, sid, abort).tombs; }
    case _ =>
  }

  /** The sweeper runs whenever there is work, and stops when there is none: in every run, until the Conn
      closes, its timer is on if and only if a call, a tombstone or a remembered RESET is there. */
  lemma {:induction false} SweeperRuns(cfg: Config, window: nat, at: int, es: seq<Event>)
    ensures Manned(cfg, Run(cfg, Start(window, at), es))
    decreases |es|
  {
    if es != [] {
      SweeperRuns(cfg, window, at, es[..|es| - 1]);
      MannedStep(cfg, Run(cfg, Start(window, at), es[..|es| - 1]), es[|es| - 1]);
    }
  }

  // ------------------------------------------------------------------
  // isolation
  // ------------------------------------------------------------------

  predicate Foreign(cfg: Config, e: Event) { e.Hear? && !Ours(cfg, e.f) }

  function Erased(cfg: Config, es: seq<Event>): seq<Event>
  {
    if es == [] then []
    else
      var init := Erased(cfg, es[..|es| - 1]);
      if Foreign(cfg, es[|es| - 1]) then init else init + [es[|es| - 1]]
  }

  /** A frame for another incarnation changes nothing, at most draws a RESET. */
  lemma ForeignIsNothing(cfg: Config, c: Conn, e: Event)
    requires Foreign(cfg, e)
    ensures Next(cfg, c, e).k == c.k && Next(cfg, c, e).sw.stopped == c.sw.stopped
  {
  }

  /** Two Conns that differ in their RESET memory alone: a sweeper that runs for that finds nothing. */
  predicate Alike(cfg: Config, a: Conn, b: Conn)
  {
    a.k == b.k && a.sw.stopped == b.sw.stopped && Manned(cfg, a) && Manned(cfg, b)
  }

  lemma IdleSweep(cfg: Config, c: Conn)
    requires c.k.live == map[] && c.k.tombs == map[]
    ensures Swept(cfg, c).k == c.k
  {
    assert forall goes :: SweptTombs(cfg, map[], c.k.clock, goes) == map[];
  }

  lemma StepSame(cfg: Config, a: Conn, b: Conn, e: Event)
    requires Alike(cfg, a, b)
    ensures Alike(cfg, Next(cfg, a, e), Next(cfg, b, e))
  {
    MannedStep(cfg, a, e);
    MannedStep(cfg, b, e);
    if e.Sweep? && a.k.live == map[] && a.k.tombs == map[] {
      IdleSweep(cfg, a);
      IdleSweep(cfg, b);
    }
  }

  /** Non-interference: leaving every frame addressed to another client incarnation out of any history
      changes no call, tombstone, window, clock or sid of the Conn. Only the RESET rate limit, the
      RESETs it emits and the sweeper that forgets them may differ. */
  lemma {:induction false} ForeignFramesErase(cfg: Config, c: Conn, es: seq<Event>)
    requires Manned(cfg, c)
    ensures Run(cfg, c, es).k == Run(cfg, c, Erased(cfg, es)).k
    ensures Alike(cfg, Run(cfg, c, es), Run(cfg, c, Erased(cfg, es)))
    decreases |es|
  {
    if es != [] {
      var (init, e) := (es[..|es| - 1], es[|es| - 1]);
      ForeignFramesErase(cfg, c, init);
      if Foreign(cfg, e) {
        ForeignIsNothing(cfg, Run(cfg, c, init), e);
        MannedStep(cfg, Run(cfg, c, init), e);
      } else {
        var kept := Erased(cfg, init);
        assert (kept + [e])[..|kept|] == kept;
        StepSame(cfg, Run(cfg, c, init), Run(cfg, c, kept), e);
      }
    }
  }

  // ------------------------------------------------------------------
  // termination
  // ------------------------------------------------------------------

  /** What the platform promises: a timer that is on fires at most `gap` after it was started or fired. */
  ghost predicate Prompt(cfg: Config, c: Conn, es: seq<Event>, gap: nat)
  {
    forall i {:trigger es[..i]} :: 0 <= i <= |es| ==>
      var s := Run(cfg, c, es[..i]); s.sw.timer.Some? ==> s.k.clock - s.sw.timer.value <= gap
  }

  /** A live call means the last sweep still found the peer alive. */
  predicate Watched(cfg: Config, c: Conn)
  {
    && c.k.lastRx <= c.k.clock && (c.sw.stopped ==> c.k.live == map[])
    && (c.sw.timer.Some? ==> c.sw.timer.value <= c.k.clock)
    && (c.k.live != map[] ==> c.sw.timer.Some? && c.sw.timer.value - c.k.lastRx < cfg.liveness)
  }

  /** Core y is k but for call or tombstone sid and, maybe, the liveness clock. */
  ghost predicate Shaped(k: Core, y: Core, sid: nat)
  {
    && y.nextSid == k.nextSid && y.clock == k.clock && (y.lastRx == k.lastRx || y.lastRx == k.clock)
    && (forall x :: x in y.live ==> x in k.live)
    && (y.tombs == k.tombs || (sid !in y.live && sid in y.tombs && y.tombs == k.tombs[sid := y.tombs[sid]]))
  }

  lemma RefusedShape(cfg: Config, k: Core, f: Frame, rx: Window)
    requires f.sid in k.live
    ensures var y := Unbuffered(cfg, SetCall(k, f.sid, k.live[f.sid].(rx := rx)), f);
            f.sid in y.live && Shaped(k, y, f.sid) && Shaped(k, y.(lastRx := k.clock), f.sid)
            && Shaped(k, Retired(cfg, y, f.sid, true), f.sid)
  {
  }

  /** A frame of a live call touches that call alone: it stays, or becomes a tombstone. */
  lemma LiveShape(cfg: Config, k: Core, f: Frame)
    requires f.sid in k.live
    ensures Shaped(k, Live(cfg, k, f).0, f.sid)
  {
    var rx := Checked(k.live[f.sid].rx, f.seqno).0;
    AcceptedShape(cfg, k, f, rx);
    RefusedShape(cfg, k, f, rx);
  }

  lemma AcceptedShape(cfg: Config, k: Core, f: Frame, rx: Window)
    requires f.sid in k.live
    ensures Shaped(k, Accepted(cfg, k, f, rx).0, f.sid)
  {
  }

  lemma HeardClock(cfg: Config, k: Core, f: Frame)
    ensures var y := Heard(cfg, k, f).0;
            && y.clock == k.clock && (y.lastRx == k.lastRx || y.lastRx == k.clock)
            && (k.live == map[] ==> y.live == map[])
  {
    if f.sid in k.live { LiveShape(cfg, k, f); }
  }

  lemma WatchedStep(cfg: Config, c: Conn, e: Event)
    requires Watched(cfg, c) && Manned(cfg, c) && !cfg.reliable && cfg.liveness > 0
    ensures Watched(cfg, Next(cfg, c, e))
  {
    if e.Hear? { HeardClock(cfg, c.k, e.f); }
  }

  lemma {:induction false} WatchedRun(cfg: Config, window: nat, at: int, es: seq<Event>)
    requires !cfg.reliable && cfg.liveness > 0
    ensures Watched(cfg, Run(cfg, Start(window, at), es))
    decreases |es|
  {
    if es != [] {
      WatchedRun(cfg, window, at, es[..|es| - 1]);
      SweeperRuns(cfg, window, at, es[..|es| - 1]);
      WatchedStep(cfg, Run(cfg, Start(window, at), es[..|es| - 1]), es[|es| - 1]);
    }
  }

  /** Every call ends: with a timer that fires at most `gap` apart while it is on, no call is live once
      liveness + gap has passed without a validated frame. */
  lemma NoCallOutlives(cfg: Config, window: nat, at: int, es: seq<Event>, gap: nat)
    requires !cfg.reliable && cfg.liveness > 0 && Prompt(cfg, Start(window, at), es, gap)
    ensures var k := Run(cfg, Start(window, at), es).k;
            k.live != map[] ==> k.clock - k.lastRx < cfg.liveness + gap
  {
    WatchedRun(cfg, window, at, es);
    assert es[..|es|] == es;
  }

  // ------------------------------------------------------------------
  // the abort obligation
  // ------------------------------------------------------------------

  function Pow2(n: nat): nat { if n == 0 then 1 else 2 * Pow2(n - 1) }

  /** How long the abort waits after having been sent again k times. */
  function Backoff(cfg: Config, k: nat): nat { if k == 0 then cfg.rti else Min(Pow2(k) * cfg.rti, cfg.probe) }

  /** The promised schedule, for every k exactly when the RTI is no longer than the probe interval. */
  lemma BackoffIsMin(cfg: Config)
    ensures (forall k: nat :: Backoff(cfg, k) == Min(Pow2(k) * cfg.rti, cfg.probe)) <==> cfg.rti <= cfg.probe
  {
    if forall k: nat :: Backoff(cfg, k) == Min(Pow2(k) * cfg.rti, cfg.probe) {
      assert Backoff(cfg, 0) == Min(Pow2(0) * cfg.rti, cfg.probe);
    }
  }

  lemma BackoffDoubles(cfg: Config, k: nat)
    ensures Min(Backoff(cfg, k) * 2, cfg.probe) == Backoff(cfg, k + 1)
  {
    assert Pow2(k + 1) * cfg.rti == 2 * (Pow2(k) * cfg.rti);
  }

  /** A pending abort is on schedule, and no sweep has passed its due time. */
  predicate OnTime(cfg: Config, t: Tomb, clock: int, swept: int)
  {
    t.abort ==> && t.ival == Backoff(cfg, t.sent) && t.retxAt == t.lastAt + t.ival
                && 0 < t.lastAt <= clock && swept <= t.retxAt
  }

  /** When the sweeper last looked at the tombstones. */
  function LastSweep(c: Conn): int { if c.sw.timer.Some? then c.sw.timer.value else 0 }

  ghost predicate Scheduled(cfg: Config, c: Conn)
  {
    && 0 < c.k.clock && (c.sw.timer.Some? ==> 0 < c.sw.timer.value <= c.k.clock)
    && (c.sw.stopped ==> c.k.live == map[] && forall sid :: sid in c.k.tombs ==> !c.k.tombs[sid].abort)
    && forall sid :: sid in c.k.tombs ==> OnTime(cfg, c.k.tombs[sid], c.k.clock, LastSweep(c))
  }

  lemma SweptOnTime(cfg: Config, t: Tomb, now: int, swept: int)
    requires OnTime(cfg, t, now, swept)
    ensures OnTime(cfg, SweptTomb(cfg, t, now, true), now, now)
  {
    BackoffDoubles(cfg, t.sent);
  }

  /** Hearing a frame leaves each tombstone, makes a new one, or silences it. */
  lemma HeardTombs(cfg: Config, k: Core, f: Frame, sid: nat)
    requires sid in Heard(cfg, k, f).0.tombs
    ensures var t := Heard(cfg, k, f).0.tombs[sid];
            || (sid in k.tombs && t == k.tombs[sid]) || !t.abort
            || (exists call: Call :: t == NewTomb(cfg, call, k.clock, true))
  {
    var y := Heard(cfg, k, f).0;
    if sid in k.live && (sid !in k.tombs || y.tombs[sid] != k.tombs[sid]) && y.tombs[sid].abort {
      assert y.tombs[sid] == NewTomb(cfg, k.live[sid], k.clock, true);
    }
  }

  lemma HearScheduled(cfg: Config, c: Conn, f: Frame)
    requires Scheduled(cfg, c) && Manned(cfg, c) && !cfg.reliable
    ensures Scheduled(cfg, Next(cfg, c, Hear(f)))
  {
    var y := Next(cfg, c, Hear(f));
    HeardClock(cfg, c.k, f);
    forall sid | sid in y.k.tombs
      ensures OnTime(cfg, y.k.tombs[sid], y.k.clock, LastSweep(y)) && (y.k.tombs[sid].abort ==> !y.sw.stopped)
    {
      HeardTombs(cfg, c.k, f, sid);
    }
  }

  lemma ScheduledStep(cfg: Config, c: Conn, e: Event)
    requires Scheduled(cfg, c) && Manned(cfg, c) && !cfg.reliable
    ensures Scheduled(cfg, Next(cfg, c, e))
  {
    if e.Hear? {
      HearScheduled(cfg, c, e.f);
    } else {
      var y := Next(cfg, c, e);
      forall sid | sid in y.k.tombs
        ensures OnTime(cfg, y.k.tombs[sid], y.k.clock, LastSweep(y)) && (y.k.tombs[sid].abort ==> !y.sw.stopped)
      {
        if e.Sweep? && sid in c.k.tombs { SweptOnTime(cfg, c.k.tombs[sid], c.k.clock, LastSweep(c)); }
      }
    }
  }

  lemma {:induction false} ScheduledRun(cfg: Config, window: nat, at: int, es: seq<Event>)
    requires !cfg.reliable && at > 0
    ensures Scheduled(cfg, Run(cfg, Start(window, at), es))
    decreases |es|
  {
    if es != [] {
      ScheduledRun(cfg, window, at, es[..|es| - 1]);
      SweeperRuns(cfg, window, at, es[..|es| - 1]);
      ScheduledStep(cfg, Run(cfg, Start(window, at), es[..|es| - 1]), es[|es| - 1]);
    }
  }

  /** A tombstoned abort that has been sent again k times waits min(2^k RTI, T_probe) after the last
      time, and with sweeps at most `gap` apart goes out again no later than `gap` after that. */
  lemma AbortBacksOff(cfg: Config, window: nat, at: int, es: seq<Event>, gap: nat, sid: nat)
    requires !cfg.reliable && at > 0 && Prompt(cfg, Start(window, at), es, gap)
    ensures var k := Run(cfg, Start(window, at), es).k;
            sid in k.tombs && k.tombs[sid].abort ==>
              var t := k.tombs[sid];
              t.ival == Backoff(cfg, t.sent) && t.retxAt == t.lastAt + t.ival && k.clock <= t.retxAt + gap
  {
    ScheduledRun(cfg, window, at, es);
    SweeperRuns(cfg, window, at, es);
    assert es[..|es|] == es;
    var c := Run(cfg, Start(window, at), es);
    if sid in c.k.tombs { assert OnTime(cfg, c.k.tombs[sid], c.k.clock, LastSweep(c)); }
  }

  /** No sid is used twice: what is remembered is not live, and what comes next is new. */
  ghost predicate Apart(k: Core)
  {
    && (forall sid :: sid in k.tombs ==> sid !in k.live && sid < k.nextSid)
    && (forall sid :: sid in k.live ==> sid < k.nextSid)
  }

  lemma HeardApart(cfg: Config, k: Core, f: Frame)
    requires Apart(k)
    ensures Apart(Heard(cfg, k, f).0)
  {
    if f.sid in k.live { LiveShape(cfg, k, f); }
  }

  lemma ApartStep(cfg: Config, c: Conn, e: Event)
    requires Apart(c.k)
    ensures Apart(Next(cfg, c, e).k)
  {
    if e.Hear? { HeardApart(cfg, c.k, e.f); }
  }

  lemma {:induction false} ApartRun(cfg: Config, window: nat, at: int, es: seq<Event>)
    ensures Apart(Run(cfg, Start(window, at), es).k)
    decreases |es|
  {
    if es != [] {
      ApartRun(cfg, window, at, es[..|es| - 1]);
      ApartStep(cfg, Run(cfg, Start(window, at), es[..|es| - 1]), es[|es| - 1]);
    }
  }

  lemma SweepSends(cfg: Config, c: Conn, sid: nat)
    requires !cfg.reliable && Apart(c.k) && sid in c.k.tombs && OnTime(cfg, c.k.tombs[sid], c.k.clock, LastSweep(c))
    requires sid in Swept(cfg, c).k.tombs && Swept(cfg, c).k.tombs[sid].sent != c.k.tombs[sid].sent
    ensures var t := c.k.tombs[sid];
            && t.abort && !PeerLost(cfg, c.k)
            && Swept(cfg, c).k.tombs[sid].sent == t.sent + 1 && c.k.clock - t.lastAt > Backoff(cfg, t.sent)
  {
    assert sid !in c.k.live;
  }

  /** It never goes out early: a sweep that sends it again comes after the whole interval, and has not
      just found the server lost. */
  lemma NeverEarly(cfg: Config, window: nat, at: int, es: seq<Event>, sid: nat)
    requires !cfg.reliable && at > 0
    ensures var c := Run(cfg, Start(window, at), es);
            var y := Swept(cfg, c);
            sid in c.k.tombs && sid in y.k.tombs && y.k.tombs[sid].sent != c.k.tombs[sid].sent ==>
              var t := c.k.tombs[sid];
              && t.abort && !PeerLost(cfg, c.k)
              && y.k.tombs[sid].sent == t.sent + 1 && c.k.clock - t.lastAt > Backoff(cfg, t.sent)
  {
    ScheduledRun(cfg, window, at, es);
    ApartRun(cfg, window, at, es);
    var c := Run(cfg, Start(window, at), es);
    if sid in c.k.tombs && sid in Swept(cfg, c).k.tombs && Swept(cfg, c).k.tombs[sid].sent != c.k.tombs[sid].sent {
      assert OnTime(cfg, c.k.tombs[sid], c.k.clock, LastSweep(c));
      SweepSends(cfg, c, sid);
    }
  }

  // ------------------------------------------------------------------
  // and its end
  // ------------------------------------------------------------------

  /** The call is over and owes nothing. */
  predicate Quiet(c: Conn, sid: nat)
  {
    sid < c.k.nextSid && sid !in c.k.live && (sid in c.k.tombs ==> !c.k.tombs[sid].abort)
  }

  /** A terminal, a RESET or expiry ends the obligation of a tombstoned call. */
  lemma Silenced(cfg: Config, c: Conn, e: Event, sid: nat)
    requires !cfg.reliable && sid in c.k.tombs && sid < c.k.nextSid && sid !in c.k.live && sid != 0
    requires || (e.Hear? && Ours(cfg, e.f) && e.f.sid == sid && (e.f.kind == Term || e.f.kind == Reset))
             || (e == Sweep && c.sw.timer.Some? && c.k.clock > c.k.tombs[sid].expire)
    ensures Quiet(Next(cfg, c, e), sid)
  {
  }

  lemma HeardQuiet(cfg: Config, k: Core, f: Frame, sid: nat)
    requires sid !in k.live && (sid in k.tombs ==> !k.tombs[sid].abort)
    ensures var y := Heard(cfg, k, f).0;
            y.nextSid == k.nextSid && sid !in y.live && (sid in y.tombs ==> !y.tombs[sid].abort)
  {
    if f.sid in k.live { LiveShape(cfg, k, f); }
  }

  lemma QuietStep(cfg: Config, c: Conn, e: Event, sid: nat)
    requires Quiet(c, sid)
    ensures Quiet(Next(cfg, c, e), sid)
  {
    if e.Hear? { HeardQuiet(cfg, c.k, e.f, sid); }
  }

  /** Once over, for good: no continuation of the history makes the call live or its abort due again. */
  lemma {:induction false} QuietForever(cfg: Config, c: Conn, es: seq<Event>, sid: nat)
    requires Quiet(c, sid)
    ensures Quiet(Run(cfg, c, es), sid)
    decreases |es|
  {
    if es != [] {
      QuietForever(cfg, c, es[..|es| - 1], sid);
      QuietStep(cfg, Run(cfg, c, es[..|es| - 1]), es[|es| - 1], sid);
    }
  }
}
