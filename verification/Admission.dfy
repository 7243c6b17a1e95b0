/** Call admission at the server for one client incarnation, as concurrent handlers of duplicate OPENs
    interleave: the first check and the registration are separate critical sections, each reading the
    clock for itself, and finishes, rejections, cap evictions and timed sweeps happen in between. */
module Admission {
  import opened TombStore

  datatype Config = Config(reliable: bool, ttl: int, caps: Caps)

  /** `passed` holds the OPENs past the first check, `doomed` those refused at the live-call cap and on
      their way to a rejection. `starts` and `refused` are history. */
  datatype World = World(store: Store, hwm: nat, cps: seq<Checkpoint>, clock: int, swept: int,
                         live: set<nat>, passed: multiset<nat>, doomed: multiset<nat>,
                         starts: seq<nat>, refused: set<nat>)

  datatype Event =
    | Tick(d: nat)
    /** The first critical section; its clock was read before the lock was taken. */
    | Handle(sid: nat, t: int)
    /** The registration; its clock is read under the lock. */
    | Register(sid: nat, full: bool)
    /** The OPEN is dropped on its way (draining server, or a lost race after the check). */
    | Drop(sid: nat)
    | Reject(sid: nat, tomb: Tomb)
    | Finish(sid: nat, tomb: Tomb)
    /** A sweep runs with the time of its tick. */
    | Sweep(t: int, lost: bool)

  function AgedAt(c: Config, w: World, t: int): nat { if c.reliable then w.hwm else Aged(w.cps, t, c.ttl) }

  /** Would an OPEN for sid be turned away at time t? */
  predicate Known(c: Config, w: World, sid: nat, t: int)
  {
    sid in w.live || Covers(w.store, sid) || sid <= AgedAt(c, w, t)
  }

  function Bump(w: World, sid: nat): World { if w.hwm < sid then w.(hwm := sid) else w }

  function Without(m: multiset<nat>, sid: nat): multiset<nat> { m - multiset{sid} }

  ghost function Registered(c: Config, w: World, sid: nat, full: bool): World
  {
    var v := w.(passed := Without(w.passed, sid));
    if sid !in w.passed then w
    else if Known(c, w, sid, w.clock) then v
    else if full then v.(doomed := v.doomed + multiset{sid})
    else Bump(v.(live := v.live + {sid}, starts := v.starts + [sid]), sid)
  }

  ghost function Rejected(c: Config, w: World, sid: nat, tomb: Tomb): World
  {
    if sid !in w.passed && sid !in w.doomed then w
    else
      var v := if sid in w.doomed then w.(doomed := Without(w.doomed, sid)) else w.(passed := Without(w.passed, sid));
      if c.reliable then v
      else Bump(v.(store := Added(v.store, c.caps, sid, tomb), refused := v.refused + {sid}), sid)
  }

  ghost function SweptAt(c: Config, w: World, t: int, lost: bool): World
  {
    if c.reliable || !(w.swept <= t <= w.clock) then w
    else
      var cps := Dropped(w.cps + [Checkpoint(t, w.hwm)], t, c.ttl);
      var s := Swept(w.store, t, Aged(cps, t, c.ttl));
      w.(cps := cps, swept := t, store := if lost then Lost(s) else s)
  }

  ghost function Next(c: Config, w: World, e: Event): World
  {
    match e
    case Tick(d) => w.(clock := w.clock + d)
    case Handle(sid, t) =>
      if t > w.clock || Known(c, w, sid, t) then w else w.(passed := w.passed + multiset{sid})
    case Register(sid, full) => Registered(c, w, sid, full)
    case Drop(sid) => w.(passed := Without(w.passed, sid))
    case Reject(sid, tomb) => Rejected(c, w, sid, tomb)
    case Finish(sid, tomb) =>
      if sid !in w.live then w
      else
        var v := w.(live := w.live - {sid});
        if c.reliable then v else v.(store := Added(v.store, c.caps, sid, tomb))
    case Sweep(t, lost) => SweptAt(c, w, t, lost)
  }

  ghost function Exec(c: Config, start: int, es: seq<Event>): World
    decreases |es|
  {
    if es == [] then World(Store(map[], [], 0, 0), 0, [], start, start, {}, multiset{}, multiset{}, [], {})
    else Next(c, Exec(c, start, es[..|es| - 1]), es[|es| - 1])
  }

  // ------------------------------------------------------------------
  // the invariant
  // ------------------------------------------------------------------

  /** The watermark is above everything; checkpoints are in order and in the past. */
  ghost predicate Marked(w: World)
  {
    && w.swept <= w.clock
    && Rising(w.cps)
    && (forall i :: 0 <= i < |w.cps| ==> w.cps[i].at <= w.swept && w.cps[i].hwm <= w.hwm)
    && (forall sid :: sid in w.live || sid in w.store.tombs ==> sid <= w.hwm)
    && w.store.floor <= w.hwm
  }

  /** Whatever started, or was refused for good, is still known. */
  ghost predicate Remembered(c: Config, w: World)
  {
    && (forall sid :: sid in w.starts ==> Known(c, w, sid, w.clock))
    && (forall sid :: sid in w.refused ==> Known(c, w, sid, w.clock))
  }

  ghost predicate Distinct(s: seq<nat>) { forall i, j :: 0 <= i < j < |s| ==> s[i] != s[j] }

  ghost predicate Inv(c: Config, w: World)
  {
    Valid(w.store, c.caps) && Marked(w) && Remembered(c, w) && Distinct(w.starts)
  }

  /** The watermark as the next registration will see it. */
  function AgedNow(c: Config, w: World): nat { AgedAt(c, w, w.clock) }

  ghost predicate Wiser(c: Config, w: World, v: World)
  {
    && AgedNow(c, w) <= AgedNow(c, v)
    && forall sid :: Known(c, w, sid, w.clock) ==> Known(c, v, sid, v.clock)
  }

  lemma AgedBelow(c: Config, w: World, t: int)
    requires Marked(w)
    ensures AgedAt(c, w, t) <= w.hwm
  {
    if !c.reliable { AgedRises(w.cps, t, t, c.ttl); }
  }

  lemma AddKeeps(c: Config, w: World, v: World, sid: nat, tomb: Tomb)
    requires Inv(c, w) && !c.reliable
    requires v == w.(store := Added(w.store, c.caps, sid, tomb), live := v.live, hwm := v.hwm, passed := v.passed,
                     doomed := v.doomed, refused := v.refused)
    requires w.live - {sid} <= v.live <= w.live && v.hwm >= w.hwm && v.hwm >= sid && v.refused <= w.refused + {sid}
    ensures Inv(c, v) && Wiser(c, w, v)
  {
    AddedKeeps(w.store, c.caps, sid, tomb);
    AddedKeys(w.store, c.caps, sid, tomb);
    assert Known(c, v, sid, v.clock);
  }

  lemma AddedKeys(s: Store, caps: Caps, sid: nat, t: Tomb)
    requires Valid(s, caps)
    ensures forall x :: x in Added(s, caps, sid, t).tombs ==> x in s.tombs || x == sid
    ensures Added(s, caps, sid, t).floor <= s.floor || Added(s, caps, sid, t).floor in s.tombs.Keys + {sid}
  {
    if sid > s.floor && sid !in s.tombs {
      var (m, order) := (s.tombs[sid := t], s.order + [sid]);
      FadeAllKeeps(m, order[..FadeCount(m, order, caps.bytes, 0)]);
    }
  }

  /** A new checkpoint and the dropping of old ones only ever raise the aged watermark. */
  lemma MarkRaises(c: Config, w: World, t: int)
    requires Marked(w) && w.swept <= t <= w.clock
    ensures var cps := Dropped(w.cps + [Checkpoint(t, w.hwm)], t, c.ttl);
            && Rising(cps) && (forall i :: 0 <= i < |cps| ==> cps[i].at <= t && cps[i].hwm <= w.hwm)
            && Aged(w.cps, w.clock, c.ttl) <= Aged(cps, w.clock, c.ttl)
            && Aged(cps, t, c.ttl) <= Aged(cps, w.clock, c.ttl)
  {
    var all := w.cps + [Checkpoint(t, w.hwm)];
    assert Rising(all);
    AgedGrows(w.cps, Checkpoint(t, w.hwm), w.clock, c.ttl);
    DroppedSame(all, t, w.clock, c.ttl);
    DroppedFrom(all, t, c.ttl);
    AgedRises(Dropped(all, t, c.ttl), t, w.clock, c.ttl);
  }

  lemma SweepKeeps(c: Config, w: World, t: int, lost: bool)
    requires Inv(c, w)
    ensures Inv(c, SweptAt(c, w, t, lost)) && Wiser(c, w, SweptAt(c, w, t, lost))
  {
    if !c.reliable && w.swept <= t <= w.clock {
      MarkRaises(c, w, t);
      var aged := Aged(Dropped(w.cps + [Checkpoint(t, w.hwm)], t, c.ttl), t, c.ttl);
      SweptKeeps(w.store, c.caps, t, aged);
      LostKeeps(Swept(w.store, t, aged), c.caps);
    }
  }

  lemma {:induction false} DroppedFrom(cps: seq<Checkpoint>, now: int, ttl: int)
    ensures forall i :: 0 <= i < |Dropped(cps, now, ttl)| ==> Dropped(cps, now, ttl)[i] in cps
    decreases |cps|
  {
    if |cps| > 1 && now - cps[1].at >= ttl { DroppedFrom(cps[1..], now, ttl); }
  }

  lemma RegisterKeeps(c: Config, w: World, sid: nat, full: bool)
    requires Inv(c, w)
    ensures Inv(c, Registered(c, w, sid, full)) && Wiser(c, w, Registered(c, w, sid, full))
  {
    var v := Registered(c, w, sid, full);
    if v.starts != w.starts {
      assert sid !in w.starts;
      assert forall x :: Known(c, w, x, w.clock) ==> Known(c, v, x, v.clock);
    }
  }

  lemma TickKeeps(c: Config, w: World, d: nat)
    requires Inv(c, w)
    ensures Inv(c, w.(clock := w.clock + d)) && Wiser(c, w, w.(clock := w.clock + d))
  {
    if !c.reliable { AgedRises(w.cps, w.clock, w.clock + d, c.ttl); }
  }

  lemma StepKeeps(c: Config, w: World, e: Event)
    requires Inv(c, w)
    ensures Inv(c, Next(c, w, e)) && Wiser(c, w, Next(c, w, e))
  {
    match e
    case Tick(d) => TickKeeps(c, w, d);
    case Handle(sid, t) =>
    case Register(sid, full) => RegisterKeeps(c, w, sid, full);
    case Drop(sid) =>
    case Reject(sid, tomb) =>
      if !c.reliable && (sid in w.passed || sid in w.doomed) { AddKeeps(c, w, Next(c, w, e), sid, tomb); }
    case Finish(sid, tomb) =>
      if !c.reliable && sid in w.live { AddKeeps(c, w, Next(c, w, e), sid, tomb); }
    case Sweep(t, lost) => SweepKeeps(c, w, t, lost);
  }

  lemma {:induction false} Invariant(c: Config, start: int, es: seq<Event>)
    ensures Inv(c, Exec(c, start, es))
    decreases |es|
  {
    if es == [] {
      assert Bytes(map[]) == 0;
    } else {
      Invariant(c, start, es[..|es| - 1]);
      StepKeeps(c, Exec(c, start, es[..|es| - 1]), es[|es| - 1]);
    }
  }

  // ------------------------------------------------------------------
  // the theorems
  // ------------------------------------------------------------------

  /** At most once: in every interleaving, each sid starts a handler at most once. */
  lemma AtMostOnce(c: Config, start: int, es: seq<Event>, i: nat, j: nat)
    requires i < j < |Exec(c, start, es).starts|
    ensures Exec(c, start, es).starts[i] != Exec(c, start, es).starts[j]
  {
    Invariant(c, start, es);
  }

  /** Why: whatever started is live, tombstoned, at or below the floor, or at or below the aged
      watermark, at every later moment. */
  lemma StartedIsKnown(c: Config, start: int, es: seq<Event>, sid: nat)
    requires sid in Exec(c, start, es).starts
    ensures var w := Exec(c, start, es);
            sid in w.live || sid in w.store.tombs || sid <= w.store.floor || sid <= AgedNow(c, w)
  {
    Invariant(c, start, es);
  }

  /** The aged watermark never decreases along a run. */
  lemma {:induction false} WatermarkNeverFalls(c: Config, start: int, es: seq<Event>, more: seq<Event>)
    ensures AgedNow(c, Exec(c, start, es)) <= AgedNow(c, Exec(c, start, es + more))
    decreases |more|
  {
    if more == [] {
      assert es + more == es;
    } else {
      var init := more[..|more| - 1];
      WatermarkNeverFalls(c, start, es, init);
      Invariant(c, start, es + init);
      assert (es + more)[..|es + more| - 1] == es + init && (es + more)[|es + more| - 1] == more[|more| - 1];
      StepKeeps(c, Exec(c, start, es + init), more[|more| - 1]);
    }
  }

  /** A rejection on an unreliable channel is final: the sid never starts afterwards. */
  lemma RejectionIsFinal(c: Config, start: int, es: seq<Event>, sid: nat, full: bool)
    requires sid in Exec(c, start, es).refused
    ensures Exec(c, start, es + [Register(sid, full)]).starts == Exec(c, start, es).starts
  {
    Invariant(c, start, es);
    assert (es + [Register(sid, full)])[..|es|] == es;
  }

  /** And nothing fresh is turned away: an OPEN above every sid handled so far passes the first check
      whatever stale clock it read, and starts when it registers below the live-call cap, as long as
      no higher sid was handled in between. */
  lemma FreshStarts(c: Config, start: int, es: seq<Event>, mid: seq<Event>, sid: nat, t: int)
    requires sid > Exec(c, start, es).hwm && t <= Exec(c, start, es).clock
    ensures Exec(c, start, es + [Handle(sid, t)]).passed == Exec(c, start, es).passed + multiset{sid}
    ensures var w := Exec(c, start, es + [Handle(sid, t)] + mid);
            sid > w.hwm && sid in w.passed ==>
              Exec(c, start, es + [Handle(sid, t)] + mid + [Register(sid, false)]).starts == w.starts + [sid]
  {
    var run := es + [Handle(sid, t)] + mid;
    Invariant(c, start, es);
    Invariant(c, start, run);
    AgedBelow(c, Exec(c, start, es), t);
    AgedBelow(c, Exec(c, start, run), Exec(c, start, run).clock);
    assert (es + [Handle(sid, t)])[..|es|] == es;
    assert (run + [Register(sid, false)])[..|run|] == run;
  }
}
