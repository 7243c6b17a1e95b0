/** The server's nested state and the counters that stand in for its sizes: per-peer slots, which a
    disconnect detaches while calls created on them still unwind and a reused key replaces, the
    server-wide totals over attached slots, and the per-slot and per-container live-call counts. */
module Counters {
  import opened Sums
  import opened Credit

  datatype Budget = Budget(start: int, n: nat)

  /** One transport peer's slot object. `conts` maps each client incarnation to its live-call count. */
  datatype Slot = Slot(id: nat, pending: set<nat>, resetAt: map<nat, int>, budget: Option<Budget>,
                       live: nat, conts: map<nat, nat>, flow: bool)

  /** A call keeps the slot object and the container it was created on. */
  datatype Call = Call(peer: nat, slot: nat, epoch: nat)

  datatype Limits = Limits(resets: nat, live: nat, replies: nat, rti: int)

  /** `slots` holds the attached slots by peer key, `gone` the detached ones by identity; `owner` is
      history, the key each slot object was made for. */
  datatype Server = Server(slots: map<nat, Slot>, gone: map<nat, Slot>, calls: map<nat, Call>, owner: map<nat, nat>,
                           nextId: nat, pendingTotal: int, resetTotal: int, budgetTotal: int)

  datatype Event =
    | Unknown(peer: nat, key: nat)
    | SendReset(peer: nat, key: nat, now: int)
    /** A tombstone or a stream asks to answer the peer. */
    | Reply(peer: nat, now: int)
    | Open(peer: nat, epoch: nat, key: nat, call: nat, victim: Option<nat>, flow: bool)
    | Finish(call: nat)
    | Disconnect(peer: nat)
    /** The pieces a sweep is made of. */
    | FirePending(peer: nat, key: nat, now: int)
    | CancelPending(peer: nat, key: nat)
    | PruneReset(peer: nat, key: nat)
    | PruneBudget(peer: nat)
    | DropContainer(peer: nat, epoch: nat)
    | DropSlot(peer: nat)

  function NewSlot(id: nat): Slot { Slot(id, {}, map[], None, 0, map[], false) }

  function Ensured(s: Server, peer: nat): Server
  {
    if peer in s.slots then s
    else s.(slots := s.slots[peer := NewSlot(s.nextId)], owner := s.owner[s.nextId := peer], nextId := s.nextId + 1)
  }

  function Put(s: Server, peer: nat, x: Slot): Server { s.(slots := s.slots[peer := x]) }

  /** Spend one unit of the peer's reply budget, if the server may keep a budget for it at all. */
  function Allowed(s: Server, lim: Limits, peer: nat, now: int): (Server, bool)
    requires peer in s.slots
  {
    var x := s.slots[peer];
    if x.budget.None? && s.budgetTotal >= lim.resets then (s, false)
    else
      var b := if x.budget.None? then Budget(now, 0) else x.budget.value;
      var c := if now - b.start >= lim.rti then Budget(now, 0) else b;
      var ok := c.n < lim.replies;
      var y := Put(s, peer, x.(budget := Some(if ok then c.(n := c.n + 1) else c)));
      (y.(budgetTotal := y.budgetTotal + (if x.budget.None? then 1 else 0)), ok)
  }

  /** Schedule a RESET for an unknown call, if the server may keep one more. */
  function Pended(y: Server, lim: Limits, peer: nat, key: nat): Server
    requires peer in y.slots
  {
    var x := y.slots[peer];
    if key in x.pending || y.pendingTotal >= lim.resets then y
    else Put(y, peer, x.(pending := x.pending + {key})).(pendingTotal := y.pendingTotal + 1)
  }

  /** A RESET time is written, anew if there is room. */
  function Noted(z: Server, peer: nat, key: nat, now: int): Server
    requires peer in z.slots
  {
    var x := z.slots[peer];
    Put(z, peer, x.(resetAt := x.resetAt[key := now]))
    .(resetTotal := z.resetTotal + (if key in x.resetAt then 0 else 1))
  }

  /** Remember an immediate RESET, at most one per key and RTI, if one may be sent. */
  function Stamped(y: Server, lim: Limits, peer: nat, key: nat, now: int): Server
    requires peer in y.slots
  {
    var x := y.slots[peer];
    if key in x.resetAt && now - x.resetAt[key] < lim.rti then y
    else if key !in x.resetAt && y.resetTotal >= lim.resets then y
    else
      var (z, ok) := Allowed(y, lim, peer, now);
      if ok then Noted(z, peer, key, now) else z
  }

  /** The container of an incarnation, made if need be; a victim without calls may go for it. */
  function WithContainer(x: Slot, epoch: nat, victim: Option<nat>): Slot
  {
    if epoch in x.conts then x
    else
      var kept := if victim.Some? && victim.value in x.conts && x.conts[victim.value] == 0
                  then x.conts - {victim.value} else x.conts;
      x.(conts := kept[epoch := 0])
  }

  /** The peer's slot with the incarnation's container in it. */
  function Readied(s: Server, e: Event): Server
    requires e.Open? && e.peer in s.slots
  {
    var w := WithContainer(s.slots[e.peer], e.epoch, e.victim);
    Put(s, e.peer, w.(flow := w.flow || e.flow))
  }

  /** The call starts on the readied slot. */
  function Started(s: Server, e: Event): Server
    requires e.Open? && e.peer in s.slots && e.epoch in s.slots[e.peer].conts
  {
    var x := s.slots[e.peer];
    var z := Put(s, e.peer, x.(live := x.live + 1, conts := x.conts[e.epoch := x.conts[e.epoch] + 1],
                               pending := x.pending - {e.key}));
    z.(calls := z.calls[e.call := Call(e.peer, x.id, e.epoch)],
       pendingTotal := z.pendingTotal - (if e.key in x.pending then 1 else 0))
  }

  function Opened(s: Server, lim: Limits, e: Event): Server
    requires e.Open?
  {
    if e.call in s.calls then s
    else
      var z := Readied(Ensured(s, e.peer), e);
      if z.slots[e.peer].live >= lim.live then z else Started(z, e)
  }

  function Ended(x: Slot, epoch: nat): Slot
  {
    var y := if epoch in x.conts && x.conts[epoch] > 0 then x.(conts := x.conts[epoch := x.conts[epoch] - 1]) else x;
    if y.live > 0 then y.(live := y.live - 1) else y
  }

  predicate Attached(s: Server, c: Call) { c.peer in s.slots && s.slots[c.peer].id == c.slot }

  /** The slot the call was created on pays back, whatever the key maps to now. */
  function Finished(s: Server, call: nat): Server
  {
    if call !in s.calls then s
    else
      var c := s.calls[call];
      var y := s.(calls := s.calls - {call});
      if Attached(s, c) then Put(y, c.peer, Ended(s.slots[c.peer], c.epoch))
      else if c.slot in s.gone then y.(gone := s.gone[c.slot := Ended(s.gone[c.slot], c.epoch)])
      else y
  }

  function Disconnected(s: Server, peer: nat): Server
  {
    if peer !in s.slots then s
    else
      var x := s.slots[peer];
      s.(slots := s.slots - {peer}, gone := s.gone[x.id := x],
         pendingTotal := s.pendingTotal - |x.pending|, resetTotal := s.resetTotal - |x.resetAt|,
         budgetTotal := s.budgetTotal - (if x.budget.Some? then 1 else 0))
  }

  function Unpended(s: Server, peer: nat, key: nat): Server
    requires peer in s.slots && key in s.slots[peer].pending
  {
    Put(s, peer, s.slots[peer].(pending := s.slots[peer].pending - {key})).(pendingTotal := s.pendingTotal - 1)
  }

  predicate Empty(x: Slot)
  {
    x.conts == map[] && x.live == 0 && x.pending == {} && x.resetAt == map[] && x.budget.None? && !x.flow
  }

  function Next(s: Server, lim: Limits, e: Event): Server
  {
    match e
    case Unknown(peer, key) => Pended(Ensured(s, peer), lim, peer, key)
    case SendReset(peer, key, now) => Stamped(Ensured(s, peer), lim, peer, key, now)
    case Reply(peer, now) => if peer in s.slots then Allowed(s, lim, peer, now).0 else s
    case Open(_, _, _, _, _, _) => Opened(s, lim, e)
    case Finish(call) => Finished(s, call)
    case Disconnect(peer) => Disconnected(s, peer)
    case FirePending(peer, key, now) =>
      if peer !in s.slots || key !in s.slots[peer].pending then s
      else
        var (y, ok) := Allowed(s, lim, peer, now);
        if ok then Unpended(y, peer, key) else y
    case CancelPending(peer, key) =>
      if peer in s.slots && key in s.slots[peer].pending then Unpended(s, peer, key) else s
    case PruneReset(peer, key) =>
      if peer !in s.slots || key !in s.slots[peer].resetAt then s
      else Put(s, peer, s.slots[peer].(resetAt := s.slots[peer].resetAt - {key})).(resetTotal := s.resetTotal - 1)
    case PruneBudget(peer) =>
      if peer !in s.slots || s.slots[peer].budget.None? then s
      else Put(s, peer, s.slots[peer].(budget := None)).(budgetTotal := s.budgetTotal - 1)
    case DropContainer(peer, epoch) =>
      if peer !in s.slots || epoch !in s.slots[peer].conts || s.slots[peer].conts[epoch] > 0 then s
      else Put(s, peer, s.slots[peer].(conts := s.slots[peer].conts - {epoch}))
    case DropSlot(peer) => if peer in s.slots && Empty(s.slots[peer]) then s.(slots := s.slots - {peer}) else s
  }

  function Run(lim: Limits, es: seq<Event>): Server
    decreases |es|
  {
    if es == [] then Server(map[], map[], map[], map[], 0, 0, 0, 0)
    else Next(Run(lim, es[..|es| - 1]), lim, es[|es| - 1])
  }

  // ------------------------------------------------------------------
  // the invariant
  // ------------------------------------------------------------------

  function PendingOf(peer: nat, x: Slot): nat { |x.pending| }

  function ResetsOf(peer: nat, x: Slot): nat { |x.resetAt| }

  function BudgetOf(peer: nat, x: Slot): nat { if x.budget.Some? then 1 else 0 }

  function LiveOf(epoch: nat, n: nat): nat { n }

  ghost predicate Totals(s: Server, lim: Limits)
  {
    && s.pendingTotal == Sum(s.slots, PendingOf) <= lim.resets
    && s.resetTotal == Sum(s.slots, ResetsOf) <= lim.resets
    && s.budgetTotal == Sum(s.slots, BudgetOf) <= lim.resets
  }

  function OnSlot(id: nat, k: nat, c: Call): nat { if c.slot == id then 1 else 0 }

  function OfSlot(id: nat): (nat, Call) -> nat { (k: nat, c: Call) => OnSlot(id, k, c) }

  function OnCont(id: nat, epoch: nat, k: nat, c: Call): nat { if c.slot == id && c.epoch == epoch then 1 else 0 }

  function OfCont(id: nat, epoch: nat): (nat, Call) -> nat { (k: nat, c: Call) => OnCont(id, epoch, k, c) }

  /** A slot object counts exactly the calls created on it, in all and per incarnation. */
  ghost predicate Counted(x: Slot, calls: map<nat, Call>, lim: Limits)
  {
    && x.live == Sum(calls, OfSlot(x.id)) <= lim.live
    && x.live == Sum(x.conts, LiveOf)
    && (forall e :: e in x.conts ==> x.conts[e] == Sum(calls, OfCont(x.id, e)))
    && (forall k :: k in calls && calls[k].slot == x.id ==> calls[k].epoch in x.conts)
  }

  /** The slot object `id` was made, for this peer. */
  predicate Made(s: Server, id: nat, peer: nat) { id < s.nextId && id in s.owner && s.owner[id] == peer }

  /** Slot objects have one identity each, and every call's slot object still exists. */
  ghost predicate Identified(s: Server)
  {
    && (forall p :: p in s.slots ==> Made(s, s.slots[p].id, p) && s.slots[p].id !in s.gone)
    && (forall id :: id in s.gone ==> id < s.nextId && s.gone[id].id == id)
    && (forall k :: k in s.calls ==> Made(s, s.calls[k].slot, s.calls[k].peer)
                                     && (Attached(s, s.calls[k]) || s.calls[k].slot in s.gone))
  }

  ghost predicate AllCounted(s: Server, lim: Limits)
  {
    && (forall p :: p in s.slots ==> Counted(s.slots[p], s.calls, lim))
    && (forall id :: id in s.gone ==> Counted(s.gone[id], s.calls, lim))
  }

  ghost predicate Inv(s: Server, lim: Limits) { Totals(s, lim) && Identified(s) && AllCounted(s, lim) }

  /** Replacing one attached slot moves each total by that slot alone. */
  lemma PutTotals(s: Server, peer: nat, x: Slot)
    requires peer in s.slots
    ensures var (y, was) := (Put(s, peer, x), s.slots[peer]);
            && Sum(y.slots, PendingOf) == Sum(s.slots, PendingOf) - |was.pending| + |x.pending|
            && Sum(y.slots, ResetsOf) == Sum(s.slots, ResetsOf) - |was.resetAt| + |x.resetAt|
            && Sum(y.slots, BudgetOf) == Sum(s.slots, BudgetOf) - BudgetOf(peer, was) + BudgetOf(peer, x)
  {
    SumUpdate(s.slots, peer, x, PendingOf);
    SumUpdate(s.slots, peer, x, ResetsOf);
    SumUpdate(s.slots, peer, x, BudgetOf);
  }

  /** y differs from s in the slot x at peer, and in totals. */
  predicate Swaps(s: Server, y: Server, peer: nat, x: Slot)
  {
    && peer in s.slots && y.slots == s.slots[peer := x] && y.gone == s.gone && y.calls == s.calls
    && y.nextId == s.nextId && y.owner == s.owner && x.id == s.slots[peer].id
  }

  lemma SameIdentified(s: Server, y: Server, peer: nat, x: Slot)
    requires Identified(s) && Swaps(s, y, peer, x)
    ensures Identified(y)
  {
    forall k | k in y.calls
      ensures Attached(y, y.calls[k]) || y.calls[k].slot in y.gone
    {
      assert Attached(s, s.calls[k]) || s.calls[k].slot in s.gone;
    }
  }

  lemma SameCounted(s: Server, lim: Limits, y: Server, peer: nat, x: Slot)
    requires AllCounted(s, lim) && Swaps(s, y, peer, x) && Counted(x, s.calls, lim)
    ensures AllCounted(y, lim)
  {
    forall p | p in y.slots
      ensures Counted(y.slots[p], y.calls, lim)
    {
      if p != peer { assert p in s.slots && y.slots[p] == s.slots[p]; }
    }
  }

  /** A step that leaves identity and live counts of its slot alone. */
  lemma SameCounts(s: Server, lim: Limits, y: Server, peer: nat)
    requires Identified(s) && AllCounted(s, lim) && peer in s.slots && peer in y.slots
             && Swaps(s, y, peer, y.slots[peer])
    requires var (x, was) := (y.slots[peer], s.slots[peer]); x.live == was.live && x.conts == was.conts
    ensures Identified(y) && AllCounted(y, lim)
  {
    assert Counted(s.slots[peer], s.calls, lim);
    SameIdentified(s, y, peer, y.slots[peer]);
    SameCounted(s, lim, y, peer, y.slots[peer]);
  }

  lemma NewCounted(s: Server, lim: Limits)
    requires Identified(s)
    ensures Counted(NewSlot(s.nextId), s.calls, lim)
  {
    SumZero(s.calls, OfSlot(s.nextId));
  }

  lemma NewTotals(s: Server, lim: Limits, peer: nat)
    requires Totals(s, lim) && peer !in s.slots
    ensures Totals(Ensured(s, peer), lim)
  {
    SumUpdate(s.slots, peer, NewSlot(s.nextId), PendingOf);
    SumUpdate(s.slots, peer, NewSlot(s.nextId), ResetsOf);
    SumUpdate(s.slots, peer, NewSlot(s.nextId), BudgetOf);
  }

  lemma NewIdentified(s: Server, peer: nat)
    requires Identified(s) && peer !in s.slots
    ensures Identified(Ensured(s, peer))
  {
  }

  lemma EnsuredInv(s: Server, lim: Limits, peer: nat)
    requires Inv(s, lim)
    ensures Inv(Ensured(s, peer), lim) && peer in Ensured(s, peer).slots
  {
    if peer !in s.slots {
      NewTotals(s, lim, peer);
      NewIdentified(s, peer);
      NewCounted(s, lim);
      assert AllCounted(s, lim);
    }
  }

  /** The totals of y follow the slot it swapped in, and stay within the cap. */
  predicate Follow(s: Server, y: Server, lim: Limits, peer: nat, x: Slot)
    requires peer in s.slots
  {
    var was := s.slots[peer];
    && y.pendingTotal == s.pendingTotal - |was.pending| + |x.pending| <= lim.resets
    && y.resetTotal == s.resetTotal - |was.resetAt| + |x.resetAt| <= lim.resets
    && y.budgetTotal == s.budgetTotal - BudgetOf(peer, was) + BudgetOf(peer, x) <= lim.resets
  }

  lemma SwapInv(s: Server, lim: Limits, y: Server, peer: nat, x: Slot)
    requires Inv(s, lim) && Swaps(s, y, peer, x) && Follow(s, y, lim, peer, x)
    requires x.live == s.slots[peer].live && x.conts == s.slots[peer].conts
    ensures Inv(y, lim)
  {
    SwapTotals(s, lim, y, peer, x);
    SameCounts(s, lim, y, peer);
  }

  lemma SwapTotals(s: Server, lim: Limits, y: Server, peer: nat, x: Slot)
    requires Totals(s, lim) && peer in s.slots && y.slots == s.slots[peer := x] && Follow(s, y, lim, peer, x)
    ensures Totals(y, lim)
  {
    PutTotals(s, peer, x);
  }

  lemma AllowedInv(s: Server, lim: Limits, peer: nat, now: int)
    requires Inv(s, lim) && peer in s.slots
    ensures var y := Allowed(s, lim, peer, now).0;
            Inv(y, lim) && peer in y.slots && y.slots[peer] == s.slots[peer].(budget := y.slots[peer].budget)
            && y.pendingTotal == s.pendingTotal && y.resetTotal == s.resetTotal
  {
    var (x, y) := (s.slots[peer], Allowed(s, lim, peer, now).0);
    if x.budget.Some? || s.budgetTotal < lim.resets { SwapInv(s, lim, y, peer, x.(budget := y.slots[peer].budget)); }
  }

  lemma PendInv(y: Server, lim: Limits, peer: nat, key: nat)
    requires Inv(y, lim) && peer in y.slots
    ensures Inv(Pended(y, lim, peer, key), lim)
  {
    var (x, z) := (y.slots[peer], Pended(y, lim, peer, key));
    if key !in x.pending && y.pendingTotal < lim.resets {
      SwapInv(y, lim, z, peer, x.(pending := x.pending + {key}));
    }
  }

  lemma MapSize(m: map<nat, int>, key: nat, v: int)
    ensures |m[key := v]| == |m| + (if key in m then 0 else 1)
    ensures key in m ==> |m - {key}| == |m| - 1
  {
    assert m[key := v].Keys == m.Keys + {key};
    assert (m - {key}).Keys == m.Keys - {key};
  }

  lemma NotedInv(z: Server, lim: Limits, peer: nat, key: nat, now: int)
    requires Inv(z, lim) && peer in z.slots && (key in z.slots[peer].resetAt || z.resetTotal < lim.resets)
    ensures Inv(Noted(z, peer, key, now), lim)
  {
    var x := z.slots[peer];
    MapSize(x.resetAt, key, now);
    SwapInv(z, lim, Noted(z, peer, key, now), peer, x.(resetAt := x.resetAt[key := now]));
  }

  lemma StampInv(y: Server, lim: Limits, peer: nat, key: nat, now: int)
    requires Inv(y, lim) && peer in y.slots
    ensures Inv(Stamped(y, lim, peer, key, now), lim)
  {
    var x := y.slots[peer];
    if if key in x.resetAt then now - x.resetAt[key] >= lim.rti else y.resetTotal < lim.resets {
      AllowedInv(y, lim, peer, now);
      var (z, ok) := Allowed(y, lim, peer, now);
      if ok { NotedInv(z, lim, peer, key, now); }
    }
  }

  lemma UnpendedInv(s: Server, lim: Limits, peer: nat, key: nat)
    requires Inv(s, lim) && peer in s.slots && key in s.slots[peer].pending
    ensures Inv(Unpended(s, peer, key), lim)
  {
    SwapInv(s, lim, Unpended(s, peer, key), peer, s.slots[peer].(pending := s.slots[peer].pending - {key}));
  }

  lemma FireInv(s: Server, lim: Limits, peer: nat, key: nat, now: int)
    requires Inv(s, lim)
    ensures Inv(Next(s, lim, FirePending(peer, key, now)), lim)
  {
    if peer in s.slots && key in s.slots[peer].pending {
      AllowedInv(s, lim, peer, now);
      var (z, ok) := Allowed(s, lim, peer, now);
      if ok { UnpendedInv(z, lim, peer, key); }
    }
  }

  lemma PruneResetInv(s: Server, lim: Limits, peer: nat, key: nat)
    requires Inv(s, lim)
    ensures Inv(Next(s, lim, PruneReset(peer, key)), lim)
  {
    if peer in s.slots && key in s.slots[peer].resetAt {
      var x := s.slots[peer];
      MapSize(x.resetAt, key, 0);
      SwapInv(s, lim, Next(s, lim, PruneReset(peer, key)), peer, x.(resetAt := x.resetAt - {key}));
    }
  }

  lemma PruneBudgetInv(s: Server, lim: Limits, peer: nat)
    requires Inv(s, lim)
    ensures Inv(Next(s, lim, PruneBudget(peer)), lim)
  {
    if peer in s.slots && s.slots[peer].budget.Some? {
      SwapInv(s, lim, Next(s, lim, PruneBudget(peer)), peer, s.slots[peer].(budget := None));
    }
  }

  // ------------------------------------------------------------------
  // calls come and go
  // ------------------------------------------------------------------

  /** A container without calls may be dropped, and one without calls may be made. */
  lemma DropCounted(x: Slot, calls: map<nat, Call>, lim: Limits, epoch: nat)
    requires Counted(x, calls, lim) && epoch in x.conts && x.conts[epoch] == 0
    ensures Counted(x.(conts := x.conts - {epoch}), calls, lim)
  {
    SumSplit(x.conts, epoch, LiveOf);
    SumZero(calls, OfCont(x.id, epoch));
    assert forall k :: k in calls ==> OnCont(x.id, epoch, k, calls[k]) == 0;
  }

  lemma MakeCounted(x: Slot, calls: map<nat, Call>, lim: Limits, epoch: nat)
    requires Counted(x, calls, lim) && epoch !in x.conts
    ensures Counted(x.(conts := x.conts[epoch := 0]), calls, lim)
  {
    SumUpdate(x.conts, epoch, 0, LiveOf);
    SumZero(calls, OfCont(x.id, epoch));
  }

  lemma WithCounted(x: Slot, calls: map<nat, Call>, lim: Limits, epoch: nat, victim: Option<nat>)
    requires Counted(x, calls, lim)
    ensures Counted(WithContainer(x, epoch, victim), calls, lim) && epoch in WithContainer(x, epoch, victim).conts
  {
    if epoch !in x.conts {
      if victim.Some? && victim.value in x.conts && x.conts[victim.value] == 0 {
        DropCounted(x, calls, lim, victim.value);
        MakeCounted(x.(conts := x.conts - {victim.value}), calls, lim, epoch);
      } else {
        MakeCounted(x, calls, lim, epoch);
      }
    }
  }

  lemma CallSums(calls: map<nat, Call>, k: nat, c: Call, id: nat)
    requires k !in calls
    ensures Sum(calls[k := c], OfSlot(id)) == Sum(calls, OfSlot(id)) + OnSlot(id, k, c)
    ensures forall e :: Sum(calls[k := c], OfCont(id, e)) == Sum(calls, OfCont(id, e)) + OnCont(id, e, k, c)
  {
    SumUpdate(calls, k, c, OfSlot(id));
    forall e
      ensures Sum(calls[k := c], OfCont(id, e)) == Sum(calls, OfCont(id, e)) + OnCont(id, e, k, c)
    {
      SumUpdate(calls, k, c, OfCont(id, e));
    }
  }

  /** One more call: no other slot counts it. */
  lemma CallElsewhere(x: Slot, calls: map<nat, Call>, lim: Limits, k: nat, c: Call)
    requires Counted(x, calls, lim) && k !in calls && c.slot != x.id
    ensures Counted(x, calls[k := c], lim)
  {
    CallSums(calls, k, c, x.id);
  }

  /** Slot y is x with one more call in one of its containers. */
  predicate Joins(x: Slot, y: Slot, epoch: nat)
  {
    epoch in x.conts && y.id == x.id && y.live == x.live + 1 && y.conts == x.conts[epoch := x.conts[epoch] + 1]
  }

  lemma ContAdds(x: Slot, y: Slot, calls: map<nat, Call>, k: nat, c: Call, e: nat)
    requires k !in calls && c.slot == x.id && Joins(x, y, c.epoch)
    requires e in x.conts && x.conts[e] == Sum(calls, OfCont(x.id, e))
    ensures y.conts[e] == Sum(calls[k := c], OfCont(x.id, e))
  {
    SumUpdate(calls, k, c, OfCont(x.id, e));
  }

  lemma LiveAdds(x: Slot, y: Slot, calls: map<nat, Call>, k: nat, c: Call)
    requires k !in calls && c.slot == x.id && Joins(x, y, c.epoch)
    requires x.live == Sum(calls, OfSlot(x.id)) == Sum(x.conts, LiveOf)
    ensures y.live == Sum(calls[k := c], OfSlot(x.id)) == Sum(y.conts, LiveOf)
  {
    SumUpdate(calls, k, c, OfSlot(x.id));
    SumUpdate(x.conts, c.epoch, x.conts[c.epoch] + 1, LiveOf);
  }

  /** Its own slot and container do. */
  lemma CallAdds(x: Slot, y: Slot, calls: map<nat, Call>, lim: Limits, k: nat, c: Call)
    requires Counted(x, calls, lim) && k !in calls && c.slot == x.id && Joins(x, y, c.epoch) && x.live < lim.live
    ensures Counted(y, calls[k := c], lim)
  {
    LiveAdds(x, y, calls, k, c);
    forall e | e in y.conts
      ensures y.conts[e] == Sum(calls[k := c], OfCont(y.id, e))
    {
      ContAdds(x, y, calls, k, c, e);
    }
  }

  /** One call less: exactly its slot and its container count one less, and they can. */
  lemma CallEnds(x: Slot, calls: map<nat, Call>, lim: Limits, k: nat)
    requires Counted(x, calls, lim) && k in calls
    ensures calls[k].slot != x.id ==> Counted(x, calls - {k}, lim)
    ensures calls[k].slot == x.id ==>
              && x.live > 0 && calls[k].epoch in x.conts && x.conts[calls[k].epoch] > 0
              && Counted(Ended(x, calls[k].epoch), calls - {k}, lim)
  {
    CallLeaves(calls, k, x.id);
    if calls[k].slot == x.id { EndsCounted(x, calls, lim, k); }
  }

  lemma CallLeaves(calls: map<nat, Call>, k: nat, id: nat)
    requires k in calls
    ensures Sum(calls, OfSlot(id)) == Sum(calls - {k}, OfSlot(id)) + OnSlot(id, k, calls[k])
    ensures forall e :: Sum(calls, OfCont(id, e)) == Sum(calls - {k}, OfCont(id, e)) + OnCont(id, e, k, calls[k])
  {
    SumSplit(calls, k, OfSlot(id));
    forall e
      ensures Sum(calls, OfCont(id, e)) == Sum(calls - {k}, OfCont(id, e)) + OnCont(id, e, k, calls[k])
    {
      SumSplit(calls, k, OfCont(id, e));
    }
  }

  lemma EndsCounted(x: Slot, calls: map<nat, Call>, lim: Limits, k: nat)
    requires Counted(x, calls, lim) && k in calls && calls[k].slot == x.id
    ensures x.live > 0 && calls[k].epoch in x.conts && x.conts[calls[k].epoch] > 0
    ensures Counted(Ended(x, calls[k].epoch), calls - {k}, lim)
  {
    var e := calls[k].epoch;
    CallLeaves(calls, k, x.id);
    assert x.conts[e] == Sum(calls, OfCont(x.id, e));
    SumUpdate(x.conts, e, x.conts[e] - 1, LiveOf);
  }

  lemma ReadiedInv(s: Server, lim: Limits, e: Event)
    requires Inv(s, lim) && e.Open? && e.peer in s.slots
    ensures Inv(Readied(s, e), lim) && e.epoch in Readied(s, e).slots[e.peer].conts
  {
    var y := Readied(s, e);
    var x := y.slots[e.peer];
    WithCounted(s.slots[e.peer], s.calls, lim, e.epoch, e.victim);
    assert Counted(x, s.calls, lim);
    SwapTotals(s, lim, y, e.peer, x);
    SameIdentified(s, y, e.peer, x);
    SameCounted(s, lim, y, e.peer, x);
  }

  lemma StartedIdentified(s: Server, e: Event)
    requires Identified(s) && e.Open? && e.peer in s.slots && e.epoch in s.slots[e.peer].conts
    ensures Identified(Started(s, e))
  {
  }

  lemma OneIdEach(s: Server, p: nat, q: nat)
    requires Identified(s) && p in s.slots && q in s.slots && p != q
    ensures s.slots[p].id != s.slots[q].id
  {
    assert Made(s, s.slots[p].id, p) && Made(s, s.slots[q].id, q);
  }

  lemma StartedJoins(s: Server, e: Event)
    requires e.Open? && e.peer in s.slots && e.epoch in s.slots[e.peer].conts
    ensures var x := s.slots[e.peer];
            Joins(x, Started(s, e).slots[e.peer], e.epoch)
            && Started(s, e).calls == s.calls[e.call := Call(e.peer, x.id, e.epoch)]
  {
  }

  lemma StartedOwn(s: Server, lim: Limits, e: Event)
    requires e.Open? && e.peer in s.slots && Counted(s.slots[e.peer], s.calls, lim) && e.epoch in s.slots[e.peer].conts
    requires e.call !in s.calls && s.slots[e.peer].live < lim.live
    ensures Counted(Started(s, e).slots[e.peer], Started(s, e).calls, lim)
  {
    var x := s.slots[e.peer];
    StartedJoins(s, e);
    CallAdds(x, Started(s, e).slots[e.peer], s.calls, lim, e.call, Call(e.peer, x.id, e.epoch));
  }

  lemma StartedSlots(s: Server, lim: Limits, e: Event, p: nat)
    requires Identified(s) && AllCounted(s, lim) && e.Open? && e.peer in s.slots && e.epoch in s.slots[e.peer].conts
    requires e.call !in s.calls && s.slots[e.peer].live < lim.live && p in s.slots
    ensures Counted(Started(s, e).slots[p], Started(s, e).calls, lim)
  {
    if p == e.peer {
      StartedOwn(s, lim, e);
    } else {
      OneIdEach(s, p, e.peer);
      CallElsewhere(s.slots[p], s.calls, lim, e.call, Call(e.peer, s.slots[e.peer].id, e.epoch));
    }
  }

  lemma StartedGone(s: Server, lim: Limits, e: Event, id: nat)
    requires Identified(s) && AllCounted(s, lim) && e.Open? && e.peer in s.slots && e.epoch in s.slots[e.peer].conts
    requires e.call !in s.calls && id in s.gone
    ensures Counted(Started(s, e).gone[id], Started(s, e).calls, lim)
  {
    var x := s.slots[e.peer];
    assert x.id !in s.gone && s.gone[id].id == id;
    CallElsewhere(s.gone[id], s.calls, lim, e.call, Call(e.peer, x.id, e.epoch));
  }

  lemma StartedCounted(s: Server, lim: Limits, e: Event)
    requires Identified(s) && AllCounted(s, lim) && e.Open? && e.peer in s.slots && e.epoch in s.slots[e.peer].conts
    requires e.call !in s.calls && s.slots[e.peer].live < lim.live
    ensures AllCounted(Started(s, e), lim)
  {
    var y := Started(s, e);
    forall p | p in y.slots
      ensures Counted(y.slots[p], y.calls, lim)
    {
      StartedSlots(s, lim, e, p);
    }
    forall id | id in y.gone
      ensures Counted(y.gone[id], y.calls, lim)
    {
      StartedGone(s, lim, e, id);
    }
  }

  lemma StartedTotals(s: Server, lim: Limits, e: Event)
    requires Totals(s, lim) && e.Open? && e.peer in s.slots && e.epoch in s.slots[e.peer].conts
    ensures Totals(Started(s, e), lim)
  {
    SwapTotals(s, lim, Started(s, e), e.peer, Started(s, e).slots[e.peer]);
  }

  lemma OpenInv(s: Server, lim: Limits, e: Event)
    requires Inv(s, lim) && e.Open?
    ensures Inv(Opened(s, lim, e), lim)
  {
    if e.call !in s.calls {
      EnsuredInv(s, lim, e.peer);
      ReadiedInv(Ensured(s, e.peer), lim, e);
      var z := Readied(Ensured(s, e.peer), e);
      if z.slots[e.peer].live < lim.live { StartedInv(z, lim, e); }
    }
  }

  lemma StartedInv(z: Server, lim: Limits, e: Event)
    requires Inv(z, lim) && e.Open? && e.peer in z.slots && e.epoch in z.slots[e.peer].conts
    requires e.call !in z.calls && z.slots[e.peer].live < lim.live
    ensures Inv(Started(z, e), lim)
  {
    StartedTotals(z, lim, e);
    StartedIdentified(z, e);
    StartedCounted(z, lim, e);
  }

  lemma FinishIdentified(s: Server, call: nat)
    requires Identified(s)
    ensures Identified(Finished(s, call))
  {
  }

  lemma FinishCounted(s: Server, lim: Limits, call: nat)
    requires Identified(s) && AllCounted(s, lim) && call in s.calls
    ensures AllCounted(Finished(s, call), lim)
  {
    var (c, y) := (s.calls[call], Finished(s, call));
    forall p | p in y.slots
      ensures Counted(y.slots[p], y.calls, lim)
    {
      CallEnds(s.slots[p], s.calls, lim, call);
      assert Made(s, s.slots[p].id, p) && Made(s, c.slot, c.peer);
    }
    forall id | id in y.gone
      ensures Counted(y.gone[id], y.calls, lim)
    {
      CallEnds(s.gone[id], s.calls, lim, call);
    }
  }

  lemma EndedKeeps(x: Slot, epoch: nat)
    ensures var y := Ended(x, epoch);
            y.id == x.id && y.pending == x.pending && y.resetAt == x.resetAt && y.budget == x.budget
  {
  }

  lemma FinishTotals(s: Server, lim: Limits, call: nat)
    requires Totals(s, lim) && call in s.calls && Attached(s, s.calls[call])
    ensures Totals(Finished(s, call), lim)
  {
    var c := s.calls[call];
    var x := Ended(s.slots[c.peer], c.epoch);
    EndedKeeps(s.slots[c.peer], c.epoch);
    SwapTotals(s, lim, Finished(s, call), c.peer, x);
  }

  lemma FinishInv(s: Server, lim: Limits, call: nat)
    requires Inv(s, lim)
    ensures Inv(Finished(s, call), lim)
  {
    if call in s.calls && Attached(s, s.calls[call]) { FinishTotals(s, lim, call); }
    FinishIdentified(s, call);
    if call in s.calls { FinishCounted(s, lim, call); }
  }

  lemma DisconnectInv(s: Server, lim: Limits, peer: nat)
    requires Inv(s, lim)
    ensures Inv(Disconnected(s, peer), lim)
  {
    if peer in s.slots {
      SumSplit(s.slots, peer, PendingOf);
      SumSplit(s.slots, peer, ResetsOf);
      SumSplit(s.slots, peer, BudgetOf);
      DisconnectIdentified(s, peer);
      assert Counted(s.slots[peer], s.calls, lim);
    }
  }

  lemma DisconnectIdentified(s: Server, peer: nat)
    requires Identified(s) && peer in s.slots
    ensures Identified(Disconnected(s, peer))
  {
  }

  lemma DropContainerInv(s: Server, lim: Limits, peer: nat, epoch: nat)
    requires Inv(s, lim) && peer in s.slots && epoch in s.slots[peer].conts && s.slots[peer].conts[epoch] == 0
    ensures var x := s.slots[peer]; Inv(Put(s, peer, x.(conts := x.conts - {epoch})), lim)
  {
    var x := s.slots[peer].(conts := s.slots[peer].conts - {epoch});
    DropCounted(s.slots[peer], s.calls, lim, epoch);
    SwapTotals(s, lim, Put(s, peer, x), peer, x);
    SameIdentified(s, Put(s, peer, x), peer, x);
    SameCounted(s, lim, Put(s, peer, x), peer, x);
  }

  /** Without its calls, a slot can go and nothing will ever look for it. */
  lemma DropIdentified(s: Server, peer: nat)
    requires Identified(s) && peer in s.slots && forall k :: k in s.calls ==> s.calls[k].slot != s.slots[peer].id
    ensures Identified(s.(slots := s.slots - {peer}))
  {
    forall k | k in s.calls
      ensures Attached(s.(slots := s.slots - {peer}), s.calls[k]) || s.calls[k].slot in s.gone
    {
      assert Attached(s, s.calls[k]) || s.calls[k].slot in s.gone;
    }
  }

  lemma DropTotals(s: Server, lim: Limits, peer: nat)
    requires Totals(s, lim) && peer in s.slots && Empty(s.slots[peer])
    ensures Totals(s.(slots := s.slots - {peer}), lim)
  {
    SumSplit(s.slots, peer, PendingOf);
    SumSplit(s.slots, peer, ResetsOf);
    SumSplit(s.slots, peer, BudgetOf);
  }

  lemma EmptyUncalled(x: Slot, calls: map<nat, Call>, lim: Limits)
    requires Counted(x, calls, lim) && x.live == 0
    ensures forall k :: k in calls ==> calls[k].slot != x.id
  {
    SumZero(calls, OfSlot(x.id));
    forall k | k in calls
      ensures calls[k].slot != x.id
    {
      assert OfSlot(x.id)(k, calls[k]) == 0;
    }
  }

  lemma DropSlotInv(s: Server, lim: Limits, peer: nat)
    requires Inv(s, lim) && peer in s.slots && Empty(s.slots[peer])
    ensures Inv(s.(slots := s.slots - {peer}), lim)
  {
    DropTotals(s, lim, peer);
    EmptyUncalled(s.slots[peer], s.calls, lim);
    DropIdentified(s, peer);
    forall p | p in s.slots && p != peer
      ensures Counted(s.slots[p], s.calls, lim)
    {
    }
  }

  lemma StepInv(s: Server, lim: Limits, e: Event)
    requires Inv(s, lim)
    ensures Inv(Next(s, lim, e), lim)
  {
    match e
    case Unknown(peer, key) => EnsuredInv(s, lim, peer); PendInv(Ensured(s, peer), lim, peer, key);
    case SendReset(peer, key, now) => EnsuredInv(s, lim, peer); StampInv(Ensured(s, peer), lim, peer, key, now);
    case Reply(peer, now) => if peer in s.slots { AllowedInv(s, lim, peer, now); }
    case Open(_, _, _, _, _, _) => OpenInv(s, lim, e);
    case Finish(call) => FinishInv(s, lim, call);
    case Disconnect(peer) => DisconnectInv(s, lim, peer);
    case FirePending(peer, key, now) => FireInv(s, lim, peer, key, now);
    case CancelPending(peer, key) =>
      if peer in s.slots && key in s.slots[peer].pending { UnpendedInv(s, lim, peer, key); }
    case PruneReset(peer, key) => PruneResetInv(s, lim, peer, key);
    case PruneBudget(peer) => PruneBudgetInv(s, lim, peer);
    case DropContainer(peer, epoch) =>
      if peer in s.slots && epoch in s.slots[peer].conts && s.slots[peer].conts[epoch] == 0 {
        DropContainerInv(s, lim, peer, epoch);
      }
    case DropSlot(peer) => if peer in s.slots && Empty(s.slots[peer]) { DropSlotInv(s, lim, peer); }
  }

  lemma {:induction false} RunInv(lim: Limits, es: seq<Event>)
    ensures Inv(Run(lim, es), lim)
    decreases |es|
  {
    if es != [] {
      RunInv(lim, es[..|es| - 1]);
      StepInv(Run(lim, es[..|es| - 1]), lim, es[|es| - 1]);
    }
  }

  /** In every reachable state the server-wide totals are the sums of the per-slot sizes and within the
      cap. */
  lemma TotalsAreSums(lim: Limits, es: seq<Event>)
    ensures var s := Run(lim, es);
            && s.pendingTotal == Sum(s.slots, PendingOf) <= lim.resets
            && s.resetTotal == Sum(s.slots, ResetsOf) <= lim.resets
            && s.budgetTotal == Sum(s.slots, BudgetOf) <= lim.resets
  {
    RunInv(lim, es);
  }

  /** And each attached slot's live-call count is the number of live calls created on that very slot
      object, over all its incarnations, within the cap, whatever disconnects and key reuse came
      before; likewise for slots that are gone but whose calls still unwind. */
  lemma LiveCallsAreExact(lim: Limits, es: seq<Event>, peer: nat)
    ensures var s := Run(lim, es);
            && (peer in s.slots ==>
                  && s.slots[peer].live == Sum(s.calls, OfSlot(s.slots[peer].id)) <= lim.live
                  && s.slots[peer].live == Sum(s.slots[peer].conts, LiveOf))
            && (forall id :: id in s.gone ==> s.gone[id].live == Sum(s.calls, OfSlot(id)) <= lim.live)
  {
    RunInv(lim, es);
    var s := Run(lim, es);
    forall id | id in s.gone
      ensures s.gone[id].live == Sum(s.calls, OfSlot(id)) <= lim.live
    {
      assert Counted(s.gone[id], s.calls, lim);
    }
    if peer in s.slots { assert Counted(s.slots[peer], s.calls, lim); }
  }
}
