/** The receiving half of the connection window with its stash of evicted senders, in the two forms it
    is written in: over an insertion-ordered map, and over a hash map beside an order slice. Both are
    proved against the same functions on values, so they behave alike under every history. */
module PeerFlow {
  import opened Credit
  import opened SenderCache

  /** The TypeScript ledger; its `evicted` is an insertion-ordered Map. */
  class PeerFlowRx {
    var window: nat
    var outstanding: nat
    var pending: map<nat, nat>
    var evicted: Stash
    var evictCap: nat

    function State(): Flow
      reads this
    {
      Flow(Ledger(window, outstanding, pending), evicted, evictCap)
    }

    constructor ()
      ensures State() == Flow(Ledger(0, 0, map[]), SenderCache.Stash([], map[]), 0)
    {
      window, outstanding, pending, evicted, evictCap := 0, 0, map[], SenderCache.Stash([], map[]), 0;
    }

    method Enable(w: nat, cap: nat)
      modifies this
      ensures State() == Flow(old(State()).ledger.(window := Min(w, U32_MAX)), old(State()).stash, cap)
    {
      window := Min(w, U32_MAX);
      evictCap := cap;
    }

    method Admit() returns (ok: bool)
      modifies `outstanding
      ensures ok == old(State()).ledger.Admits()
      ensures State() == old(State()).(ledger := old(State()).ledger.Admit())
    {
      if window <= 0 { return true; }
      if outstanding >= window { return false; }
      outstanding := outstanding + 1;
      return true;
    }

    method Retire(e: nat, n: nat, credit: bool) returns (g: nat)
      modifies `outstanding, `pending
      ensures (State(), g) == (old(State()).(ledger := old(State()).ledger.Retire(e, n, credit).0),
                               old(State()).ledger.Retire(e, n, credit).1)
    {
      if window <= 0 { return 0; }
      outstanding := outstanding - Min(n, outstanding);
      if !credit { return 0; }
      Hold(e, n);
      g := Due(e);
    }

    method Unadmitted(e: nat, n: nat) returns (g: nat)
      modifies `pending
      ensures (State(), g) == (old(State()).(ledger := old(State()).ledger.Unadmitted(e, n).0),
                               old(State()).ledger.Unadmitted(e, n).1)
    {
      if window <= 0 { return 0; }
      Hold(e, n);
      g := Due(e);
    }

    method UnadmittedEvicted(e: nat, n: nat) returns (g: nat)
      modifies `pending
      ensures (State(), g) == SenderCache.UnadmittedEvicted(old(State()), e, n)
    {
      if window <= 0 || e !in evicted.at { return 0; }
      Hold(e, n);
      g := Due(e);
    }

    method Hold(e: nat, n: nat)
      modifies `pending
      ensures State() == old(State()).(ledger := old(State()).ledger.Hold(e, n))
    {
      pending := pending[e := Min((if e in pending then pending[e] else 0) + n, U32_MAX)];
    }

    method Due(e: nat) returns (g: nat)
      modifies `pending
      ensures g == old(State()).ledger.Payout(e)
      ensures State() == old(State()).(ledger := old(State()).ledger.AfterDue(e))
    {
      var p := if e in pending then pending[e] else 0;
      if p == 0 { return 0; }
      if p * 2 < window && outstanding + p < window { return 0; }
      pending := pending - {e};
      return p;
    }

    method Renew()
      modifies `pending
      ensures State() == old(State()).(ledger := old(State()).ledger.(pending := map[]))
    {
      pending := map[];
    }

    method Stash(e: nat, p: Sender)
      modifies `pending, `evicted
      ensures State() == Stashed(old(State()), e, p)
    {
      if evictCap <= 0 {
        pending := pending - {e};
        return;
      }
      evicted := Put(evicted, e, p);
      ghost var full := State();
      while |evicted.order| > evictCap
        invariant Trimmed(State()) == Trimmed(full)
        decreases |evicted.order|
      {
        var oldest := evicted.order[0];
        evicted := SenderCache.Stash(evicted.order[1..], evicted.at - {oldest});
        pending := pending - {oldest};
      }
    }

    method Unstash(e: nat) returns (held: Option<Sender>)
      modifies `evicted
      ensures held == Held(old(State()), e)
      ensures State() == old(State()).(stash := Remove(old(State()).stash, e))
    {
      if e !in evicted.at { return None; }
      held := Some(evicted.at[e]);
      evicted := Remove(evicted, e);
    }

    method CreditEvicted(e: nat, n: nat)
      modifies `evicted
      ensures State() == SenderCache.CreditEvicted(old(State()), e, n)
    {
      if n <= 0 || e !in evicted.at || !evicted.at[e].on {
        assert e in evicted.at ==> evicted.at[e := evicted.at[e].Grant(n)] == evicted.at;
        return;
      }
      var p := evicted.at[e];
      evicted := evicted.(at := evicted.at[e := p.(granted := Min(p.granted + n, MAX_SAFE))]);
    }
  }

  /** Taking one entry out of the order slice. */
  method Cut(order: seq<nat>, e: nat) returns (r: seq<nat>)
    ensures r == Without(order, e)
  {
    for i := 0 to |order|
      invariant Without(order, e) == order[..i] + Without(order[i..], e)
    {
      assert order[i..][0] == order[i] && order[i..][1..] == order[i + 1..];
      if order[i] == e { return order[..i] + order[i + 1..]; }
      assert order[..i + 1] == order[..i] + [order[i]];
    }
    assert order[|order|..] == [] && order[..|order|] == order;
    return order;
  }

  /** The Go ledger's stash: a hash map with an order slice beside it. */
  class GoPeerFlowRx {
    var window: nat
    var outstanding: nat
    var pending: map<nat, nat>
    var evicted: map<nat, Sender>
    var evictedOrder: seq<nat>
    var evictCap: nat

    function State(): Flow
      reads this
    {
      Flow(Ledger(window, outstanding, pending), SenderCache.Stash(evictedOrder, evicted), evictCap)
    }

    constructor (w: nat, cap: nat)
      ensures State() == Flow(Ledger(w, 0, map[]), SenderCache.Stash([], map[]), cap)
    {
      window, outstanding, pending, evicted, evictedOrder, evictCap := w, 0, map[], map[], [], cap;
    }

    method Stash(e: nat, p: Sender)
      modifies `pending, `evicted, `evictedOrder
      ensures State() == Stashed(old(State()), e, p)
    {
      if evictCap <= 0 {
        pending := pending - {e};
        return;
      }
      if e !in evicted { evictedOrder := evictedOrder + [e]; }
      evicted := evicted[e := p];
      ghost var full := State();
      while |evictedOrder| > evictCap
        invariant Trimmed(State()) == Trimmed(full)
        decreases |evictedOrder|
      {
        var oldest := evictedOrder[0];
        evictedOrder := evictedOrder[1..];
        evicted := evicted - {oldest};
        pending := pending - {oldest};
      }
    }

    method Unstash(e: nat) returns (held: Option<Sender>)
      modifies `evicted, `evictedOrder
      ensures held == Held(old(State()), e)
      ensures State() == old(State()).(stash := Remove(old(State()).stash, e))
    {
      if e !in evicted { return None; }
      held := Some(evicted[e]);
      evicted := evicted - {e};
      evictedOrder := Cut(evictedOrder, e);
    }

    method CreditEvicted(e: nat, n: nat)
      modifies `evicted
      ensures State() == SenderCache.CreditEvicted(old(State()), e, n)
    {
      if n > 0 && e in evicted && evicted[e].on {
        evicted := evicted[e := evicted[e].(granted := Min(evicted[e].granted + n, MAX_SAFE))];
      } else {
        assert e in evicted ==> evicted[e := evicted[e].Grant(n)] == evicted;
      }
    }
  }

  // ------------------------------------------------------------------
  // the two are one
  // ------------------------------------------------------------------

  datatype Op = Keep(e: nat, p: Sender) | Return(e: nat) | Credit(e: nat, n: nat)

  /** Driven by any history of evictions, returns and grants, the two ledgers hand back the same
      positions and end in the same state, held-back credit included. */
  method Lockstep(t: PeerFlowRx, g: GoPeerFlowRx, ops: seq<Op>) returns (a: seq<Option<Sender>>, b: seq<Option<Sender>>)
    requires t.State() == g.State()
    modifies t, g
    ensures a == b && t.State() == g.State()
  {
    a, b := [], [];
    for i := 0 to |ops|
      invariant t.State() == g.State() && a == b
    {
      match ops[i]
      case Keep(e, p) =>
        t.Stash(e, p);
        g.Stash(e, p);
      case Return(e) =>
        var x := t.Unstash(e);
        var y := g.Unstash(e);
        a, b := a + [x], b + [y];
      case Credit(e, n) =>
        t.CreditEvicted(e, n);
        g.CreditEvicted(e, n);
    }
  }
}
