/** The receive half of one call as an object: its queue, its pin count and its stream window, on the
    connection-window ledger it shares with every other call of the endpoint. */
module StreamRx {
  import opened Credit
  import opened PeerFlow
  import B = Buffers

  /** One call's entry, replaced. */
  lemma OneKey(k: B.Key, a: B.Rx, b: B.Rx)
    ensures map[k := a][k := b] == map[k := b]
  {
  }

  class Stream {
    const key: B.Key
    const win: nat
    const ledger: PeerFlowRx
    const flow: FlowReceiver
    var queued: nat
    var pinned: nat
    var released: bool
    ghost var gone: nat
    ghost var refused: nat

    ghost predicate Valid()
      reads this, flow
    {
      flow.on && flow.window == win > 0
    }

    ghost function Rx(): B.Rx
      reads this, flow
    {
      B.Rx(win, queued, pinned, released, flow.pending, gone)
    }

    /** This call alone on the shared ledger. */
    ghost function View(): B.Bufs
      reads this, flow, ledger
    {
      B.Bufs(ledger.State().ledger, map[key := Rx()], refused)
    }

    constructor (key: B.Key, win: nat, ledger: PeerFlowRx, flow: FlowReceiver)
      requires flow.on && flow.window == win > 0 && flow.pending == 0
      ensures this.key == key && this.win == win && this.ledger == ledger && this.flow == flow && Valid()
      ensures View() == B.Bufs(ledger.State().ledger, map[key := B.NewRx(win)], 0)
    {
      this.key, this.win, this.ledger, this.flow := key, win, ledger, flow;
      queued, pinned, released, gone, refused := 0, 0, false, 0, 0;
    }

    /** Charge one frame about to be queued, unless the call's bulk return already ran. */
    method Pin() returns (ok: bool)
      modifies `pinned
      ensures ok == !released && pinned == old(pinned) + (if ok then 1 else 0)
    {
      if released { return false; }
      pinned := pinned + 1;
      return true;
    }

    /** False once the bulk return has covered the frame. */
    method Unpin() returns (ok: bool)
      modifies `pinned
      ensures ok == (old(pinned) > 0) && pinned == old(pinned) - (if ok then 1 else 0)
    {
      if pinned == 0 { return false; }
      pinned := pinned - 1;
      return true;
    }

    /** A data frame, `ok` as far as flags, shape and sequence go. The result is the connection grant to
        send now. */
    method HandleData(ok: bool) returns (g: nat)
      requires Valid()
      modifies this, ledger
      ensures Valid() && (View(), g) == B.Arrive(old(View()), key, ok)
    {
      if released {
        g := ledger.Unadmitted(key.epoch, 1);
        return;
      }
      if !ok {
        g := ledger.Unadmitted(key.epoch, 1);
        gone := gone + 1;
        OneKey(key, old(Rx()), Rx());
        return;
      }
      var room := ledger.Admit();
      if !room {
        g := ledger.Unadmitted(key.epoch, 1);
        gone, refused := gone + 1, refused + 1;
        OneKey(key, old(Rx()), Rx());
        return;
      }
      var charged := Pin();
      if queued >= win {
        var mine := Unpin();
        if mine { g := ledger.Retire(key.epoch, 1, true); }
        gone, refused := gone + 1, refused + 1;
        OneKey(key, old(Rx()), Rx());
        return;
      }
      queued := queued + 1;
      OneKey(key, old(Rx()), Rx());
      return 0;
    }

    /** The application takes a message; `delivered` says whether it could be decoded. */
    method Recv(delivered: bool) returns (g: nat, sg: nat)
      requires Valid()
      modifies this, ledger, flow
      ensures Valid() && (View(), g, sg) == B.Consume(old(View()), key, delivered)
    {
      if queued == 0 { return 0, 0; }
      queued := queued - 1;
      g, sg := 0, 0;
      var mine := Unpin();
      if mine { g := ledger.Retire(key.epoch, 1, true); }
      if delivered && !released {
        sg := flow.Consumed(1);
      } else {
        gone := gone + 1;
      }
      OneKey(key, old(Rx()), Rx());
    }

    /** The call ends: everything still pinned goes back at once, and nothing is pinned again. */
    method Release() returns (g: nat)
      requires Valid()
      modifies this, ledger
      ensures Valid() && (View(), g) == B.Close(old(View()), key)
    {
      if released { return 0; }
      var n := pinned;
      pinned := 0;
      released := true;
      OneKey(key, old(Rx()), Rx());
      if n == 0 { return 0; }
      g := ledger.Retire(key.epoch, n, true);
    }
  }
}
