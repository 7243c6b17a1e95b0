/** The credit primitives of reliable-mode flow control: the sending half of a window
    (`FlowSender`), the per-stream receiving half (`FlowReceiver`), the paired acquire that takes
    one stream credit and one connection credit together, and the pure ledger of the connection
    window's receiving half. Each class method is tied to a function on the value it changes; the
    system-wide proofs work on those values. */
module Credit {
  const MAX_SAFE := 9_007_199_254_740_991
  const U32_MAX := 0xffff_ffff
  const W_INIT := 32
  const W_CONN := 1024

  /** A window on the wire: a 32-bit field. */
  type u32 = n: nat | n <= U32_MAX

  datatype Option<+T> = None | Some(value: T)

  function Min(a: int, b: int): int { if a < b then a else b }

  function Max(a: int, b: int): int { if a < b then b else a }

  /** A sender's position: what the peer allowed, what was sent, and the two latches. */
  datatype Sender = Sender(on: bool, observed: bool, granted: nat, sent: nat)
  {
    predicate Empty() { on && sent >= granted }

    function Assume(window: int): Sender
    {
      if window <= 0 || observed || on then this
      else this.(on := true, granted := window)
    }

    function Observe(window: int): Sender
    {
      if observed then this
      else if window <= 0 then this.(observed := true, on := false)
      else Sender(true, true, window, sent)
    }

    function Reassume(window: int): Sender { Sender(window > 0, false, Max(window, 0), 0) }

    function Grant(n: int): Sender
    {
      if n <= 0 || !on then this else this.(granted := Min(granted + n, MAX_SAFE))
    }

    /** What `Refund(n)` hands back: never more than was sent. */
    function Refundable(n: nat): nat { Min(n, sent) }

    function Refund(n: nat): Sender { this.(sent := sent - Refundable(n)) }

    function Release(): Sender { this.(on := false) }

    function Take(): Sender { if Empty() then this else this.(sent := sent + 1) }
  }

  const FRESH := Sender(false, false, 0, 0)

  class FlowSender {
    var on: bool
    var observed: bool
    var granted: nat
    var sent: nat

    function State(): Sender
      reads this
    {
      Sender(on, observed, granted, sent)
    }

    constructor ()
      ensures State() == FRESH
    {
      on, observed, granted, sent := false, false, 0, 0;
    }

    method Assume(window: int)
      modifies this
      ensures State() == old(State()).Assume(window)
    {
      if window <= 0 || observed || on { return; }
      on := true;
      granted := window;
    }

    method Observe(window: int)
      modifies this
      ensures State() == old(State()).Observe(window)
    {
      if observed { return; }
      observed := true;
      if window <= 0 {
        on := false;
      } else {
        on := true;
        granted := window;
      }
    }

    method Reassume(window: int)
      modifies this
      ensures State() == old(State()).Reassume(window)
    {
      on := window > 0;
      observed := false;
      granted := Max(window, 0);
      sent := 0;
    }

    method Grant(n: int)
      modifies this
      ensures State() == old(State()).Grant(n)
    {
      if n <= 0 || !on { return; }
      granted := Min(granted + n, MAX_SAFE);
    }

    method Refund(n: nat) returns (r: nat)
      modifies this
      ensures r == old(State()).Refundable(n) && State() == old(State()).Refund(n)
    {
      r := Min(n, sent);
      sent := sent - r;
    }

    method Undo() returns (ok: bool)
      modifies this
      ensures ok == (old(sent) > 0) && State() == old(State()).Refund(1)
    {
      var r := Refund(1);
      ok := r == 1;
    }

    /** Everything spent is taken back, so a later `Undo` has nothing left to return. */
    method Drain() returns (n: nat)
      modifies this
      ensures n == old(sent) && State() == old(State()).(sent := 0)
    {
      n := sent;
      sent := 0;
    }

    method Release()
      modifies this
      ensures State() == old(State()).Release()
    {
      on := false;
    }

    method TryAcquire() returns (ok: bool)
      modifies this
      ensures ok == !old(State()).Empty() && State() == old(State()).Take()
    {
      if on && sent >= granted { return false; }
      sent := sent + 1;
      return true;
    }

    method Restore(st: Sender)
      modifies this
      ensures State() == st
    {
      on, observed, granted, sent := st.on, st.observed, st.granted, st.sent;
    }
  }

  // ------------------------------------------------------------------
  // the paired acquire
  // ------------------------------------------------------------------

  datatype Short = Both | ShortOfStream | ShortOfPeer

  /** One credit from each window or none from either; a missing peer is no connection window. */
  method TakeBoth(stream: FlowSender, peer: FlowSender?) returns (r: Short)
    requires stream != peer
    modifies stream, peer
    ensures r.Both? <==> !old(stream.State()).Empty() && (peer == null || !old(peer.State()).Empty())
    ensures r.ShortOfStream? <==> old(stream.State()).Empty()
    ensures r.Both? ==> stream.State() == old(stream.State()).(sent := old(stream.sent) + 1)
    ensures r.Both? && peer != null ==> peer.State() == old(peer.State()).(sent := old(peer.sent) + 1)
    ensures !r.Both? ==> stream.State() == old(stream.State())
    ensures !r.Both? && peer != null ==> peer.State() == old(peer.State())
  {
    var ok := stream.TryAcquire();
    if !ok { return ShortOfStream; }
    if peer != null {
      var peerOk := peer.TryAcquire();
      if !peerOk {
        var _ := stream.Undo();
        return ShortOfPeer;
      }
    }
    return Both;
  }

  /** What can happen to a window while a send is parked on it. */
  datatype Tweak = Granted(n: int) | Advertised(w: int) | Refunded(back: nat) | Released | TakenByOther

  datatype Why = ByGrant | ByStall | ByEnd | ByAbort

  /** One wake-up of a parked send: what changed meanwhile and which bound fired. */
  datatype Wake = Wake(why: Why, stream: seq<Tweak>, peer: seq<Tweak>, done: bool, aborted: bool)

  datatype Outcome = Ok | Ended | Aborted | Stalled | PeerStalled | StillParked

  function Tweaked(s: Sender, t: Tweak): Sender
  {
    match t
    case Granted(n) => s.Grant(n)
    case Advertised(w) => s.Observe(w)
    case Refunded(back) => s.Refund(back)
    case Released => s.Release()
    case TakenByOther => s.Take()
  }

  function TweakedAll(s: Sender, ts: seq<Tweak>): Sender
    decreases |ts|
  {
    if ts == [] then s else TweakedAll(Tweaked(s, ts[0]), ts[1..])
  }

  /** The position after the first `n` wake-ups if the parked send had touched nothing. */
  function StreamAlone(s: Sender, script: seq<Wake>, n: nat): Sender
    requires n <= |script|
  {
    if n == 0 then s else TweakedAll(StreamAlone(s, script, n - 1), script[n - 1].stream)
  }

  function PeerAlone(s: Sender, script: seq<Wake>, n: nat): Sender
    requires n <= |script|
  {
    if n == 0 then s else TweakedAll(PeerAlone(s, script, n - 1), script[n - 1].peer)
  }

  method Play(f: FlowSender, ts: seq<Tweak>)
    modifies f
    ensures f.State() == TweakedAll(old(f.State()), ts)
  {
    var i := 0;
    while i < |ts|
      invariant 0 <= i <= |ts|
      invariant TweakedAll(f.State(), ts[i..]) == TweakedAll(old(f.State()), ts)
    {
      assert ts[i..][0] == ts[i] && ts[i..][1..] == ts[i + 1..];
      match ts[i] {
        case Granted(n) => f.Grant(n);
        case Advertised(w) => f.Observe(w);
        case Refunded(back) => var _ := f.Refund(back);
        case Released => f.Release();
        case TakenByOther => var _ := f.TryAcquire();
      }
      i := i + 1;
    }
  }

  /** The retry loop of a parked send, against any script of wake-ups. However long it parks and
      however it ends, the two windows end exactly where the environment alone would have left
      them, plus one credit on each if and only if the outcome is Ok: a parked, stalled, ended or
      aborted send holds neither. Credit is only ever taken on an attempt made with the call alive,
      and a stall is blamed on the connection window exactly when that window was the empty one. */
  method AcquireBoth(stream: FlowSender, peer: FlowSender?, done0: bool, aborted0: bool, script: seq<Wake>)
      returns (r: Outcome, wakes: nat)
    requires stream != peer
    modifies stream, peer
    ensures wakes <= |script|
    ensures stream.State() == StreamAlone(old(stream.State()), script, wakes).(sent := stream.sent)
    ensures stream.sent == StreamAlone(old(stream.State()), script, wakes).sent + (if r.Ok? then 1 else 0)
    ensures peer != null ==> peer.State() == PeerAlone(old(peer.State()), script, wakes).(sent := peer.sent)
    ensures peer != null ==> peer.sent == PeerAlone(old(peer.State()), script, wakes).sent + (if r.Ok? then 1 else 0)
    ensures r.Ok? ==> !StreamAlone(old(stream.State()), script, wakes).Empty()
    ensures r.Ok? && peer != null ==> !PeerAlone(old(peer.State()), script, wakes).Empty()
    ensures r.Ok? ==> if wakes == 0 then !done0 && !aborted0 else !script[wakes - 1].done && !script[wakes - 1].aborted
    ensures r.StillParked? ==> wakes == |script|
    ensures r.Stalled? || r.PeerStalled? ==> wakes > 0 && script[wakes - 1].why == ByStall
    ensures r.PeerStalled? ==> peer != null && PeerAlone(old(peer.State()), script, wakes - 1).Empty()
    ensures r.Stalled? && peer != null ==> !PeerAlone(old(peer.State()), script, wakes - 1).Empty()
  {
    wakes := 0;
    var done, aborted := done0, aborted0;
    while true
      invariant wakes <= |script|
      invariant stream.State() == StreamAlone(old(stream.State()), script, wakes)
      invariant peer != null ==> peer.State() == PeerAlone(old(peer.State()), script, wakes)
      invariant if wakes == 0 then done == done0 && aborted == aborted0
                else done == script[wakes - 1].done && aborted == script[wakes - 1].aborted
      decreases |script| - wakes
    {
      if done { return Ended, wakes; }
      if aborted { return Aborted, wakes; }
      var short := TakeBoth(stream, peer);
      if short.Both? { return Ok, wakes; }
      var onPeer := short.ShortOfPeer? || (peer != null && peer.State().Empty());
      if wakes == |script| { return StillParked, wakes; }
      var w := script[wakes];
      Play(stream, w.stream);
      if peer != null { Play(peer, w.peer); }
      wakes := wakes + 1;
      match w.why {
        case ByGrant => done, aborted := w.done, w.aborted;
        case ByStall => return if onPeer then PeerStalled else Stalled, wakes;
        case ByEnd => return Ended, wakes;
        case ByAbort => return Aborted, wakes;
      }
    }
  }

  // ------------------------------------------------------------------
  // receiving halves
  // ------------------------------------------------------------------

  /** The per-stream batching rule: what to keep pending and what to grant now. */
  function Batched(window: nat, pending: nat): (r: (nat, nat))
    ensures r.0 + r.1 == pending
    ensures window > 0 ==> r.0 * 2 < window
    ensures r.1 > 0 ==> r.0 == 0
  {
    if pending * 2 < window || pending == 0 then (pending, 0) else (0, pending)
  }

  class FlowReceiver {
    var on: bool
    var window: nat
    var pending: nat

    constructor ()
      ensures !on && window == 0 && pending == 0
    {
      on, window, pending := false, 0, 0;
    }

    method Enable(w: nat)
      modifies this
      ensures on == (w > 0) && window == w && pending == old(pending)
    {
      on := w > 0;
      window := w;
    }

    /** Credit is neither made nor lost: what was pending plus what was consumed is either granted
        now or still pending, and what stays pending is less than half the window. */
    method Consumed(n: nat) returns (g: nat)
      requires on ==> window > 0
      modifies `pending
      ensures on && n > 0 ==> (pending, g) == Batched(window, old(pending) + n)
      ensures !on || n == 0 ==> pending == old(pending) && g == 0
    {
      if !on || n <= 0 { return 0; }
      pending := pending + n;
      if pending * 2 < window { return 0; }
      g := pending;
      pending := 0;
    }
  }

  function ReliableRxSize(size: u32, reliable: bool): (r: u32)
    ensures reliable ==> r >= W_INIT
    ensures r >= size && (r != size ==> reliable && r == W_INIT)
  {
    if reliable && size < W_INIT then W_INIT else size
  }

  /** The connection window's receiving half: frames sitting in our buffers, and the credit
      retired but not yet granted, per peer incarnation. */
  datatype Ledger = Ledger(window: nat, outstanding: nat, pending: map<nat, nat>)
  {
    function Held(e: nat): nat { if e in pending then pending[e] else 0 }

    predicate Admits() { window == 0 || outstanding < window }

    function Admit(): Ledger
    {
      if window == 0 || outstanding >= window then this else this.(outstanding := outstanding + 1)
    }

    function Hold(e: nat, n: nat): Ledger
    {
      this.(pending := pending[e := Min(Held(e) + n, U32_MAX)])
    }

    /** Does the grant rule fire for incarnation e: half the window, or the starvation clause? */
    predicate Due(e: nat)
    {
      Held(e) > 0 && (Held(e) * 2 >= window || outstanding + Held(e) >= window)
    }

    function AfterDue(e: nat): Ledger { if Due(e) then this.(pending := pending - {e}) else this }

    function Payout(e: nat): nat { if Due(e) then Held(e) else 0 }

    function Leave(n: nat): Ledger { this.(outstanding := outstanding - Min(n, outstanding)) }

    /** `retire`: n frames of e stopped occupying a buffer. */
    function Retire(e: nat, n: nat, credit: bool): (Ledger, nat)
    {
      if window == 0 then (this, 0)
      else if !credit then (Leave(n), 0)
      else var l := Leave(n).Hold(e, n); (l.AfterDue(e), l.Payout(e))
    }

    /** `unadmitted`: n frames of e that were never buffered. */
    function Unadmitted(e: nat, n: nat): (Ledger, nat)
    {
      if window == 0 then (this, 0)
      else var l := Hold(e, n); (l.AfterDue(e), l.Payout(e))
    }
  }
}
