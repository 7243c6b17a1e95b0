/** The bounded receive queue behind the window, with its drop policies, and what the application sees
    at the far end of both. */
module Delivery {
  import opened Credit
  import opened SeqWindow

  datatype Policy = Newest | Oldest

  /** The queue's content and how many frames it has dropped. */
  datatype Queue<T> = Queue(buf: seq<T>, dropped: nat)

  /** Deliver f under a drop policy into a queue of capacity cap. */
  function Put<T>(q: Queue<T>, cap: nat, f: T, policy: Policy): Queue<T>
  {
    if |q.buf| < cap then q.(buf := q.buf + [f])
    else if policy == Oldest && cap > 0 && q.buf != [] then Queue(q.buf[1..] + [f], q.dropped + 1)
    else q.(dropped := q.dropped + 1)
  }

  class FrameQueue<T> {
    const cap: nat
    var buf: seq<T>
    var dropped: nat

    function State(): Queue<T>
      reads this
    {
      Queue(buf, dropped)
    }

    constructor (cap: nat)
      ensures this.cap == cap && State() == Queue([], 0)
    {
      this.cap := cap;
      buf, dropped := [], 0;
    }

    method TryTake() returns (f: Option<T>)
      modifies `buf
      ensures f == if old(buf) == [] then None else Some(old(buf)[0])
      ensures buf == if old(buf) == [] then [] else old(buf)[1..]
    {
      if buf == [] { return None; }
      f := Some(buf[0]);
      buf := buf[1..];
    }

    method TryPut(f: T) returns (ok: bool)
      modifies `buf
      ensures ok == (|old(buf)| < cap) && buf == if ok then old(buf) + [f] else old(buf)
    {
      if |buf| >= cap { return false; }
      buf := buf + [f];
      return true;
    }

    /** One frame is dropped exactly when the queue is full, and it is counted. */
    method PutDrop(f: T, policy: Policy) returns (n: nat)
      requires |buf| <= cap
      modifies `buf, `dropped
      ensures State() == Put(old(State()), cap, f, policy) && |buf| <= cap
      ensures n == dropped - old(dropped) == if |old(buf)| < cap then 0 else 1
    {
      var ok := TryPut(f);
      if ok { return 0; }
      if policy == Oldest {
        var out := TryTake();
        if out.Some? { dropped := dropped + 1; }
        ok := TryPut(f);
        if ok { return 1; }
      }
      dropped := dropped + 1;
      return 1;
    }
  }

  // ------------------------------------------------------------------
  // window, queue and application together
  // ------------------------------------------------------------------

  /** `accepted` is kept by the account; `taken` is what the application got so far. */
  datatype Pipe = Pipe(a: Account, q: Queue<nat>, taken: seq<nat>)

  datatype Event = Arrival(n: nat) | AppTakes

  function Next(p: Pipe, cap: nat, policy: Policy, e: Event): Pipe
  {
    match e
    case Arrival(n) =>
      var a := Arrive(p.a, n);
      Pipe(a, if a.accepted == p.a.accepted then p.q else Put(p.q, cap, n, policy), p.taken)
    case AppTakes =>
      if p.q.buf == [] then p else p.(q := p.q.(buf := p.q.buf[1..]), taken := p.taken + [p.q.buf[0]])
  }

  function Run(cap: nat, policy: Policy, es: seq<Event>): Pipe
  {
    if es == [] then Pipe(Account(Fresh(false), 0, [], 0), Queue([], 0), [])
    else Next(Run(cap, policy, es[..|es| - 1]), cap, policy, es[|es| - 1])
  }

  ghost predicate InSightAll(cap: nat, policy: Policy, es: seq<Event>)
  {
    forall i :: 0 <= i < |es| && es[i].Arrival? ==> InSight(Run(cap, policy, es[..i]).a.at, es[i].n)
  }

  /** What was taken and what is buffered is in order, came from the window, and together with what
      was dropped makes up what was accepted. */
  ghost predicate Good(p: Pipe, cap: nat)
  {
    && Kept(p.a) && |p.q.buf| <= cap
    && Increasing(p.taken + p.q.buf)
    && (forall i :: 0 <= i < |p.taken + p.q.buf| ==> (p.taken + p.q.buf)[i] <= p.a.at)
    && (forall n :: n in p.taken + p.q.buf ==> n in p.a.accepted)
    && |p.a.accepted| == |p.taken| + |p.q.buf| + p.q.dropped
  }

  lemma ArrivalGood(p: Pipe, cap: nat, policy: Policy, n: nat)
    requires Good(p, cap) && InSight(p.a.at, n)
    ensures Good(Next(p, cap, policy, Arrival(n)), cap)
  {
    var y := Next(p, cap, policy, Arrival(n));
    ArriveKeeps(p.a, n);
    if y.a.accepted != p.a.accepted {
      var (out, was) := (y.taken + y.q.buf, p.taken + p.q.buf);
      if |p.q.buf| < cap {
        assert out == was + [n];
      } else if policy == Oldest && cap > 0 {
        assert out == p.taken + p.q.buf[1..] + [n];
        assert forall i :: 0 <= i < |p.q.buf| - 1 ==> p.q.buf[1..][i] == was[|p.taken| + 1 + i];
        assert forall i :: 0 <= i < |p.taken| ==> out[i] == was[i];
        assert forall i :: |p.taken| <= i < |out| - 1 ==> out[i] == was[i + 1];
      }
    }
  }

  lemma TakeGood(p: Pipe, cap: nat, policy: Policy)
    requires Good(p, cap)
    ensures Good(Next(p, cap, policy, AppTakes), cap)
  {
    var y := Next(p, cap, policy, AppTakes);
    if p.q.buf != [] { assert y.taken + y.q.buf == p.taken + p.q.buf; }
  }

  lemma {:induction false} RunGood(cap: nat, policy: Policy, es: seq<Event>)
    requires InSightAll(cap, policy, es)
    ensures Good(Run(cap, policy, es), cap)
  {
    if es != [] {
      var (init, e) := (es[..|es| - 1], es[|es| - 1]);
      assert forall i :: 0 <= i < |init| ==> init[..i] == es[..i];
      RunGood(cap, policy, init);
      match e
      case Arrival(n) =>
        assert es[..|init|] == init && es[|init|].Arrival?;
        ArrivalGood(Run(cap, policy, init), cap, policy, n);
      case AppTakes => TakeGood(Run(cap, policy, init), cap, policy);
    }
  }

  /** What the application receives is strictly increasing, under any loss, duplication and reordering
      within sight, any capacity and both policies; accepted plus reported gaps is the advance of the
      window; and accepted is taken plus buffered plus dropped. */
  lemma ApplicationSeesOrder(cap: nat, policy: Policy, es: seq<Event>)
    requires InSightAll(cap, policy, es)
    ensures var p := Run(cap, policy, es);
            && Increasing(p.taken) && (forall n :: n in p.taken ==> n in p.a.accepted)
            && |p.a.accepted| + p.a.gaps == p.a.at
            && |p.a.accepted| == |p.taken| + |p.q.buf| + p.q.dropped
  {
    RunGood(cap, policy, es);
    var p := Run(cap, policy, es);
    assert forall i :: 0 <= i < |p.taken| ==> p.taken[i] == (p.taken + p.q.buf)[i];
    assert forall n :: n in p.taken ==> n in p.taken + p.q.buf;
  }

  predicate Suffix(buf: seq<nat>, all: seq<nat>) { |buf| <= |all| && buf == all[|all| - |buf|..] }

  ghost predicate Freshest(p: Pipe) { Suffix(p.q.buf, p.a.accepted) }

  lemma SuffixPut(q: Queue<nat>, all: seq<nat>, cap: nat, n: nat)
    requires cap > 0 && Suffix(q.buf, all)
    ensures Suffix(Put(q, cap, n, Oldest).buf, all + [n])
  {
    var k := |all| - |q.buf|;
    assert (all + [n])[k..] == all[k..] + [n];
    if |q.buf| > 0 { assert (all + [n])[k + 1..] == all[k..][1..] + [n]; }
  }

  lemma SuffixTake(buf: seq<nat>, all: seq<nat>)
    requires Suffix(buf, all) && buf != []
    ensures Suffix(buf[1..], all)
  {
    assert all[|all| - |buf|..][1..] == all[|all| - |buf| + 1..];
  }

  lemma FreshestStep(p: Pipe, cap: nat, e: Event)
    requires cap > 0 && Freshest(p)
    ensures Freshest(Next(p, cap, Oldest, e))
  {
    match e
    case Arrival(n) => SuffixPut(p.q, p.a.accepted, cap, n);
    case AppTakes => if p.q.buf != [] { SuffixTake(p.q.buf, p.a.accepted); }
  }

  /** Dropping the oldest keeps the freshest: the buffer is always the latest accepted frames. */
  lemma {:induction false} FreshestKept(cap: nat, es: seq<Event>)
    requires cap > 0
    ensures Freshest(Run(cap, Oldest, es))
  {
    if es != [] {
      FreshestKept(cap, es[..|es| - 1]);
      FreshestStep(Run(cap, Oldest, es[..|es| - 1]), cap, es[|es| - 1]);
    }
  }
}
