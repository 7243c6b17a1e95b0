/** What overtaking OPENs cost, exactly. A client that lets a unary OPEN pass a lower one with client data,
    before anything was answered, can be handed the same credit twice and then overruns a server it
    conforms to; a client that does not, cannot. */
module Overrun {
  import opened Sums
  import opened Credit
  import opened Channel
  import opened Duplex
  import opened Conservation
  import opened StreamWindow
  import opened Overtaking
  import opened Order
  import opened Flow
  import B = Buffers
  import S = Sends

  // ------------------------------------------------------------------
  // allocation and OPEN in one step
  // ------------------------------------------------------------------

  /** Only calls without client data send their OPEN later than they allocate their sid. */
  predicate Eager(es: seq<Event>) { forall i :: 0 <= i < |es| && es[i].ClientOpen? ==> !es[i].ups }

  /** Every OPEN with client data is above all that left before it. */
  ghost predicate Rising(l: seq<Shape>) { forall i, k :: 0 <= i < k < |l| && l[k].ups ==> l[i].sid < l[k].sid }

  lemma RisingStraight(l: seq<Shape>)
    requires Rising(l)
    ensures !Overtaken(l)
  {
    forall j | 0 <= j < |l| && l[j].ups
      ensures !Unanswered(l, j + 1)
    {
      assert !Beaten(l, j);
    }
  }

  lemma OpenLeaves(z: System, x: nat, ups: bool, downs: bool, size: u32)
    ensures Opened(z, x, ups, downs, size).c.left == z.c.left
            || (!z.c.locked && Opened(z, x, ups, downs, size).c.left == z.c.left + [Shape(x, ups, downs)])
  {
  }

  lemma OthersLeave(z: System, e: Event)
    requires !e.ClientOpen? && !e.ClientStart?
    ensures Next(z, e).c.left == z.c.left
  {
    if e.ClientHear? && z.down != [] { var _, _ := HearPushes(z, e.ok); }
  }

  lemma StartRises(z: System, e: Event)
    requires Track(z) && Rising(z.c.left) && e.ClientStart?
    ensures Rising(Next(z, e).c.left)
  {
    OpenLeaves(Allocated(z), z.c.next + 1, e.ups, e.downs, e.size);
    if !z.c.locked {
      forall k | 0 <= k < |z.c.left|
        ensures z.c.left[k].sid <= z.c.next
      {
        assert OfCall(z.c, z.c.left[k]);
      }
    }
  }

  lemma EagerStep(z: System, e: Event)
    requires Track(z) && Rising(z.c.left) && (e.ClientOpen? ==> !e.ups)
    ensures Rising(Next(z, e).c.left)
  {
    if e.ClientStart? {
      StartRises(z, e);
    } else if e.ClientOpen? {
      OpenLeaves(z, e.sid, e.ups, e.downs, e.size);
    } else {
      OthersLeave(z, e);
    }
  }

  /** A client whose OPENs with client data leave as their sids are allocated is never overtaken. */
  lemma {:induction false} EagerRises(clientWindow: nat, serverWindow: nat, es: seq<Event>)
    requires W_CONN <= clientWindow <= U32_MAX && W_CONN <= serverWindow <= U32_MAX && Eager(es)
    ensures Rising(Exec(Init(clientWindow, serverWindow), es).c.left)
  {
    if es != [] {
      var (init, e) := (es[..|es| - 1], es[|es| - 1]);
      var z := Exec(Init(clientWindow, serverWindow), init);
      EagerRises(clientWindow, serverWindow, init);
      Invariant(clientWindow, serverWindow, init);
      EagerStep(z, e);
    }
  }

  lemma EagerStraight(clientWindow: nat, serverWindow: nat, es: seq<Event>)
    requires W_CONN <= clientWindow <= U32_MAX && W_CONN <= serverWindow <= U32_MAX && Eager(es)
    ensures Straight(Exec(Init(clientWindow, serverWindow), es))
  {
    EagerRises(clientWindow, serverWindow, es);
    RisingStraight(Exec(Init(clientWindow, serverWindow), es).c.left);
  }

  /** Such a client never overruns its server, and gets no credit back twice short of a drain. */
  lemma EagerSafe(clientWindow: nat, serverWindow: nat, es: seq<Event>)
    requires W_CONN <= clientWindow <= U32_MAX && W_CONN <= serverWindow <= U32_MAX && Eager(es)
    ensures var z := Exec(Init(clientWindow, serverWindow), es);
            z.s.bufs.refused == 0 && z.c.bufs.refused == 0 && (!z.s.draining ==> z.refunded == 0)
  {
    EagerStraight(clientWindow, serverWindow, es);
    Invariant(clientWindow, serverWindow, es);
    Accounted(Exec(Init(clientWindow, serverWindow), es));
  }

  // ------------------------------------------------------------------
  // a run for every order that overtakes
  // ------------------------------------------------------------------

  lemma ExecSnoc(z: System, es: seq<Event>, e: Event)
    ensures Exec(z, es + [e]) == Next(Exec(z, es), e)
  {
    assert (es + [e])[..|es + [e]| - 1] == es;
  }

  lemma {:induction false} ExecSplit(z: System, es: seq<Event>, fs: seq<Event>)
    ensures Exec(z, es + fs) == Exec(Exec(z, es), fs)
    decreases |fs|
  {
    if fs == [] {
      assert es + fs == es;
    } else {
      ExecSplit(z, es, fs[..|fs| - 1]);
      assert (es + fs)[..|es + fs| - 1] == es + fs[..|fs| - 1];
    }
  }

  /** The highest unary sid among the first n. */
  function Highest(l: seq<Shape>, n: nat): nat
    requires n <= |l|
  {
    if n == 0 then 0 else if Streaming(l[n - 1]) then Highest(l, n - 1) else Max(Highest(l, n - 1), l[n - 1].sid)
  }

  lemma {:induction false} HighestAbove(l: seq<Shape>, n: nat, i: nat)
    requires i < n <= |l| && !Streaming(l[i])
    ensures l[i].sid <= Highest(l, n)
  {
    if i < n - 1 { HighestAbove(l, n - 1, i); }
  }

  /** Nothing is in flight, the client has not locked, and the server answered nothing. */
  predicate Still(z: System)
  {
    z.up == [] && z.down == [] && !z.c.locked && !z.s.acked && !z.s.draining && !z.s.stopped
  }

  /** Sid x is allocated and its OPEN is still to leave. */
  predicate Openable(z: System, x: nat) { x in z.c.waiting && x !in z.c.out.txs && K(x) !in z.c.bufs.rxs }

  /** Call u runs at both ends with nothing buffered. */
  predicate Running(z: System, u: nat)
  {
    ServerLive(z, u) && ClientLive(z, u) && z.c.bufs.rxs[K(u)].pinned == 0 && z.s.bufs.rxs[K(u)].pinned == 0
  }

  /** The OPEN of x left, and call u still runs if it did. */
  predicate SameBut(z: System, y: System, x: nat, u: nat)
  {
    && y.c.next == z.c.next && y.c.waiting == z.c.waiting - {x}
    && y.c.out.conn == z.c.out.conn && y.refunded == z.refunded
    && (u != x && Running(z, u) ==> Running(y, u))
  }

  /** A unary OPEN that is not late is admitted without a word. */
  lemma UnaryAdmitted(z: System, x: nat, u: nat) returns (es: seq<Event>)
    requires Still(z) && Openable(z, x) && !Late(z, x)
    ensures var y := Exec(z, es);
            && Still(y) && SameBut(z, y, x, u) && y.c.left == z.c.left + [Shape(x, false, false)]
            && y.s.known && y.s.hwm == Max(z.s.hwm, x) && Running(y, x)
  {
    es := [ClientOpen(x, false, false, 0), ServerHear(true, true, 0)];
    assert es == [] + [es[0]] + [es[1]];
    ExecSnoc(z, [], es[0]);
    ExecSnoc(z, [] + [es[0]], es[1]);
  }

  /** A late one is RESET before its call has spent anything. */
  lemma LateHeardFirst(z: System, x: nat, ups: bool, downs: bool, u: nat) returns (es: seq<Event>)
    requires Still(z) && Openable(z, x) && Late(z, x)
    ensures var y := Exec(z, es);
            && y.up == [] && y.down == [Reset(x)] && y.s == z.s.(seen := y.s.seen, heard := y.s.heard) && !y.c.locked
            && SameBut(z, y, x, u) && y.c.left == z.c.left + [Shape(x, ups, downs)]
            && y.c.bufs.ledger == z.c.bufs.ledger
            && x in y.c.out.txs && y.c.out.txs[x] == S.Tx(ups, FRESH.Assume(W_INIT), 0, 0, true)
            && K(x) in y.c.bufs.rxs && y.c.bufs.rxs[K(x)] == B.NewRx(W_INIT)
  {
    es := [ClientOpen(x, ups, downs, 0), ServerHear(true, true, 0)];
    assert es == [] + [es[0]] + [es[1]];
    ExecSnoc(z, [], es[0]);
    ExecSnoc(z, [] + [es[0]], es[1]);
  }

  /** Hearing a RESET before the lock ends the call and takes its whole spend back. */
  lemma ResetEnds(z: System, x: nat, rest: seq<Frame>, u: nat)
    requires z.up == [] && z.down == [Reset(x)] + rest && !z.c.locked
             && ClientLive(z, x) && z.c.bufs.rxs[K(x)].pinned == 0
    ensures var (y, t) := (Next(z, ClientHear(true)), z.c.out.txs[x]);
            && y.up == [Control(x)] && y.down == rest && !y.c.locked && y.s == z.s && y.c.left == z.c.left
            && y.c.next == z.c.next && y.c.waiting == z.c.waiting && !ClientLive(y, x)
            && y.c.out.conn == z.c.out.conn.Refund(t.tx.sent) && y.refunded == z.refunded + Max(0, t.tx.sent - t.held)
            && (u != x && Running(z, u) ==> Running(y, u))
  {
    ResetParts(z.(down := rest), x);
  }

  /** The abort of a call neither end runs is turned away again. */
  lemma AbortTurned(z: System, x: nat)
    requires z.up == [Control(x)] && !ServerLive(z, x)
    ensures Next(z, ServerHear(true, true, 0)) == z.(up := [], down := z.down + [Reset(x)])
  {
  }

  lemma ResetDropped(z: System, x: nat, rest: seq<Frame>)
    requires z.down == [Reset(x)] + rest && !ClientLive(z, x)
    ensures Next(z, ClientHear(true)) == z.(down := rest)
  {
  }

  /** The call ends with the RESET, and what it sends for that is turned away again. */
  lemma ResetHeard(z: System, x: nat, u: nat) returns (es: seq<Event>)
    requires z.up == [] && z.down == [Reset(x)] && !z.c.locked && ClientLive(z, x) && !ServerLive(z, x)
    requires z.c.out.txs[x].tx.sent == 0 && z.c.out.txs[x].held == 0 && z.c.bufs.rxs[K(x)].pinned == 0
    ensures var y := Exec(z, es);
            && y.up == [] && y.down == [] && !y.c.locked && y.s == z.s && y.c.left == z.c.left
            && y.c.next == z.c.next && y.c.waiting == z.c.waiting
            && y.c.out.conn == z.c.out.conn && y.refunded == z.refunded
            && (u != x && Running(z, u) ==> Running(y, u))
  {
    es := [ClientHear(true), ServerHear(true, true, 0), ClientHear(true)];
    assert es == [] + [es[0]] + [es[1]] + [es[2]];
    ExecSnoc(z, [], es[0]);
    ResetEnds(z, x, [], u);
    ExecSnoc(z, [] + [es[0]], es[1]);
    AbortTurned(Exec(z, [] + [es[0]]), x);
    ExecSnoc(z, [] + [es[0]] + [es[1]], es[2]);
    ResetDropped(Exec(z, [] + [es[0]] + [es[1]]), x, []);
  }

  lemma LateReset(z: System, x: nat, ups: bool, downs: bool, u: nat) returns (es: seq<Event>)
    requires Still(z) && Openable(z, x) && Late(z, x) && !ServerLive(z, x)
    ensures var y := Exec(z, es);
            && Still(y) && SameBut(z, y, x, u) && y.c.left == z.c.left + [Shape(x, ups, downs)]
            && y.s.known && y.s.hwm == z.s.hwm
  {
    var fs := LateHeardFirst(z, x, ups, downs, u);
    var gs := ResetHeard(Exec(z, fs), x, u);
    es := fs + gs;
    ExecSplit(z, fs, gs);
  }

  /** Sids are positive and used once. */
  ghost predicate Listed(l: seq<Shape>) { Distinct(l) && forall k :: 0 <= k < |l| ==> l[k].sid > 0 }

  /** The first n OPENs of l have left and were heard, none was answered, and nothing was spent. */
  predicate Calm(z: System, l: seq<Shape>, n: nat)
    requires n <= |l|
  {
    && Still(z) && z.c.out.conn == FRESH.Assume(W_CONN) && z.refunded == 0
    && z.c.left == l[..n] && (n > 0 ==> z.s.known) && z.s.hwm == Highest(l, n)
    && (z.s.hwm > 0 ==> Running(z, z.s.hwm)) && (forall k :: n <= k < |l| ==> l[k].sid in z.c.waiting)
  }

  ghost predicate Quiet(z: System, l: seq<Shape>, n: nat)
    requires n <= |l|
  {
    Inv(z) && Calm(z, l, n)
  }

  lemma {:induction false} InvRun(z: System, es: seq<Event>)
    requires Inv(z)
    ensures Inv(Exec(z, es))
    decreases |es|
  {
    if es != [] {
      InvRun(z, es[..|es| - 1]);
      StepInv(Exec(z, es[..|es| - 1]), es[|es| - 1]);
    }
  }

  lemma {:induction false} HighestIs(l: seq<Shape>, n: nat, k: nat)
    requires Listed(l) && n <= k < |l|
    ensures Highest(l, n) != l[k].sid
  {
    if n > 0 { HighestIs(l, n - 1, k); }
  }

  lemma WaitingOpenable(z: System, x: nat)
    requires Inv(z) && x in z.c.waiting
    ensures Openable(z, x) && !ServerLive(z, x) && !B.Live(z.s.bufs, K(x))
  {
    assert Sound(ViewOf(z, x)) && CallOk(ViewOf(z, x));
  }

  lemma QuietNext(z: System, y: System, l: seq<Shape>, n: nat)
    requires n < |l| && Listed(l) && Calm(z, l, n) && Still(y) && SameBut(z, y, l[n].sid, z.s.hwm)
    requires y.c.left == z.c.left + [l[n]] && y.s.known && y.s.hwm == Highest(l, n + 1)
    requires y.s.hwm == l[n].sid ==> Running(y, l[n].sid)
    requires y.s.hwm == z.s.hwm || y.s.hwm == l[n].sid
    ensures Calm(y, l, n + 1)
  {
    HighestIs(l, n, n);
    assert l[..n + 1] == l[..n] + [l[n]];
  }

  lemma QuietStep(z: System, l: seq<Shape>, n: nat) returns (es: seq<Event>)
    requires n < |l| && Listed(l) && Quiet(z, l, n) && (Streaming(l[n]) ==> Beaten(l, n))
    ensures Quiet(Exec(z, es), l, n + 1)
  {
    var x := l[n];
    WaitingOpenable(z, x.sid);
    if Streaming(x) {
      var i :| 0 <= i < n && !Streaming(l[i]) && l[i].sid > x.sid;
      HighestAbove(l, n, i);
    }
    HighestIs(l, n, n);
    if Late(z, x.sid) {
      es := LateReset(z, x.sid, x.ups, x.downs, z.s.hwm);
    } else {
      es := UnaryAdmitted(z, x.sid, z.s.hwm);
    }
    InvRun(z, es);
    QuietNext(z, Exec(z, es), l, n);
  }

  lemma {:induction false} QuietRun(z: System, l: seq<Shape>, n: nat) returns (es: seq<Event>)
    requires n <= |l| && Listed(l) && Quiet(z, l, 0) && Unanswered(l, n)
    ensures Quiet(Exec(z, es), l, n)
  {
    es := [];
    if n > 0 {
      var fs := QuietRun(z, l, n - 1);
      var gs := QuietStep(Exec(z, fs), l, n - 1);
      es := fs + gs;
      ExecSplit(z, fs, gs);
    }
  }

  function Top(l: seq<Shape>): (m: nat)
    ensures forall k :: 0 <= k < |l| ==> l[k].sid <= m
  {
    if l == [] then 0 else Max(Top(l[..|l| - 1]), l[|l| - 1].sid)
  }

  /** Every sid of l is allocated before any OPEN leaves. */
  lemma {:induction false} Allocate(clientWindow: nat, serverWindow: nat, m: nat) returns (es: seq<Event>)
    ensures var (z, i) := (Exec(Init(clientWindow, serverWindow), es), Init(clientWindow, serverWindow));
            z == i.(c := i.c.(next := m, waiting := z.c.waiting)) && forall x :: 0 < x <= m ==> x in z.c.waiting
  {
    es := [];
    if m > 0 {
      var fs := Allocate(clientWindow, serverWindow, m - 1);
      es := fs + [ClientAlloc];
      ExecSnoc(Init(clientWindow, serverWindow), fs, ClientAlloc);
    }
  }

  lemma Begin(clientWindow: nat, serverWindow: nat, l: seq<Shape>) returns (es: seq<Event>)
    requires W_CONN <= clientWindow <= U32_MAX && W_CONN <= serverWindow <= U32_MAX && Listed(l)
    ensures Quiet(Exec(Init(clientWindow, serverWindow), es), l, 0)
  {
    es := Allocate(clientWindow, serverWindow, Top(l));
    Invariant(clientWindow, serverWindow, es);
  }

  // ------------------------------------------------------------------
  // credit that comes back twice
  // ------------------------------------------------------------------

  /** A call the server has turned away sends one frame: its credit is held back for the client. */
  lemma SpendsOne(z: System, x: nat) returns (es: seq<Event>)
    requires z.up == [] && z.down == [Reset(x)] && !z.c.locked && z.s.known
             && !B.Live(z.s.bufs, K(x)) && ClientLive(z, x)
    requires z.c.out.conn == FRESH.Assume(W_CONN) && z.c.out.txs[x] == S.Tx(true, FRESH.Assume(W_INIT), 0, 0, true)
    requires z.s.bufs.ledger.window >= W_CONN && z.s.bufs.ledger.outstanding == 0 && z.s.bufs.ledger.Held(0) == 0
    ensures var y := Exec(z, es);
            && y.up == [] && y.down == [Reset(x)] + [Reset(x)]
            && y.c == z.c.(out := y.c.out) && y.refunded == z.refunded
            && y.c.out.conn == z.c.out.conn.(sent := 1)
            && x in y.c.out.txs && y.c.out.txs == z.c.out.txs[x := y.c.out.txs[x]]
            && y.c.out.txs[x] == S.Tx(true, FRESH.Assume(W_INIT).(sent := 1), 0, 0, true)
            && y.s == z.s.(bufs := z.s.bufs.(ledger := y.s.bufs.ledger))
            && y.s.bufs.ledger.window == z.s.bufs.ledger.window
            && y.s.bufs.ledger.outstanding == 0 && y.s.bufs.ledger.Held(0) == 1
  {
    es := [ClientTake(x), ClientSend(x), ServerHear(true, true, 0)];
    assert es == [] + [es[0]] + [es[1]] + [es[2]];
    ExecSnoc(z, [], es[0]);
    ExecSnoc(z, [] + [es[0]], es[1]);
    ExecSnoc(z, [] + [es[0]] + [es[1]], es[2]);
  }

  /** Nothing was spent, so nothing is owed. */
  lemma NothingOwed(z: System)
    requires Inv(z) && z.c.out.conn == FRESH.Assume(W_CONN) && z.refunded == 0
    ensures z.s.bufs.ledger.outstanding == 0 && z.s.bufs.ledger.Held(0) == 0 && z.s.bufs.ledger.window >= W_CONN
  {
    Accounted(z);
  }

  /** The client has all its credit, call u runs, and the server holds one credit back for it. */
  predicate Owing(z: System, u: nat)
  {
    && !z.c.locked && z.s.known && !z.s.draining && !z.s.stopped
    && Running(z, u) && z.c.out.conn == FRESH.Assume(W_CONN)
    && z.s.bufs.ledger.outstanding == 0 && z.s.bufs.ledger.Held(0) == 1
  }

  /** The overtaken call spends a credit, gets it back with the RESET, and the server owes it as well. */
  lemma SpentAndBack(z: System, x: nat, downs: bool, u: nat) returns (es: seq<Event>)
    requires Still(z) && Openable(z, x) && Late(z, x) && !B.Live(z.s.bufs, K(x)) && u != x && Running(z, u)
    requires z.c.out.conn == FRESH.Assume(W_CONN) && z.refunded == 0
    requires z.s.bufs.ledger.window >= W_CONN && z.s.bufs.ledger.outstanding == 0 && z.s.bufs.ledger.Held(0) == 0
    ensures var y := Exec(z, es);
            && Owing(y, u) && y.refunded == 1 && y.c.left == z.c.left + [Shape(x, true, downs)]
            && y.up == [Control(x)] && y.down == [Reset(x)] && !ClientLive(y, x) && !ServerLive(y, x)
            && y.s.hwm == z.s.hwm && y.s.bufs.ledger.window == z.s.bufs.ledger.window
  {
    var fs := LateHeardFirst(z, x, true, downs, u);
    var gs := SpendsOne(Exec(z, fs), x);
    ExecSplit(z, fs, gs);
    ResetEnds(Exec(z, fs + gs), x, [Reset(x)], u);
    es := fs + gs + [ClientHear(true)];
    ExecSnoc(z, fs + gs, ClientHear(true));
  }

  lemma BeatenIsLate(z: System, l: seq<Shape>, j: nat)
    requires j < |l| && Listed(l) && Quiet(z, l, j) && Beaten(l, j)
    ensures Late(z, l[j].sid) && z.s.hwm > 0 && z.s.hwm != l[j].sid
            && Openable(z, l[j].sid) && !B.Live(z.s.bufs, K(l[j].sid))
    ensures z.s.bufs.ledger.window >= W_CONN && z.s.bufs.ledger.outstanding == 0 && z.s.bufs.ledger.Held(0) == 0
  {
    var i :| 0 <= i < j && !Streaming(l[i]) && l[i].sid > l[j].sid;
    HighestAbove(l, j, i);
    WaitingOpenable(z, l[j].sid);
    NothingOwed(z);
    HighestIs(l, j, j);
  }

  lemma ComesTwice(z: System, l: seq<Shape>, j: nat) returns (es: seq<Event>)
    requires j < |l| && Listed(l) && Calm(z, l, j) && l[j].ups
    requires Late(z, l[j].sid) && z.s.hwm > 0 && z.s.hwm != l[j].sid
             && Openable(z, l[j].sid) && !B.Live(z.s.bufs, K(l[j].sid))
    requires z.s.bufs.ledger.window >= W_CONN && z.s.bufs.ledger.outstanding == 0 && z.s.bufs.ledger.Held(0) == 0
    ensures var (y, x) := (Exec(z, es), l[j].sid);
            && Owing(y, z.s.hwm) && y.refunded == 1 && y.c.left == l[..j + 1]
            && y.up == [Control(x)] && y.down == [Reset(x)] && !ClientLive(y, x) && !ServerLive(y, x)
            && y.s.hwm == z.s.hwm && y.s.bufs.ledger.window == z.s.bufs.ledger.window
  {
    es := SpentAndBack(z, l[j].sid, l[j].downs, z.s.hwm);
    assert l[..j + 1] == l[..j] + [l[j]];
  }

  /** Everything up to the second return, for an order that overtakes. */
  lemma RunsTwice(clientWindow: nat, serverWindow: nat, l: seq<Shape>) returns (es: seq<Event>, x: nat)
    requires W_CONN <= clientWindow <= U32_MAX && W_CONN <= serverWindow <= U32_MAX && Listed(l) && Overtaken(l)
    ensures var y := Exec(Init(clientWindow, serverWindow), es);
            && Inv(y) && Owing(y, y.s.hwm) && y.refunded == 1 && y.c.left <= l
            && y.up == [Control(x)] && y.down == [Reset(x)] && !ClientLive(y, x) && !ServerLive(y, x)
            && y.s.bufs.ledger.window == serverWindow
  {
    var j :| 0 <= j < |l| && l[j].ups && Unanswered(l, j + 1);
    var z := Init(clientWindow, serverWindow);
    var fs := Begin(clientWindow, serverWindow, l);
    var gs := QuietRun(Exec(z, fs), l, j);
    ExecSplit(z, fs, gs);
    BeatenIsLate(Exec(z, fs + gs), l, j);
    var hs := ComesTwice(Exec(z, fs + gs), l, j);
    ExecSplit(z, fs + gs, hs);
    es, x := fs + gs + hs, l[j].sid;
    Invariant(clientWindow, serverWindow, es);
    Windows(z, es);
  }

  /** The shortest such order: a unary OPEN passes one with client data. */
  lemma SwapOvertakes()
    ensures Listed([Shape(2, false, false), Shape(1, true, false)])
    ensures Overtaken([Shape(2, false, false), Shape(1, true, false)])
  {
    var l := [Shape(2, false, false), Shape(1, true, false)];
    assert !Streaming(l[0]) && l[0].sid > l[1].sid;
    assert l[1].ups && Unanswered(l, 2);
  }

  /** Credit comes back once, in every run that lets OPENs leave in order l before the lock, if and only
      if l does not overtake. */
  lemma ReturnedOnceIff(clientWindow: nat, serverWindow: nat, l: seq<Shape>)
    requires W_CONN <= clientWindow <= U32_MAX && W_CONN <= serverWindow <= U32_MAX && Listed(l)
    ensures (forall es :: var z := Exec(Init(clientWindow, serverWindow), es);
                          z.c.left <= l && !z.s.draining ==> z.refunded == 0)
            <==> !Overtaken(l)
  {
    if Overtaken(l) {
      var es, _ := RunsTwice(clientWindow, serverWindow, l);
      assert Exec(Init(clientWindow, serverWindow), es).refunded == 1;
    } else {
      forall es
        ensures var z := Exec(Init(clientWindow, serverWindow), es); z.c.left <= l && !z.s.draining ==> z.refunded == 0
      {
        var z := Exec(Init(clientWindow, serverWindow), es);
        Invariant(clientWindow, serverWindow, es);
        Accounted(z);
        if z.c.left <= l && Overtaken(z.c.left) { OvertakenStays(z.c.left, l); }
      }
    }
  }

  // ------------------------------------------------------------------
  // and a window that is overrun
  // ------------------------------------------------------------------

  /** Nothing is in flight and the client has locked. */
  predicate Clear(z: System)
  {
    z.up == [] && z.down == [] && z.c.locked && z.s.known && !z.s.draining && !z.s.stopped
  }

  /** What is still in flight of the overtaken call comes to nothing. */
  lemma Subsides(z: System, x: nat) returns (es: seq<Event>)
    requires z.up == [Control(x)] && z.down == [Reset(x)] && !ClientLive(z, x) && !ServerLive(z, x)
    ensures Exec(z, es) == z.(up := [], down := [])
  {
    es := [ServerHear(true, true, 0), ClientHear(true), ClientHear(true)];
    assert es == [] + [es[0]] + [es[1]] + [es[2]];
    ExecSnoc(z, [], es[0]);
    AbortTurned(z, x);
    ExecSnoc(z, [] + [es[0]], es[1]);
    ResetDropped(Exec(z, [] + [es[0]]), x, [Reset(x)]);
    ExecSnoc(z, [] + [es[0]] + [es[1]], es[2]);
    ResetDropped(Exec(z, [] + [es[0]] + [es[1]]), x, []);
  }

  /** The unary call ends, and its terminal locks the client. */
  lemma Locks(z: System, u: nat) returns (es: seq<Event>)
    requires z.up == [] && z.down == [] && Owing(z, u) && z.s.bufs.ledger.window >= W_CONN
    ensures var y := Exec(z, es);
            && Clear(y) && y.c.left == z.c.left && y.c.next == z.c.next && y.s.hwm == z.s.hwm
            && y.c.out.conn == Sender(true, true, z.s.bufs.ledger.window, 0) && y.s.bufs.ledger == z.s.bufs.ledger
  {
    es := [ServerFinish(u, true), ClientHear(true)];
    assert es == [] + [es[0]] + [es[1]];
    ExecSnoc(z, [], es[0]);
    ExecSnoc(z, [] + [es[0]], es[1]);
  }

  /** Call a has sent n frames, all of them in the server's buffer, with credit for many more. */
  predicate Line(z: System, a: nat, n: nat)
  {
    && ClientLive(z, a) && ServerLive(z, a) && z.c.out.txs[a] == S.Tx(true, Sender(true, true, U32_MAX, n), 0, 0, true)
    && z.s.bufs.rxs[K(a)].win == U32_MAX && z.s.bufs.rxs[K(a)].queued == z.s.bufs.rxs[K(a)].pinned == n
  }

  /** A call with client data is opened after the lock and admitted with the largest stream window. */
  lemma AdmitsWide(z: System, other: nat) returns (es: seq<Event>)
    requires Clear(z) && z.c.next + 1 !in z.c.out.txs && K(z.c.next + 1) !in z.c.bufs.rxs && z.s.hwm <= z.c.next
    ensures var (y, a) := (Exec(z, es), z.c.next + 1);
            && y.up == [] && y.down == [Head(a, U32_MAX, z.s.bufs.ledger.window)] && Clear(y.(down := []))
            && ClientLive(y, a) && ServerLive(y, a) && y.c.out.txs[a] == S.Tx(true, FRESH.Assume(W_INIT), 0, 0, true)
            && y.s.bufs.rxs[K(a)] == B.NewRx(U32_MAX) && y.c.next == a && y.s.hwm == a && y.c.left == z.c.left
            && y.c.out.conn == z.c.out.conn && y.s.bufs.ledger == z.s.bufs.ledger
            && (other != a && Line(z, other, 0) ==> Line(y, other, 0))
  {
    es := [ClientStart(true, false, 0), ServerHear(true, true, U32_MAX)];
    assert es == [] + [es[0]] + [es[1]];
    ExecSnoc(z, [], es[0]);
    ExecSnoc(z, [] + [es[0]], es[1]);
  }

  lemma OpensWide(z: System, other: nat) returns (es: seq<Event>)
    requires Clear(z) && z.c.out.conn.observed && z.s.hwm <= z.c.next
    requires z.c.next + 1 !in z.c.out.txs && K(z.c.next + 1) !in z.c.bufs.rxs
    ensures var (y, a) := (Exec(z, es), z.c.next + 1);
            && Clear(y) && Line(y, a, 0) && y.c.next == a && y.s.hwm == a && y.c.left == z.c.left
            && y.c.out.conn == z.c.out.conn && y.s.bufs.ledger == z.s.bufs.ledger
            && (other != a && Line(z, other, 0) ==> Line(y, other, 0))
  {
    var fs := AdmitsWide(z, other);
    es := fs + [ClientHear(true)];
    ExecSnoc(z, fs, ClientHear(true));
  }

  /** One frame of call a, from the send to the server's buffer. */
  lemma OneThrough(z: System, a: nat, n: nat, other: nat, m: nat) returns (es: seq<Event>)
    requires Clear(z) && Line(z, a, n) && n < U32_MAX && !z.c.out.conn.Empty() && z.s.bufs.ledger.Admits()
    requires z.s.bufs.ledger.window > 0
    ensures var y := Exec(z, es);
            && Clear(y) && Line(y, a, n + 1) && y.c.left == z.c.left
            && y.c.out.conn == z.c.out.conn.(sent := z.c.out.conn.sent + 1)
            && y.s.bufs.ledger == z.s.bufs.ledger.Admit()
            && (other != a && Line(z, other, m) ==> Line(y, other, m))
  {
    es := [ClientTake(a), ClientSend(a), ServerHear(true, true, 0)];
    assert es == [] + [es[0]] + [es[1]] + [es[2]];
    ExecSnoc(z, [], es[0]);
    ExecSnoc(z, [] + [es[0]], es[1]);
    ExecSnoc(z, [] + [es[0]] + [es[1]], es[2]);
  }

  /** One more than fits. */
  lemma OneRefused(z: System, a: nat, n: nat) returns (es: seq<Event>)
    requires Clear(z) && Line(z, a, n) && n < U32_MAX && !z.c.out.conn.Empty() && !z.s.bufs.ledger.Admits()
    ensures var y := Exec(z, es); y.c.left == z.c.left && y.s.bufs.refused == z.s.bufs.refused + 1
  {
    es := [ClientTake(a), ClientSend(a), ServerHear(true, true, 0)];
    assert es == [] + [es[0]] + [es[1]] + [es[2]];
    ExecSnoc(z, [], es[0]);
    ExecSnoc(z, [] + [es[0]], es[1]);
    ExecSnoc(z, [] + [es[0]] + [es[1]], es[2]);
  }

  /** Call a has filled n slots of the server's window, which holds a stray credit back. */
  predicate Filled(z: System, w: nat, a: nat, b: nat, n: nat)
  {
    && Clear(z) && a != b && Line(z, a, n) && Line(z, b, 0) && z.c.out.conn == Sender(true, true, w, n)
    && z.s.bufs.ledger.window == w && z.s.bufs.ledger.outstanding == n && z.s.bufs.ledger.Held(0) == 1
  }

  lemma {:induction false} Fills(z: System, w: nat, a: nat, b: nat, n: nat) returns (es: seq<Event>)
    requires 0 < w <= U32_MAX && n <= w && Filled(z, w, a, b, 0)
    ensures Filled(Exec(z, es), w, a, b, n) && Exec(z, es).c.left == z.c.left
  {
    es := [];
    if n > 0 {
      var fs := Fills(z, w, a, b, n - 1);
      var gs := OneThrough(Exec(z, fs), a, n - 1, b, 0);
      es := fs + gs;
      ExecSplit(z, fs, gs);
    }
  }

  /** One frame leaves the full window, and two credits are granted for it. */
  lemma TwoForOne(z: System, w: nat, a: nat, b: nat) returns (es: seq<Event>)
    requires 0 < w <= U32_MAX && Filled(z, w, a, b, w)
    ensures var y := Exec(z, es);
            && Clear(y) && Line(y, b, 0) && y.c.left == z.c.left && y.c.out.conn == Sender(true, true, w + 2, w)
            && y.s.bufs.ledger.window == w && y.s.bufs.ledger.outstanding == w - 1
  {
    es := [ServerRecv(a, false), ClientHear(true)];
    assert es == [] + [es[0]] + [es[1]];
    ExecSnoc(z, [], es[0]);
    ExecSnoc(z, [] + [es[0]], es[1]);
  }

  lemma Overruns(z: System, w: nat, a: nat, b: nat) returns (es: seq<Event>)
    requires 0 < w <= U32_MAX && Filled(z, w, a, b, 0)
    ensures var y := Exec(z, es); y.c.left == z.c.left && y.s.bufs.refused > 0
  {
    var fs := Fills(z, w, a, b, w);
    var gs := TwoForOne(Exec(z, fs), w, a, b);
    ExecSplit(z, fs, gs);
    var hs := OneThrough(Exec(z, fs + gs), b, 0, a, 0);
    ExecSplit(z, fs + gs, hs);
    var ks := OneRefused(Exec(z, fs + gs + hs), b, 1);
    es := fs + gs + hs + ks;
    ExecSplit(z, fs + gs + hs, ks);
  }

  lemma NextUnused(z: System)
    requires Inv(z)
    ensures z.c.next + 1 !in z.c.out.txs && K(z.c.next + 1) !in z.c.bufs.rxs
    ensures z.s.hwm in z.c.out.txs ==> z.s.hwm <= z.c.next
  {
  }

  /** Two calls are opened behind the lock, and the window is overrun. */
  lemma FromLock(z: System, w: nat) returns (es: seq<Event>)
    requires Inv(z) && Clear(z) && z.s.hwm <= z.c.next && 0 < w <= U32_MAX && z.c.out.conn == Sender(true, true, w, 0)
    requires z.s.bufs.ledger.window == w && z.s.bufs.ledger.outstanding == 0 && z.s.bufs.ledger.Held(0) == 1
    ensures var y := Exec(z, es); y.c.left == z.c.left && y.s.bufs.refused > 0
  {
    var (a, b) := (z.c.next + 1, z.c.next + 2);
    NextUnused(z);
    var fs := OpensWide(z, 0);
    InvRun(z, fs);
    NextUnused(Exec(z, fs));
    var gs := OpensWide(Exec(z, fs), a);
    ExecSplit(z, fs, gs);
    var hs := Overruns(Exec(z, fs + gs), w, a, b);
    es := fs + gs + hs;
    ExecSplit(z, fs + gs, hs);
  }

  lemma RunsOver(clientWindow: nat, serverWindow: nat, l: seq<Shape>) returns (es: seq<Event>)
    requires W_CONN <= clientWindow <= U32_MAX && W_CONN <= serverWindow <= U32_MAX && Listed(l) && Overtaken(l)
    ensures var y := Exec(Init(clientWindow, serverWindow), es); y.c.left <= l && y.s.bufs.refused > 0
  {
    var z := Init(clientWindow, serverWindow);
    var fs, x := RunsTwice(clientWindow, serverWindow, l);
    var gs := Subsides(Exec(z, fs), x);
    ExecSplit(z, fs, gs);
    NextUnused(Exec(z, fs));
    var hs := Locks(Exec(z, fs + gs), Exec(z, fs).s.hwm);
    ExecSplit(z, fs + gs, hs);
    Invariant(clientWindow, serverWindow, fs + gs + hs);
    var ks := FromLock(Exec(z, fs + gs + hs), serverWindow);
    es := fs + gs + hs + ks;
    ExecSplit(z, fs + gs + hs, ks);
  }

  /** No server is overrun, in every run that lets OPENs leave in order l before the lock, if and only if
      l does not overtake. */
  lemma NeverOverrunIff(clientWindow: nat, serverWindow: nat, l: seq<Shape>)
    requires W_CONN <= clientWindow <= U32_MAX && W_CONN <= serverWindow <= U32_MAX && Listed(l)
    ensures (forall es :: var z := Exec(Init(clientWindow, serverWindow), es); z.c.left <= l ==> z.s.bufs.refused == 0)
            <==> !Overtaken(l)
  {
    if Overtaken(l) {
      var es := RunsOver(clientWindow, serverWindow, l);
      assert Exec(Init(clientWindow, serverWindow), es).s.bufs.refused > 0;
    } else {
      forall es
        ensures var z := Exec(Init(clientWindow, serverWindow), es); z.c.left <= l ==> z.s.bufs.refused == 0
      {
        var z := Exec(Init(clientWindow, serverWindow), es);
        Invariant(clientWindow, serverWindow, es);
        Accounted(z);
        if z.c.left <= l && Overtaken(z.c.left) { OvertakenStays(z.c.left, l); }
      }
    }
  }
}
