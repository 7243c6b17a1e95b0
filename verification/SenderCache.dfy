/** The bounded memory of connection senders at the server: containers of client incarnations under a
    cap, the ledger's stash of the senders of evicted ones under the same cap, and a server that never
    evicts anything, which the bounded one cannot be told from while few enough incarnations exist. */
module SenderCache {
  import opened Sums
  import opened Credit

  /** An insertion-ordered map of held sender positions. */
  datatype Stash = Stash(order: seq<nat>, at: map<nat, Sender>)

  ghost predicate ValidStash(s: Stash)
  {
    && (forall i, j :: 0 <= i < j < |s.order| ==> s.order[i] != s.order[j])
    && (forall e :: e in s.order <==> e in s.at)
  }

  function Put(s: Stash, e: nat, p: Sender): Stash
  {
    Stash(if e in s.at then s.order else s.order + [e], s.at[e := p])
  }

  function Without(order: seq<nat>, e: nat): seq<nat>
  {
    if order == [] then []
    else if order[0] == e then order[1..]
    else [order[0]] + Without(order[1..], e)
  }

  function Remove(s: Stash, e: nat): Stash
  {
    if e in s.at then Stash(Without(s.order, e), s.at - {e}) else s
  }

  /** The ledger of one transport peer with its stash. */
  datatype Flow = Flow(ledger: Ledger, stash: Stash, cap: nat)

  /** Past the cap the oldest held position goes, with whatever was held back for it. */
  function Trimmed(f: Flow): Flow
    decreases |f.stash.order|
  {
    if |f.stash.order| <= f.cap then f
    else
      var oldest := f.stash.order[0];
      Trimmed(Flow(f.ledger.(pending := f.ledger.pending - {oldest}),
                   Stash(f.stash.order[1..], f.stash.at - {oldest}), f.cap))
  }

  function Stashed(f: Flow, e: nat, p: Sender): Flow
  {
    if f.cap == 0 then f.(ledger := f.ledger.(pending := f.ledger.pending - {e}))
    else Trimmed(f.(stash := Put(f.stash, e, p)))
  }

  function Held(f: Flow, e: nat): Option<Sender> { if e in f.stash.at then Some(f.stash.at[e]) else None }

  function CreditEvicted(f: Flow, e: nat, n: nat): Flow
  {
    if e in f.stash.at then f.(stash := f.stash.(at := f.stash.at[e := f.stash.at[e].Grant(n)])) else f
  }

  function UnadmittedEvicted(f: Flow, e: nat, n: nat): (Flow, nat)
  {
    if e !in f.stash.at then (f, 0)
    else var (l, g) := f.ledger.Unadmitted(e, n); (f.(ledger := l), g)
  }

  lemma {:induction false} WithoutIs(order: seq<nat>, e: nat)
    requires forall i, j :: 0 <= i < j < |order| ==> order[i] != order[j]
    ensures var r := Without(order, e);
            && (forall i, j :: 0 <= i < j < |r| ==> r[i] != r[j])
            && (forall x :: x in r <==> x in order && x != e)
            && |r| == |order| - (if e in order then 1 else 0)
  {
    if order != [] && order[0] != e {
      WithoutIs(order[1..], e);
      assert order == [order[0]] + order[1..];
      assert order[0] !in order[1..];
    } else if order != [] {
      assert order == [e] + order[1..];
    }
  }

  lemma RemoveValid(s: Stash, e: nat)
    requires ValidStash(s)
    ensures ValidStash(Remove(s, e)) && Remove(s, e).at == s.at - {e}
  {
    if e in s.at { WithoutIs(s.order, e); }
  }

  // ------------------------------------------------------------------
  // a slot: the containers of one transport peer, and their ledger
  // ------------------------------------------------------------------

  /** `held` counts the sends that took a connection credit of this container and have neither
      transmitted nor given it back; they may outlive their calls, and the container. */
  datatype Container = Container(sender: Sender, live: nat, created: int, held: nat)

  /** `strays` counts, per incarnation, the held sends whose container is gone; `straying` is history,
      how many there ever were. */
  datatype Slot = Slot(conts: map<nat, Container>, flow: Flow, grants: seq<(nat, nat)>,
                       strays: map<nat, nat>, straying: nat)

  datatype Event =
    /** An OPEN of incarnation e, admitted or not, advertising `window`; `victim` is the container the
        cap evicts, if it has to. */
    | Open(e: nat, window: nat, now: int, admit: bool, victim: nat)
    | Finish(e: nat)
    /** A send of a running call takes a credit, puts its frame on the wire, or gives the credit back. */
    | Take(e: nat)
    | Spend(e: nat)
    | Undo(e: nat)
    /** A send whose container is gone gives its credit back, to the container it captured. */
    | LateUndo(e: nat)
    | Granted(e: nat, n: nat)
    | Buffer
    | Retire(e: nat, n: nat)
    | Unbuffered(e: nat)

  function Dead(s: Slot): set<nat> { set e | e in s.conts && s.conts[e].live == 0 }

  predicate Oldest(s: Slot, v: nat)
  {
    v in Dead(s) && forall e :: e in Dead(s) ==> s.conts[v].created <= s.conts[e].created
  }

  function Count(m: map<nat, nat>, e: nat): nat { if e in m then m[e] else 0 }

  /** Making room for one more container. */
  function Evict(s: Slot, dead: nat, victim: nat): Slot
    requires |Dead(s)| >= dead ==> victim in s.conts
  {
    if |Dead(s)| < dead then s
    else
      var c := s.conts[victim];
      s.(conts := s.conts - {victim}, flow := Stashed(s.flow, victim, c.sender),
         strays := if c.held == 0 then s.strays else s.strays[victim := Count(s.strays, victim) + c.held],
         straying := s.straying + c.held)
  }

  /** The incarnation takes its held position out before the cap puts another one in. */
  function Ensure(s: Slot, dead: nat, e: nat, now: int, victim: nat): Slot
    requires e !in s.conts && (|Dead(s)| >= dead ==> victim in s.conts)
  {
    var held := Held(s.flow, e);
    var y := Evict(s.(flow := s.flow.(stash := Remove(s.flow.stash, e))), dead, victim);
    y.(conts := y.conts[e := Container(if held.Some? then held.value else FRESH, 0, now, 0)])
  }

  function Opened(s: Slot, dead: nat, e: nat, window: nat, now: int, admit: bool, victim: nat): Slot
    requires e !in s.conts && |Dead(s)| >= dead ==> victim in s.conts
  {
    Entered(if e in s.conts then s else Ensure(s, dead, e, now, victim), e, window, admit)
  }

  /** The OPEN's advertisement reaches the container; an admitted call is live. */
  function Entered(s: Slot, e: nat, window: nat, admit: bool): Slot
    requires e in s.conts
  {
    var c := s.conts[e];
    s.(conts := s.conts[e := c.(sender := c.sender.Observe(window), live := c.live + (if admit then 1 else 0))])
  }

  predicate Busy(s: Slot, e: nat) { e in s.conts && s.conts[e].live > 0 }

  function Emit(gs: seq<(nat, nat)>, e: nat, g: nat): seq<(nat, nat)> { if g == 0 then gs else gs + [(e, g)] }

  function SetSender(s: Slot, e: nat, p: Sender): Slot
    requires e in s.conts
  {
    s.(conts := s.conts[e := s.conts[e].(sender := p)])
  }

  function Hold(s: Slot, e: nat, n: nat): Slot
    requires e in s.conts
  {
    s.(conts := s.conts[e := s.conts[e].(held := n)])
  }

  /** The container an OPEN names for eviction is an oldest one without calls, when one has to go; and a
      credit that is spent or given back was taken. */
  predicate Proper(s: Slot, dead: nat, ev: Event)
  {
    match ev
    case Open(e, _, _, _, victim) => e !in s.conts && |Dead(s)| >= dead ==> Oldest(s, victim)
    case Spend(e) => Busy(s, e) && s.conts[e].held > 0
    case Undo(e) => e in s.conts && s.conts[e].held > 0
    case LateUndo(e) => Count(s.strays, e) > 0
    case _ => true
  }

  function Next(s: Slot, dead: nat, ev: Event): Slot
    requires Proper(s, dead, ev)
  {
    match ev
    case Open(e, window, now, admit, victim) => Opened(s, dead, e, window, now, admit, victim)
    case Finish(e) => if Busy(s, e) then s.(conts := s.conts[e := s.conts[e].(live := s.conts[e].live - 1)]) else s
    case Take(e) =>
      if !Busy(s, e) || s.conts[e].sender.Empty() then s
      else Hold(SetSender(s, e, s.conts[e].sender.Take()), e, s.conts[e].held + 1)
    case Spend(e) => Hold(s, e, s.conts[e].held - 1)
    case Undo(e) => Hold(SetSender(s, e, s.conts[e].sender.Refund(1)), e, s.conts[e].held - 1)
    case LateUndo(e) => s.(strays := s.strays[e := s.strays[e] - 1])
    case Granted(e, n) =>
      if e in s.conts then SetSender(s, e, s.conts[e].sender.Grant(n)) else s.(flow := CreditEvicted(s.flow, e, n))
    case Buffer => s.(flow := s.flow.(ledger := s.flow.ledger.Admit()))
    case Retire(e, n) =>
      var (l, g) := s.flow.ledger.Retire(e, n, true);
      s.(flow := s.flow.(ledger := l), grants := Emit(s.grants, e, g))
    case Unbuffered(e) =>
      if e in s.conts then
        var (l, g) := s.flow.ledger.Unadmitted(e, 1);
        s.(flow := s.flow.(ledger := l), grants := Emit(s.grants, e, g))
      else
        var (f, g) := UnadmittedEvicted(s.flow, e, 1);
        s.(flow := f, grants := Emit(s.grants, e, g))
  }

  function Start(dead: nat, window: nat): Slot
  {
    Slot(map[], Flow(Ledger(window, 0, map[]), Stash([], map[]), dead), [], map[], 0)
  }

  /** The slot after each event of es, None once an event names a victim that is not the oldest. */
  function Run(dead: nat, window: nat, es: seq<Event>): Option<Slot>
    decreases |es|
  {
    if es == [] then Some(Start(dead, window))
    else
      var s := Run(dead, window, es[..|es| - 1]);
      if s.Some? && Proper(s.value, dead, es[|es| - 1]) then Some(Next(s.value, dead, es[|es| - 1])) else None
  }

  // ------------------------------------------------------------------
  // a server that never evicts
  // ------------------------------------------------------------------

  datatype Forever = Forever(at: map<nat, Sender>, live: map<nat, nat>, ledger: Ledger, grants: seq<(nat, nat)>,
                             held: map<nat, nat>)

  function LiveOf(f: Forever, e: nat): nat { if e in f.live then f.live[e] else 0 }

  function EnteredForever(f: Forever, e: nat, window: nat, admit: bool): Forever
    requires e in f.at
  {
    f.(at := f.at[e := f.at[e].Observe(window)], live := f.live[e := LiveOf(f, e) + (if admit then 1 else 0)])
  }

  /** Wherever its call is by now, a send that gives its credit back reaches the sender it took it from. */
  function GivenBack(f: Forever, e: nat): Forever
  {
    if Count(f.held, e) == 0 || e !in f.at then f
    else f.(at := f.at[e := f.at[e].Refund(1)], held := f.held[e := f.held[e] - 1])
  }

  function NextForever(f: Forever, ev: Event): Forever
  {
    match ev
    case Open(e, window, _, admit, _) =>
      EnteredForever(if e in f.at then f else f.(at := f.at[e := FRESH]), e, window, admit)
    case Finish(e) => if LiveOf(f, e) > 0 then f.(live := f.live[e := LiveOf(f, e) - 1]) else f
    case Take(e) =>
      if e !in f.at || LiveOf(f, e) == 0 || f.at[e].Empty() then f
      else f.(at := f.at[e := f.at[e].Take()], held := f.held[e := Count(f.held, e) + 1])
    case Spend(e) => if Count(f.held, e) > 0 then f.(held := f.held[e := f.held[e] - 1]) else f
    case Undo(e) => GivenBack(f, e)
    case LateUndo(e) => GivenBack(f, e)
    case Granted(e, n) => if e in f.at then f.(at := f.at[e := f.at[e].Grant(n)]) else f
    case Buffer => f.(ledger := f.ledger.Admit())
    case Retire(e, n) =>
      var (l, g) := f.ledger.Retire(e, n, true);
      f.(ledger := l, grants := Emit(f.grants, e, g))
    case Unbuffered(e) =>
      if e !in f.at then f
      else
        var (l, g) := f.ledger.Unadmitted(e, 1);
        f.(ledger := l, grants := Emit(f.grants, e, g))
  }

  function RunForever(window: nat, es: seq<Event>): Forever
    decreases |es|
  {
    if es == [] then Forever(map[], map[], Ledger(window, 0, map[]), [], map[])
    else NextForever(RunForever(window, es[..|es| - 1]), es[|es| - 1])
  }

  // ------------------------------------------------------------------
  // the refinement
  // ------------------------------------------------------------------

  /** The sender position of e, wherever the slot keeps it. */
  function Position(s: Slot, e: nat): Option<Sender>
  {
    if e in s.conts then Some(s.conts[e].sender) else Held(s.flow, e)
  }

  function PositionOf(f: Forever, e: nat): Option<Sender> { if e in f.at then Some(f.at[e]) else None }

  /** The two servers agree about incarnation e. */
  predicate Agree(s: Slot, f: Forever, e: nat)
  {
    && Position(s, e) == PositionOf(f, e)
    && LiveOf(f, e) == (if e in s.conts then s.conts[e].live else 0)
    && Count(f.held, e) == (if e in s.conts then s.conts[e].held else 0)
    && (e in s.conts ==> e !in s.flow.stash.at)
  }

  ghost predicate Same(s: Slot, f: Forever)
  {
    && ValidStash(s.flow.stash) && s.flow.ledger == f.ledger && s.grants == f.grants && s.strays == map[]
    && forall e :: Agree(s, f, e)
  }

  /** Everything the slot knows of, in containers or in the stash. */
  function Seen(s: Slot): set<nat> { s.conts.Keys + s.flow.stash.at.Keys }

  function Opens(es: seq<Event>): set<nat> { set i | 0 <= i < |es| && es[i].Open? :: es[i].e }

  lemma {:induction false} OrderSize(order: seq<nat>, keys: set<nat>)
    requires forall i, j :: 0 <= i < j < |order| ==> order[i] != order[j]
    requires forall e :: e in order <==> e in keys
    ensures |order| == |keys|
  {
    if order == [] {
      assert keys == {};
    } else {
      assert order == [order[0]] + order[1..];
      assert order[0] !in order[1..];
      OrderSize(order[1..], keys - {order[0]});
    }
  }

  /** With no more incarnations than twice the cap, a container only has to go while the stash,
      without the incarnation coming back, has room for it. */
  lemma StashFits(s: Slot, dead: nat, e: nat)
    requires ValidStash(s.flow.stash) && (forall x :: x in s.conts ==> x !in s.flow.stash.at) && e !in s.conts
    requires |Dead(s)| >= dead && |Seen(s) + {e}| <= 2 * dead
    ensures |Remove(s.flow.stash, e).order| < dead
  {
    RemoveValid(s.flow.stash, e);
    var r := Remove(s.flow.stash, e);
    OrderSize(r.order, r.at.Keys);
    Fewer(Dead(s), s.conts.Keys);
    assert Seen(s) + {e} == s.conts.Keys + r.at.Keys + {e};
    assert |s.conts.Keys + r.at.Keys| == |s.conts.Keys| + |r.at.Keys|;
  }

  /** Stashing loses nothing when there is room: exactly one position joins. */
  lemma StashedJoins(f: Flow, v: nat, p: Sender)
    requires ValidStash(f.stash) && v !in f.stash.at && |f.stash.order| < f.cap
    ensures Stashed(f, v, p) == f.(stash := Put(f.stash, v, p)) && ValidStash(Stashed(f, v, p).stash)
  {
  }

  /** What making a container leaves: the newcomer in, its held position out, the victim's in. */
  lemma EnsureParts(s: Slot, dead: nat, e: nat, now: int, victim: nat)
    requires ValidStash(s.flow.stash) && e !in s.conts && s.flow.cap == dead
    requires |Dead(s)| >= dead ==>
               victim in s.conts && victim !in s.flow.stash.at && |Remove(s.flow.stash, e).order| < dead
    ensures var (y, r) := (Ensure(s, dead, e, now, victim), s.flow.stash.at - {e});
            var c := Container(if e in s.flow.stash.at then s.flow.stash.at[e] else FRESH, 0, now, 0);
            && ValidStash(y.flow.stash) && y.flow.ledger == s.flow.ledger && y.grants == s.grants && y.flow.cap == dead
            && (|Dead(s)| < dead || s.conts[victim].held == 0 ==> y.strays == s.strays)
            && (if |Dead(s)| < dead then y.conts == s.conts[e := c] && y.flow.stash.at == r
                else y.conts == (s.conts - {victim})[e := c] && y.flow.stash.at == r[victim := s.conts[victim].sender])
  {
    RemoveValid(s.flow.stash, e);
    if |Dead(s)| >= dead {
      StashedJoins(s.flow.(stash := Remove(s.flow.stash, e)), victim, s.conts[victim].sender);
    }
  }

  lemma EnsureSame(s: Slot, f: Forever, dead: nat, e: nat, now: int, victim: nat)
    requires Same(s, f) && e !in s.conts && s.flow.cap == dead
    requires |Dead(s)| >= dead ==>
               victim in s.conts && s.conts[victim].live == 0 && s.conts[victim].held == 0
               && |Remove(s.flow.stash, e).order| < dead
    ensures var y := Ensure(s, dead, e, now, victim);
            && e in y.conts && y.flow.cap == dead
            && Same(y, if e in f.at then f else f.(at := f.at[e := FRESH]))
  {
    var (y, g) := (Ensure(s, dead, e, now, victim), if e in f.at then f else f.(at := f.at[e := FRESH]));
    assert Agree(s, f, victim) && Agree(s, f, e);
    EnsureParts(s, dead, e, now, victim);
    forall x: nat
      ensures Agree(y, g, x)
    {
      assert Agree(s, f, x);
    }
  }

  lemma OpenSame(s: Slot, f: Forever, dead: nat, ev: Event)
    requires Same(s, f) && ev.Open? && Proper(s, dead, ev) && s.flow.cap == dead
    requires ev.e !in s.conts && |Dead(s)| >= dead ==>
               |Remove(s.flow.stash, ev.e).order| < dead && s.conts[ev.victim].held == 0
    ensures Same(Next(s, dead, ev), NextForever(f, ev)) && Next(s, dead, ev).flow.cap == dead
  {
    assert Agree(s, f, ev.e);
    if ev.e !in s.conts {
      EnsureSame(s, f, dead, ev.e, ev.now, ev.victim);
      Enters(Ensure(s, dead, ev.e, ev.now, ev.victim), if ev.e in f.at then f else f.(at := f.at[ev.e := FRESH]),
             ev.e, ev.window, ev.admit);
    } else {
      Enters(s, f, ev.e, ev.window, ev.admit);
    }
  }

  lemma Enters(s: Slot, f: Forever, e: nat, window: nat, admit: bool)
    requires Same(s, f) && e in s.conts
    ensures e in f.at && Same(Entered(s, e, window, admit), EnteredForever(f, e, window, admit))
  {
    assert Agree(s, f, e);
    forall x: nat
      ensures Agree(Entered(s, e, window, admit), EnteredForever(f, e, window, admit), x)
    {
      assert Agree(s, f, x);
    }
  }

  lemma StepSame(s: Slot, f: Forever, dead: nat, ev: Event)
    requires Same(s, f) && !ev.Open? && Proper(s, dead, ev)
    ensures Same(Next(s, dead, ev), NextForever(f, ev)) && Next(s, dead, ev).flow.cap == s.flow.cap
  {
    var (y, g) := (Next(s, dead, ev), NextForever(f, ev));
    if !ev.Buffer? { assert Agree(s, f, ev.e); }
    forall x: nat
      ensures Agree(y, g, x)
    {
      assert Agree(s, f, x);
    }
  }

  lemma OpensSnoc(es: seq<Event>, ev: Event)
    ensures Opens(es + [ev]) == Opens(es) + (if ev.Open? then {ev.e} else {})
  {
    var all := es + [ev];
    assert forall i :: 0 <= i < |es| ==> all[i] == es[i];
    if ev.Open? { assert all[|es|].e in Opens(all); }
    forall e | e in Opens(es)
      ensures e in Opens(all)
    {
      var i :| 0 <= i < |es| && es[i].Open? && es[i].e == e;
      assert all[i].e in Opens(all);
    }
  }

  lemma RoomFor(s: Slot, f: Forever, dead: nat, e: nat, known: set<nat>)
    requires Same(s, f) && f.at.Keys <= known && e in known && |known| <= 2 * dead
    requires e !in s.conts && |Dead(s)| >= dead
    ensures |Remove(s.flow.stash, e).order| < dead
  {
    forall x | x in Seen(s)
      ensures x in f.at
    {
      assert Agree(s, f, x);
    }
    assert forall x :: x in s.conts ==> Agree(s, f, x);
    Fewer(Seen(s) + {e}, known);
    StashFits(s, dead, e);
  }

  /** A run in which no container was evicted while a send still held a credit of it. */
  predicate Tidy(dead: nat, window: nat, es: seq<Event>)
  {
    Run(dead, window, es).Some? && Run(dead, window, es).value.straying == 0
  }

  lemma StraysAdd(s: Slot, dead: nat, ev: Event)
    requires Proper(s, dead, ev)
    ensures Next(s, dead, ev).straying
            == s.straying + (if ev.Open? && ev.e !in s.conts && |Dead(s)| >= dead then s.conts[ev.victim].held else 0)
  {
    if ev.Open? { assert Dead(s.(flow := s.flow.(stash := Remove(s.flow.stash, ev.e)))) == Dead(s); }
  }

  lemma {:induction false} Tracks(dead: nat, window: nat, es: seq<Event>)
    requires Tidy(dead, window, es) && |Opens(es)| <= 2 * dead
    ensures var (s, f) := (Run(dead, window, es).value, RunForever(window, es));
            Same(s, f) && s.flow.cap == dead && f.at.Keys <= Opens(es)
    decreases |es|
  {
    if es != [] {
      var (init, ev) := (es[..|es| - 1], es[|es| - 1]);
      assert es == init + [ev];
      OpensSnoc(init, ev);
      Fewer(Opens(init), Opens(es));
      StraysAdd(Run(dead, window, init).value, dead, ev);
      Tracks(dead, window, init);
      var (s, f) := (Run(dead, window, init).value, RunForever(window, init));
      if ev.Open? {
        if ev.e !in s.conts && |Dead(s)| >= dead { RoomFor(s, f, dead, ev.e, Opens(es)); }
        OpenSame(s, f, dead, ev);
      } else {
        StepSame(s, f, dead, ev);
      }
    }
  }

  /** With at most twice maxDeadPeers incarnations on the key, and no container evicted under a send that
      still holds a credit of it, the capped server cannot be told from one that never evicts: every
      incarnation has the same sender position, the ledger is the same, and the same grants went out in
      the same order. */
  lemma CacheRefines(dead: nat, window: nat, es: seq<Event>, e: nat)
    requires Tidy(dead, window, es) && |Opens(es)| <= 2 * dead
    ensures var (s, f) := (Run(dead, window, es).value, RunForever(window, es));
            && Position(s, e) == PositionOf(f, e)
            && s.flow.ledger == f.ledger && s.grants == f.grants
  {
    Tracks(dead, window, es);
    assert Agree(Run(dead, window, es).value, RunForever(window, es), e);
  }

  /** Exactly when a position is lost: an OPEN of an incarnation without a container forgets another
      incarnation's position if and only if the containers without calls are at their cap and so is the
      stash, not counting the incarnation coming back. */
  lemma LosesIff(s: Slot, dead: nat, ev: Event)
    requires ValidStash(s.flow.stash) && s.conts.Keys !! s.flow.stash.at.Keys && s.flow.cap == dead
    requires ev.Open? && Proper(s, dead, ev) && dead > 0
    ensures (exists x :: Position(s, x).Some? && Position(Next(s, dead, ev), x).None?)
            <==> ev.e !in s.conts && |Dead(s)| >= dead && |Remove(s.flow.stash, ev.e).order| >= dead
  {
    var y := Next(s, dead, ev);
    if ev.e !in s.conts && |Dead(s)| >= dead {
      var w := s.flow.(stash := Remove(s.flow.stash, ev.e));
      RemoveValid(s.flow.stash, ev.e);
      if |w.stash.order| < dead {
        StashedJoins(w, ev.victim, s.conts[ev.victim].sender);
      } else {
        StashedDrops(w, ev.victim, s.conts[ev.victim].sender);
        var x := w.stash.order[0];
        assert Position(s, x).Some? && Position(y, x).None?;
      }
    } else if ev.e !in s.conts {
      RemoveValid(s.flow.stash, ev.e);
    }
  }

  /** A full stash pays for a newcomer with its oldest position. */
  lemma StashedDrops(f: Flow, v: nat, p: Sender)
    requires ValidStash(f.stash) && v !in f.stash.at && |f.stash.order| >= f.cap > 0
    ensures f.stash.order[0] in f.stash.at && f.stash.order[0] !in Stashed(f, v, p).stash.at
  {
    var g := f.(stash := Put(f.stash, v, p));
    TrimmedDrops(g);
  }

  lemma {:induction false} TrimmedDrops(f: Flow)
    requires |f.stash.order| > f.cap
    ensures f.stash.order[0] !in Trimmed(f).stash.at
    ensures forall e :: e in Trimmed(f).stash.at ==> e in f.stash.at
    decreases |f.stash.order|
  {
    var oldest := f.stash.order[0];
    var g := Flow(f.ledger.(pending := f.ledger.pending - {oldest}),
                  Stash(f.stash.order[1..], f.stash.at - {oldest}), f.cap);
    if |g.stash.order| > g.cap { TrimmedDrops(g); }
  }

  lemma RunSnoc(dead: nat, window: nat, es: seq<Event>, ev: Event)
    requires Run(dead, window, es).Some? && Proper(Run(dead, window, es).value, dead, ev)
    ensures Run(dead, window, es + [ev]) == Some(Next(Run(dead, window, es).value, dead, ev))
    ensures RunForever(window, es + [ev]) == NextForever(RunForever(window, es), ev)
  {
    assert (es + [ev])[..|es|] == es;
  }

  // ------------------------------------------------------------------
  // the bound is exact
  // ------------------------------------------------------------------

  /** The first n incarnations. */
  function FirstOnes(n: nat): set<nat> { if n == 0 then {} else FirstOnes(n - 1) + {n - 1} }

  lemma {:induction false} FirstOnesAre(n: nat)
    ensures |FirstOnes(n)| == n && forall k: nat :: k in FirstOnes(n) <==> k < n
  {
    if n > 0 { FirstOnesAre(n - 1); }
  }

  /** Nothing but idle containers, all made at once. */
  ghost predicate Idle(s: Slot)
  {
    s.straying == 0
    && forall e :: e in s.conts ==> s.conts[e].live == 0 && s.conts[e].created == 0 && s.conts[e].held == 0
  }

  /** A newcomer to an idle slot under any cap, with any container to make room for it. */
  lemma IdleOpens(s: Slot, dead: nat, e: nat, v: nat)
    requires Idle(s) && e !in s.conts && 0 < dead && |s.conts| <= dead && (|s.conts| == dead ==> v in s.conts)
    ensures Proper(s, dead, Open(e, W_CONN, 0, false, v))
    ensures var y := Next(s, dead, Open(e, W_CONN, 0, false, v)); Idle(y) && |y.conts| == Min(|s.conts| + 1, dead)
  {
    IdleConts(s, dead, e, v);
    var y := Next(s, dead, Open(e, W_CONN, 0, false, v));
    KeptSize(s.conts, v, e, y.conts[e]);
  }

  lemma KeptSize(m: map<nat, Container>, v: nat, e: nat, c: Container)
    requires e !in m
    ensures |m[e := c]| == |m| + 1 && (v in m ==> |(m - {v})[e := c]| == |m|)
  {
    assert m[e := c].Keys == m.Keys + {e};
    assert (m - {v})[e := c].Keys == m.Keys - {v} + {e};
  }

  lemma IdleDead(s: Slot)
    requires Idle(s)
    ensures Dead(s) == s.conts.Keys && |Dead(s)| == |s.conts|
  {
    assert Dead(s) == s.conts.Keys;
  }

  /** The newcomer joins, for the victim if the cap is reached. */
  lemma IdleConts(s: Slot, dead: nat, e: nat, v: nat)
    requires Idle(s) && e !in s.conts && 0 < dead && |s.conts| <= dead && (|s.conts| == dead ==> v in s.conts)
    ensures Proper(s, dead, Open(e, W_CONN, 0, false, v))
    ensures var y := Next(s, dead, Open(e, W_CONN, 0, false, v));
            && e in y.conts && y.conts[e].live == 0 && y.conts[e].created == 0
            && y.conts[e].held == 0 && y.straying == 0
            && y.conts == (if |s.conts| < dead then s.conts else s.conts - {v})[e := y.conts[e]]
  {
    IdleDead(s);
    IdleDead(s.(flow := s.flow.(stash := Remove(s.flow.stash, e))));
  }

  lemma Victim(s: Slot, dead: nat) returns (v: nat)
    requires dead > 0
    ensures |s.conts| == dead ==> v in s.conts
  {
    v := 0;
    if |s.conts| == dead {
      assert |s.conts.Keys| == dead;
      v :| v in s.conts.Keys;
    }
  }

  lemma KnownForever(s: Slot, f: Forever)
    requires Same(s, f)
    ensures Seen(s) == f.at.Keys && s.conts.Keys !! s.flow.stash.at.Keys
  {
    forall e
      ensures e in Seen(s) <==> e in f.at
      ensures e in s.conts ==> e !in s.flow.stash.at
    {
      assert Agree(s, f, e);
    }
  }

  /** After es, the first n incarnations have come, and all are idle. */
  ghost predicate Crowded(dead: nat, window: nat, es: seq<Event>, n: nat)
  {
    && Tidy(dead, window, es) && Opens(es) == FirstOnes(n) == RunForever(window, es).at.Keys
    && Idle(Run(dead, window, es).value) && |Run(dead, window, es).value.conts| == Min(n, dead)
  }

  lemma Unknown(dead: nat, window: nat, es: seq<Event>, n: nat)
    requires n <= 2 * dead && Crowded(dead, window, es, n)
    ensures n !in Run(dead, window, es).value.conts
  {
    FirstOnesAre(n);
    Tracks(dead, window, es);
    KnownForever(Run(dead, window, es).value, RunForever(window, es));
  }

  lemma OneMore(dead: nat, window: nat, es: seq<Event>, n: nat) returns (ev: Event)
    requires 0 < dead && n <= 2 * dead && Crowded(dead, window, es, n)
    ensures Crowded(dead, window, es + [ev], n + 1)
  {
    var s := Run(dead, window, es).value;
    Unknown(dead, window, es, n);
    var v := Victim(s, dead);
    ev := Open(n, W_CONN, 0, false, v);
    IdleOpens(s, dead, n, v);
    RunSnoc(dead, window, es, ev);
    OpensSnoc(es, ev);
  }

  lemma {:induction false} Crowd(dead: nat, window: nat, n: nat) returns (es: seq<Event>)
    requires 0 < dead && n <= 2 * dead + 1
    ensures Crowded(dead, window, es, n)
  {
    es := [];
    if n > 0 {
      es := Crowd(dead, window, n - 1);
      var ev := OneMore(dead, window, es, n - 1);
      es := es + [ev];
    }
  }

  /** With twice the cap idle, both the containers and the stash are full. */
  lemma CrowdFills(s: Slot, f: Forever, dead: nat)
    requires Same(s, f) && Idle(s) && |s.conts| == dead && f.at.Keys == FirstOnes(2 * dead)
    ensures |Dead(s)| == dead && |Remove(s.flow.stash, 2 * dead).order| == dead && 2 * dead !in s.conts
    ensures s.conts.Keys !! s.flow.stash.at.Keys
  {
    KnownForever(s, f);
    FirstOnesAre(2 * dead);
    assert Dead(s) == s.conts.Keys && |s.conts.Keys| == |s.conts|;
    assert |Seen(s)| == |s.conts.Keys| + |s.flow.stash.at.Keys|;
    assert 2 * dead !in Seen(s);
    RemoveValid(s.flow.stash, 2 * dead);
    var r := Remove(s.flow.stash, 2 * dead);
    assert r.at.Keys == s.flow.stash.at.Keys;
    OrderSize(r.order, r.at.Keys);
  }

  /** No incarnation's sender can be told from the unbounded server's. */
  ghost predicate Indistinct(dead: nat, window: nat, es: seq<Event>)
  {
    Run(dead, window, es).Some? ==>
      forall e :: Position(Run(dead, window, es).value, e) == PositionOf(RunForever(window, es), e)
  }

  /** A newcomer to two full caps: some incarnation's position is gone. */
  lemma NewcomerLoses(s: Slot, f: Forever, dead: nat, v: nat)
    requires 0 < dead && Same(s, f) && s.flow.cap == dead && Idle(s)
             && f.at.Keys == FirstOnes(2 * dead) && |s.conts| == dead
    requires v in s.conts
    ensures var (y, g) := (Next(s, dead, Open(2 * dead, W_CONN, 0, false, v)),
                          NextForever(f, Open(2 * dead, W_CONN, 0, false, v)));
            Proper(s, dead, Open(2 * dead, W_CONN, 0, false, v)) && y.straying == 0
            && exists x :: Position(y, x) != PositionOf(g, x)
  {
    var ev := Open(2 * dead, W_CONN, 0, false, v);
    CrowdFills(s, f, dead);
    IdleOpens(s, dead, 2 * dead, v);
    LosesIff(s, dead, ev);
    var x :| Position(s, x).Some? && Position(Next(s, dead, ev), x).None?;
    assert Agree(s, f, x);
    assert PositionOf(NextForever(f, ev), x).Some?;
  }

  /** One newcomer on top of twice the cap, and the two servers differ. */
  lemma OneTooMany(dead: nat, window: nat) returns (es: seq<Event>)
    requires 0 < dead
    ensures |Opens(es)| == 2 * dead + 1 && Tidy(dead, window, es) && !Indistinct(dead, window, es)
  {
    var init := Crowd(dead, window, 2 * dead);
    var (s, f) := (Run(dead, window, init).value, RunForever(window, init));
    FirstOnesAre(2 * dead);
    Tracks(dead, window, init);
    var v := Victim(s, dead);
    var ev := Open(2 * dead, W_CONN, 0, false, v);
    NewcomerLoses(s, f, dead, v);
    RunSnoc(dead, window, init, ev);
    OpensSnoc(init, ev);
    es := init + [ev];
  }

  lemma TidyIndistinct(dead: nat, window: nat, es: seq<Event>)
    requires Tidy(dead, window, es) && |Opens(es)| <= 2 * dead
    ensures Indistinct(dead, window, es)
  {
    forall e
      ensures Position(Run(dead, window, es).value, e) == PositionOf(RunForever(window, es), e)
    {
      CacheRefines(dead, window, es, e);
    }
  }

  /** So the bound is exact: a capped server refines the unbounded one in every tidy run of at most n
      incarnations if and only if n is at most twice the cap. */
  lemma RefinesIff(dead: nat, window: nat, n: nat)
    requires 0 < dead
    ensures (forall es :: Tidy(dead, window, es) && |Opens(es)| <= n ==> Indistinct(dead, window, es))
            <==> n <= 2 * dead
  {
    if n <= 2 * dead {
      forall es | Tidy(dead, window, es) && |Opens(es)| <= n
        ensures Indistinct(dead, window, es)
      {
        TidyIndistinct(dead, window, es);
      }
    } else {
      var es := OneTooMany(dead, window);
      assert Tidy(dead, window, es) && |Opens(es)| <= n && !Indistinct(dead, window, es);
    }
  }

  // ------------------------------------------------------------------
  // a send that outlives its container
  // ------------------------------------------------------------------

  /** With no more incarnations than containers, none is ever evicted. */
  lemma {:induction false} FewAreTidy(dead: nat, window: nat, es: seq<Event>)
    requires Run(dead, window, es).Some? && |Opens(es)| <= dead
    ensures Tidy(dead, window, es) && Run(dead, window, es).value.conts.Keys <= Opens(es)
    decreases |es|
  {
    if es != [] {
      var (init, ev) := (es[..|es| - 1], es[|es| - 1]);
      assert es == init + [ev];
      OpensSnoc(init, ev);
      Fewer(Opens(init), Opens(es));
      FewAreTidy(dead, window, init);
      FewStep(Run(dead, window, init).value, dead, ev, Opens(es));
    }
  }

  lemma FewStep(s: Slot, dead: nat, ev: Event, known: set<nat>)
    requires Proper(s, dead, ev) && s.conts.Keys <= known && |known| <= dead && (ev.Open? ==> ev.e in known)
    ensures Next(s, dead, ev).straying == s.straying && Next(s, dead, ev).conts.Keys <= known
  {
    StraysAdd(s, dead, ev);
    if ev.Open? && ev.e !in s.conts {
      Fewer(s.conts.Keys + {ev.e}, known);
      Fewer(Dead(s), s.conts.Keys);
      assert Dead(s.(flow := s.flow.(stash := Remove(s.flow.stash, ev.e)))) == Dead(s);
    }
  }

  const ONE_SENT := Sender(true, true, W_CONN, 1)

  /** The oldest container is idle but a send still holds a credit of it; n - 1 idle ones are younger. */
  ghost predicate Leaning(s: Slot, dead: nat, n: nat)
  {
    && n > 0 && s.conts.Keys == FirstOnes(n) && s.flow.stash == Stash([], map[]) && s.flow.cap == dead
    && s.strays == map[] && 0 in s.conts && s.conts[0] == Container(ONE_SENT, 0, 0, 1)
    && forall e :: e in s.conts && e != 0 ==> s.conts[e].live == 0 && s.conts[e].created == 1
  }

  lemma LeanStart(dead: nat, window: nat) returns (es: seq<Event>)
    requires 0 < dead
    ensures Run(dead, window, es).Some? && Leaning(Run(dead, window, es).value, dead, 1) && Opens(es) == FirstOnes(1)
    ensures PositionOf(RunForever(window, es), 0) == Some(ONE_SENT) && Count(RunForever(window, es).held, 0) == 1
  {
    var (a, b, c) := (Open(0, W_CONN, 0, true, 0), Take(0), Finish(0));
    es := [] + [a] + [b] + [c];
    assert Dead(Start(dead, window)) == {};
    RunSnoc(dead, window, [], a);
    RunSnoc(dead, window, [] + [a], b);
    RunSnoc(dead, window, [] + [a] + [b], c);
    OpensSnoc([], a);
    OpensSnoc([] + [a], b);
    OpensSnoc([] + [a] + [b], c);
    assert FirstOnes(1) == {0};
  }

  lemma LeanDead(s: Slot, dead: nat, n: nat)
    requires Leaning(s, dead, n)
    ensures Dead(s) == s.conts.Keys && |Dead(s)| == n && n !in s.conts && Oldest(s, 0)
    ensures Dead(s.(flow := s.flow.(stash := Remove(s.flow.stash, n)))) == Dead(s)
  {
    FirstOnesAre(n);
    assert Dead(s) == s.conts.Keys;
  }

  lemma LeanOpens(s: Slot, dead: nat, n: nat)
    requires Leaning(s, dead, n) && n < dead
    ensures Proper(s, dead, Open(n, W_CONN, 1, false, 0))
            && Leaning(Next(s, dead, Open(n, W_CONN, 1, false, 0)), dead, n + 1)
  {
    LeanDead(s, dead, n);
    assert Next(s, dead, Open(n, W_CONN, 1, false, 0)).conts.Keys == s.conts.Keys + {n};
  }

  lemma LeanEvicts(s: Slot, dead: nat)
    requires Leaning(s, dead, dead)
    ensures var y := Next(s, dead, Open(dead, W_CONN, 1, false, 0));
            && Proper(s, dead, Open(dead, W_CONN, 1, false, 0))
            && Count(y.strays, 0) == 1 && Position(y, 0) == Some(ONE_SENT)
  {
    LeanDead(s, dead, dead);
    RemoveValid(s.flow.stash, dead);
    StashedJoins(s.flow.(stash := Remove(s.flow.stash, dead)), 0, s.conts[0].sender);
  }

  lemma OpenKeepsHeld(f: Forever, n: nat)
    requires n > 0 && PositionOf(f, 0) == Some(ONE_SENT) && Count(f.held, 0) == 1
    ensures var g := NextForever(f, Open(n, W_CONN, 1, false, 0));
            PositionOf(g, 0) == Some(ONE_SENT) && Count(g.held, 0) == 1
  {
  }

  lemma {:induction false} LeanRun(dead: nat, window: nat, n: nat) returns (es: seq<Event>)
    requires 0 < n <= dead
    ensures Run(dead, window, es).Some? && Leaning(Run(dead, window, es).value, dead, n) && Opens(es) == FirstOnes(n)
    ensures PositionOf(RunForever(window, es), 0) == Some(ONE_SENT) && Count(RunForever(window, es).held, 0) == 1
  {
    if n == 1 {
      es := LeanStart(dead, window);
    } else {
      var init := LeanRun(dead, window, n - 1);
      var ev := Open(n - 1, W_CONN, 1, false, 0);
      LeanOpens(Run(dead, window, init).value, dead, n - 1);
      RunSnoc(dead, window, init, ev);
      OpensSnoc(init, ev);
      OpenKeepsHeld(RunForever(window, init), n - 1);
      es := init + [ev];
    }
  }

  /** A send that gives its credit back after its container is gone: the unbounded server has it again,
      the bounded one never does. */
  lemma LateUndoLost(dead: nat, window: nat) returns (es: seq<Event>)
    requires 0 < dead
    ensures |Opens(es)| == dead + 1 && Run(dead, window, es).Some?
    ensures Position(Run(dead, window, es).value, 0) == Some(ONE_SENT)
    ensures PositionOf(RunForever(window, es), 0) == Some(ONE_SENT.(sent := 0))
  {
    var init := LeanRun(dead, window, dead);
    var ev := Open(dead, W_CONN, 1, false, 0);
    LeanEvicts(Run(dead, window, init).value, dead);
    RunSnoc(dead, window, init, ev);
    OpensSnoc(init, ev);
    OpenKeepsHeld(RunForever(window, init), dead);
    RunSnoc(dead, window, init + [ev], LateUndo(0));
    OpensSnoc(init + [ev], LateUndo(0));
    FirstOnesAre(dead);
    es := init + [ev] + [LateUndo(0)];
  }

  /** Without asking that evictions wait for such sends, the bound is the cap itself: then no container
      is evicted at all. */
  lemma UntidyRefinesIff(dead: nat, window: nat, n: nat)
    requires 0 < dead
    ensures (forall es :: |Opens(es)| <= n ==> Indistinct(dead, window, es)) <==> n <= dead
  {
    if n <= dead {
      forall es | |Opens(es)| <= n
        ensures Indistinct(dead, window, es)
      {
        if Run(dead, window, es).Some? {
          FewAreTidy(dead, window, es);
          TidyIndistinct(dead, window, es);
        }
      }
    } else {
      var es := LateUndoLost(dead, window);
      assert |Opens(es)| <= n && !Indistinct(dead, window, es);
    }
  }
}
