/** Frames as flow control sees them, and the FIFO channel that carries them: how much of each kind
    of credit is in flight, and which of several kinds of frame comes first. */
module Channel {
  import opened Credit

  datatype Frame =
    | Open(sid: nat, ups: bool, downs: bool, window: nat, connWindow: nat)
    | Head(sid: nat, window: nat, connWindow: nat)
    | Term(sid: nat, connWindow: nat)
    | Data(sid: nat)
    | Control(sid: nat)
    | Window(sid: nat, n: nat)
    | ConnWindow(n: nat)
    | Reset(sid: nat)

  function Weigh(ch: seq<Frame>, f: Frame -> nat): nat
    decreases |ch|
  {
    if ch == [] then 0 else f(ch[0]) + Weigh(ch[1..], f)
  }

  function First(ch: seq<Frame>, p: Frame -> bool): (r: Option<Frame>)
    ensures r.Some? ==> p(r.value)
    decreases |ch|
  {
    if ch == [] then None else if p(ch[0]) then Some(ch[0]) else First(ch[1..], p)
  }

  lemma {:induction false} WeighPush(ch: seq<Frame>, x: Frame, f: Frame -> nat)
    ensures Weigh(ch + [x], f) == Weigh(ch, f) + f(x)
    decreases |ch|
  {
    if ch == [] {
      assert ch + [x] == [x] && [x][1..] == [];
    } else {
      WeighPush(ch[1..], x, f);
      assert (ch + [x])[1..] == ch[1..] + [x];
    }
  }

  lemma {:induction false} FirstPush(ch: seq<Frame>, x: Frame, p: Frame -> bool)
    ensures First(ch + [x], p) == if First(ch, p).Some? then First(ch, p) else if p(x) then Some(x) else None
    decreases |ch|
  {
    if ch == [] {
      assert ch + [x] == [x] && [x][1..] == [];
    } else {
      FirstPush(ch[1..], x, p);
      assert (ch + [x])[1..] == ch[1..] + [x];
    }
  }

  function IsData(x: Frame): nat { if x.Data? then 1 else 0 }

  function ConnCredit(x: Frame): nat { if x.ConnWindow? then x.n else 0 }

  function DataFor(sid: nat, x: Frame): nat { if x == Data(sid) then 1 else 0 }

  function CreditFor(sid: nat, x: Frame): nat { if x.Window? && x.sid == sid then x.n else 0 }

  function OpenFor(sid: nat, x: Frame): nat { if x.Open? && x.sid == sid then 1 else 0 }

  function DataOf(sid: nat): Frame -> nat { (x: Frame) => DataFor(sid, x) }

  function CreditOf(sid: nat): Frame -> nat { (x: Frame) => CreditFor(sid, x) }

  function OpenOf(sid: nat): Frame -> nat { (x: Frame) => OpenFor(sid, x) }

  predicate IsAck(x: Frame) { x.Head? || x.Term? }

  /** Frames that touch the stream sender of call sid. */
  predicate Touches(sid: nat, x: Frame) { (x.Head? || x.Term? || x.Data? || x.Window?) && x.sid == sid }

  function TouchesOf(sid: nat): Frame -> bool { (x: Frame) => Touches(sid, x) }

  predicate Names(sid: nat, x: Frame) { !x.ConnWindow? && x.sid == sid }

  function NamesOf(sid: nat): Frame -> bool { (x: Frame) => Names(sid, x) }
}
