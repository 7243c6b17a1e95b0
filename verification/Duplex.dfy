/** One client incarnation and one server incarnation over two FIFO channels, in reliable mode, with
    any number of calls in both directions. Every transition of either endpoint that touches flow
    control is an event; a disabled event changes nothing, so a run is any list of events. */
module Duplex {
  import opened Sums
  import opened Credit
  import opened Channel
  import B = Buffers
  import S = Sends

  /** The order-relevant part of an OPEN: its sid and which directions have data frames. */
  datatype Shape = Shape(sid: nat, ups: bool, downs: bool)

  /** `next` is the last sid allocated and `waiting` the ones whose OPEN has not left: allocation and
      transmission are two steps. `left` is history, the OPENs that left before the first lock. */
  datatype Client = Client(out: S.Out, bufs: B.Bufs, locked: bool, next: nat, waiting: set<nat>, left: seq<Shape>)

  /** `known`: the container for the client incarnation exists; `hwm` is the highest sid it admitted.
      `seen`, `heard` and `acked` are history: the OPENs processed so far, how many those were, and
      whether any H or T was ever sent. */
  datatype Server = Server(out: S.Out, bufs: B.Bufs, known: bool, hwm: nat, draining: bool, stopped: bool,
                           seen: set<nat>, heard: nat, acked: bool)

  /** `lostUp`/`lostDown` count connection credit that vanished (a stopped server's unsent grants, a
      saturated accumulator, a grant before the first lock, an overflowing ledger); `refunded` counts
      credit a RESET before the first lock gave back for frames that did reach the wire. Both are
      bookkeeping only. */
  datatype System = System(c: Client, s: Server, up: seq<Frame>, down: seq<Frame>,
                           lostUp: nat, lostDown: nat, refunded: nat)

  datatype Event =
    /** A sid is allocated; its OPEN leaves later, or never. */
    | ClientAlloc
    | ClientOpen(sid: nat, ups: bool, downs: bool, size: u32)
    /** A sid is allocated and its OPEN leaves at once. */
    | ClientStart(ups: bool, downs: bool, size: u32)
    | ClientTake(sid: nat)
    | ClientSend(sid: nat)
    | ClientUndo(sid: nat)
    | ClientHalfClose(sid: nat)
    | ClientAbort(sid: nat)
    | ClientRecv(sid: nat, delivered: bool)
    | ClientHear(ok: bool)
    | ServerTake(sid: nat)
    | ServerSend(sid: nat)
    | ServerUndo(sid: nat)
    | ServerFlush(sid: nat)
    | ServerFinish(sid: nat, term: bool)
    | ServerRecv(sid: nat, delivered: bool)
    /** `admit` is the verdict on an OPEN that is neither late nor turned away by a drain. */
    | ServerHear(ok: bool, admit: bool, size: u32)
    | ServerDrain
    | ServerStop

  function K(sid: nat): B.Key { B.Key(0, sid) }

  predicate ClientLive(z: System, sid: nat) { B.Live(z.c.bufs, K(sid)) && sid in z.c.out.txs }

  predicate ServerLive(z: System, sid: nat) { B.Live(z.s.bufs, K(sid)) && sid in z.s.out.txs }

  function PushGrant(ch: seq<Frame>, g: nat): seq<Frame> { if g == 0 then ch else ch + [ConnWindow(g)] }

  function PushCredit(ch: seq<Frame>, sid: nat, g: nat): seq<Frame> { if g == 0 then ch else ch + [Window(sid, g)] }

  /** A server that stopped transmits no connection grant any more. */
  function ServerGrant(z: System, g: nat): System
  {
    if z.s.stopped then z.(lostUp := z.lostUp + g) else z.(down := PushGrant(z.down, g))
  }

  /** Credit a grant of n fails to add because the accumulator saturates. */
  function Wasted(s: Sender, n: nat): nat
  {
    if s.Grant(n).granted <= s.granted + n then s.granted + n - s.Grant(n).granted else 0
  }

  function SetTx(o: S.Out, sid: nat, s: Sender): S.Out
    requires sid in o.txs
  {
    o.(txs := o.txs[sid := o.txs[sid].(tx := s)])
  }

  // ------------------------------------------------------------------
  // the client
  // ------------------------------------------------------------------

  function Allocated(z: System): System
  {
    z.(c := z.c.(next := z.c.next + 1, waiting := z.c.waiting + {z.c.next + 1}))
  }

  function Opened(z: System, sid: nat, ups: bool, downs: bool, size: u32): System
  {
    if sid !in z.c.waiting || sid in z.c.out.txs || K(sid) in z.c.bufs.rxs then z
    else
      var win := ReliableRxSize(size, true);
      var t := S.Tx(ups, FRESH.Assume(W_INIT), 0, 0, true);
      z.(c := z.c.(out := z.c.out.(txs := z.c.out.txs[sid := t]),
                   bufs := z.c.bufs.(rxs := z.c.bufs.rxs[K(sid) := B.NewRx(win)]),
                   waiting := z.c.waiting - {sid},
                   left := if z.c.locked then z.c.left else z.c.left + [Shape(sid, ups, downs)]),
         up := z.up + [Open(sid, ups, downs, win, z.c.bufs.ledger.window)])
  }

  /** The call is over: no more sends, and everything buffered gives its credit back. */
  function ClientClose(z: System, sid: nat): System
  {
    var (b, g) := B.Close(z.c.bufs, K(sid));
    z.(c := z.c.(out := S.End(z.c.out, sid), bufs := b), up := PushGrant(z.up, g))
  }

  function ClientAborts(z: System, sid: nat): System
  {
    if !ClientLive(z, sid) then z else ClientClose(z.(up := z.up + [Control(sid)]), sid)
  }

  function ClientTakes(z: System, sid: nat, delivered: bool): System
  {
    var (b, g, sg) := B.Consume(z.c.bufs, K(sid), delivered);
    z.(c := z.c.(bufs := b), up := PushCredit(PushGrant(z.up, g), sid, sg))
  }

  /** The Conn locks to the server and adopts the advertisement an H or T carries. */
  function ClientLocks(z: System, connWindow: nat): System
  {
    z.(c := z.c.(locked := true, out := z.c.out.(conn := z.c.out.conn.Observe(connWindow))))
  }

  function ClientAdopts(z: System, sid: nat, window: nat): System
  {
    if !ClientLive(z, sid) then z
    else z.(c := z.c.(out := SetTx(z.c.out, sid, z.c.out.txs[sid].tx.Observe(window))))
  }

  function HearHead(z: System, sid: nat, window: nat, connWindow: nat): System
  {
    var y := ClientLocks(z, connWindow);
    if ClientLive(y, sid) then ClientAdopts(y, sid, window) else y.(up := y.up + [Reset(sid)])
  }

  function HearTerm(z: System, sid: nat, connWindow: nat): System
  {
    var y := ClientLocks(z, connWindow);
    if ClientLive(y, sid) then ClientClose(ClientAdopts(y, sid, 0), sid) else y.(up := y.up + [Reset(sid)])
  }

  function ClientBuffers(z: System, sid: nat, ok: bool): System
  {
    var (b, g) := B.Arrive(z.c.bufs, K(sid), ok);
    z.(c := z.c.(bufs := b), up := PushGrant(z.up, g))
  }

  function HearData(z: System, sid: nat, ok: bool): System
  {
    if ClientLive(z, sid) then
      if ok then ClientBuffers(ClientAdopts(z.(c := z.c.(locked := true)), sid, 0), sid, true)
      else ClientBuffers(z, sid, false)
    else
      var y := ClientBuffers(z.(c := z.c.(locked := true)), sid, ok);
      y.(up := y.up + [Reset(sid)])
  }

  function HearWindow(z: System, sid: nat, n: nat): System
  {
    if !ClientLive(z, sid) then z
    else z.(c := z.c.(out := SetTx(z.c.out, sid, z.c.out.txs[sid].tx.Grant(n))))
  }

  function HearConnWindow(z: System, n: nat): System
  {
    if !z.c.locked then z.(lostUp := z.lostUp + n)
    else z.(c := z.c.(out := z.c.out.(conn := z.c.out.conn.Grant(n))), lostUp := z.lostUp + Wasted(z.c.out.conn, n))
  }

  /** A RESET ends the call; before the first lock it also takes the call's connection spend back. */
  function HearReset(z: System, sid: nat): System
  {
    if !ClientLive(z, sid) then z
    else
      var y := ClientAborts(z, sid);
      if z.c.locked then y
      else y.(c := y.c.(out := S.TakeBack(y.c.out, sid)),
              refunded := y.refunded + Max(0, y.c.out.txs[sid].tx.sent - y.c.out.txs[sid].held))
  }

  function ClientHears(z: System, ok: bool): System
  {
    if z.down == [] then z
    else
      var y := z.(down := z.down[1..]);
      match z.down[0]
      case Head(sid, w, cw) => HearHead(y, sid, w, cw)
      case Term(sid, cw) => HearTerm(y, sid, cw)
      case Data(sid) => HearData(y, sid, ok)
      case Window(sid, n) => HearWindow(y, sid, n)
      case ConnWindow(n) => HearConnWindow(y, n)
      case Reset(sid) => HearReset(y, sid)
      case _ => y
  }

  // ------------------------------------------------------------------
  // the server
  // ------------------------------------------------------------------

  /** The OPEN reaches the container, creating it if need be; its advertisement counts once. */
  function Contained(z: System, connWindow: nat): System
  {
    z.(s := z.s.(known := true, out := z.s.out.(conn := z.s.out.conn.Observe(connWindow))))
  }

  function Admitted(z: System, sid: nat, ups: bool, downs: bool, window: nat, connWindow: nat, size: u32): System
  {
    var y := Contained(z, connWindow);
    var win := ReliableRxSize(size, true);
    var t := S.Tx(downs, FRESH.Observe(window), 0, 0, true);
    var x := y.(s := y.s.(hwm := Max(y.s.hwm, sid), out := y.s.out.(txs := y.s.out.txs[sid := t]),
                          bufs := y.s.bufs.(rxs := y.s.bufs.rxs[K(sid) := B.NewRx(win)])));
    if ups || downs then
      x.(s := x.s.(acked := true), down := x.down + [Head(sid, win, x.s.bufs.ledger.window)])
    else x
  }

  function Refused(z: System, sid: nat, connWindow: nat): System
  {
    var y := Contained(z, connWindow);
    y.(s := y.s.(acked := true), down := y.down + [Term(sid, y.s.bufs.ledger.window)])
  }

  /** A reliable channel does not age its watermark: an OPEN at or below it counts as a straggler. */
  predicate Late(z: System, sid: nat) { z.s.known && sid <= z.s.hwm }

  /** The OPEN is off the wire. */
  function Noted(z: System, sid: nat): System { z.(s := z.s.(seen := z.s.seen + {sid}, heard := z.s.heard + 1)) }

  function HearOpen(z: System, f: Frame, admit: bool, size: u32): System
    requires f.Open?
  {
    var y := Noted(z, f.sid);
    if Late(z, f.sid) || z.s.draining || z.s.stopped then y.(down := y.down + [Reset(f.sid)])
    else if !admit then Refused(y, f.sid, f.connWindow)
    else Admitted(y, f.sid, f.ups, f.downs, f.window, f.connWindow, size)
  }

  function ServerBuffers(z: System, sid: nat, ok: bool): System
  {
    var (b, g) := B.Arrive(z.s.bufs, K(sid), ok);
    ServerGrant(z.(s := z.s.(bufs := b)), g)
  }

  function HearClientData(z: System, sid: nat, ok: bool): System
  {
    if ServerLive(z, sid) then ServerBuffers(z, sid, ok)
    else
      var y := if z.s.known then ServerBuffers(z, sid, ok) else z.(lostUp := z.lostUp + 1);
      y.(down := y.down + [Reset(sid)])
  }

  function HearControl(z: System, sid: nat): System
  {
    if ServerLive(z, sid) then z else z.(down := z.down + [Reset(sid)])
  }

  function HearClientWindow(z: System, sid: nat, n: nat): System
  {
    if !ServerLive(z, sid) then z
    else z.(s := z.s.(out := SetTx(z.s.out, sid, z.s.out.txs[sid].tx.Grant(n))))
  }

  function HearClientConnWindow(z: System, n: nat): System
  {
    if !z.s.known then z.(lostDown := z.lostDown + n)
    else z.(s := z.s.(out := z.s.out.(conn := z.s.out.conn.Grant(n))), lostDown := z.lostDown + Wasted(z.s.out.conn, n))
  }

  function ServerHears(z: System, ok: bool, admit: bool, size: u32): System
  {
    if z.up == [] then z
    else
      var y := z.(up := z.up[1..]);
      match z.up[0]
      case Open(_, _, _, _, _) => HearOpen(y, z.up[0], admit, size)
      case Data(sid) => HearClientData(y, sid, ok)
      case Control(sid) => HearControl(y, sid)
      case Window(sid, n) => HearClientWindow(y, sid, n)
      case ConnWindow(n) => HearClientConnWindow(y, n)
      case _ => y
  }

  /** The handler unwinds: its terminal (unless the peer disowned the call) precedes the credit of
      what it left buffered. */
  function Finished(z: System, sid: nat, term: bool): System
  {
    if !ServerLive(z, sid) then z
    else
      var y := if term then z.(s := z.s.(acked := true), down := z.down + [Term(sid, z.s.bufs.ledger.window)]) else z;
      var (b, g) := B.Close(y.s.bufs, K(sid));
      ServerGrant(y.(s := y.s.(out := S.End(y.s.out, sid), bufs := b),
                     lostUp := y.lostUp + B.Spill(y.s.bufs, K(sid))), g)
  }

  function Flushed(z: System, sid: nat): System
  {
    if !ServerLive(z, sid) then z
    else z.(s := z.s.(acked := true), down := z.down + [Head(sid, 0, z.s.bufs.ledger.window)])
  }

  function ServerTakes(z: System, sid: nat, delivered: bool): System
  {
    var (b, g, sg) := B.Consume(z.s.bufs, K(sid), delivered);
    var y := ServerGrant(z.(s := z.s.(bufs := b)), g);
    y.(down := PushCredit(y.down, sid, sg))
  }

  // ------------------------------------------------------------------
  // runs
  // ------------------------------------------------------------------

  function Next(z: System, e: Event): System
  {
    match e
    case ClientAlloc => Allocated(z)
    case ClientOpen(sid, ups, downs, size) => Opened(z, sid, ups, downs, size)
    case ClientStart(ups, downs, size) => Opened(Allocated(z), z.c.next + 1, ups, downs, size)
    case ClientTake(sid) => z.(c := z.c.(out := S.Take(z.c.out, sid)))
    case ClientSend(sid) =>
      if !S.CanSpend(z.c.out, sid) then z
      else z.(c := z.c.(out := S.Spend(z.c.out, sid)), up := z.up + [Data(sid)])
    case ClientUndo(sid) => z.(c := z.c.(out := S.PutBack(z.c.out, sid)))
    case ClientHalfClose(sid) => if ClientLive(z, sid) then z.(up := z.up + [Control(sid)]) else z
    case ClientAbort(sid) => ClientAborts(z, sid)
    case ClientRecv(sid, delivered) => ClientTakes(z, sid, delivered)
    case ClientHear(ok) => ClientHears(z, ok)
    case ServerTake(sid) => z.(s := z.s.(out := S.Take(z.s.out, sid)))
    case ServerSend(sid) =>
      if !S.CanSpend(z.s.out, sid) then z
      else z.(s := z.s.(out := S.Spend(z.s.out, sid)), down := z.down + [Data(sid)])
    case ServerUndo(sid) => z.(s := z.s.(out := S.PutBackPlain(z.s.out, sid)))
    case ServerFlush(sid) => Flushed(z, sid)
    case ServerFinish(sid, term) => Finished(z, sid, term)
    case ServerRecv(sid, delivered) => ServerTakes(z, sid, delivered)
    case ServerHear(ok, admit, size) => ServerHears(z, ok, admit, size)
    case ServerDrain => z.(s := z.s.(draining := true))
    case ServerStop => z.(s := z.s.(draining := true, stopped := true))
  }

  /** An event of the client that hears nothing. */
  predicate ByClient(e: Event)
  {
    e.ClientAlloc? || e.ClientOpen? || e.ClientTake? || e.ClientSend? || e.ClientUndo? || e.ClientHalfClose?
    || e.ClientAbort? || e.ClientRecv?
  }

  /** An event of the server that hears nothing and takes nothing out of a buffer. */
  predicate ByServer(e: Event)
  {
    e.ServerTake? || e.ServerSend? || e.ServerUndo? || e.ServerFlush? || e.ServerDrain? || e.ServerStop?
  }

  function Exec(z: System, es: seq<Event>): System
    decreases |es|
  {
    if es == [] then z else Next(Exec(z, es[..|es| - 1]), es[|es| - 1])
  }

  /** A Conn paces itself by W_CONN; the server's sender toward it does not exist yet. */
  function Init(clientWindow: nat, serverWindow: nat): System
  {
    System(
      Client(S.Out(FRESH.Assume(W_CONN), map[]), B.Bufs(Ledger(clientWindow, 0, map[]), map[], 0), false, 0, {}, []),
      Server(S.Out(FRESH, map[]), B.Bufs(Ledger(serverWindow, 0, map[]), map[], 0),
             false, 0, false, false, {}, 0, false),
      [], [], 0, 0, 0)
  }
}
