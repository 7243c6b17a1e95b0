/** What the order of frames guarantees before the client has locked to the server: the first H or T
    comes before anything that counts on the lock, unless a draining server turned everything away or
    OPENs overtook one another. */
module Order {
  import opened Credit
  import opened Channel
  import opened Duplex
  import opened Conservation
  import opened StreamWindow
  import opened Overtaking
  import B = Buffers
  import S = Sends

  /** The frames ahead of the first H or T. */
  function Lead(ch: seq<Frame>): (r: seq<Frame>)
    ensures r <= ch
    decreases |ch|
  {
    if ch == [] || IsAck(ch[0]) then [] else [ch[0]] + Lead(ch[1..])
  }

  lemma {:induction false} LeadPush(ch: seq<Frame>, x: Frame)
    ensures Lead(ch + [x]) == if Lead(ch) != ch then Lead(ch) else if IsAck(x) then ch else ch + [x]
    decreases |ch|
  {
    if ch == [] {
      assert ch + [x] == [x] && [x][1..] == [];
    } else {
      LeadPush(ch[1..], x);
      assert (ch + [x])[1..] == ch[1..] + [x];
    }
  }

  predicate Silent(z: System, sid: nat) { sid in z.c.out.txs && !z.c.out.txs[sid].sends }

  /** No admitted call has client data. */
  ghost predicate NoUpCalls(z: System) { forall sid :: sid in z.s.out.txs ==> Silent(z, sid) }

  /** A draining server without a call that takes client data: it stays that way. */
  ghost predicate Barren(z: System) { z.s.draining && NoUpCalls(z) }

  /** No call with client data can be late before the first answer. */
  ghost predicate Straight(z: System) { !Overtaken(z.c.left) }

  /** The OPEN of sid was processed and not admitted, so it never will be. */
  predicate TurnedDown(z: System, sid: nat) { sid in z.s.seen && sid !in z.s.out.txs }

  ghost predicate LeadOk(z: System, x: Frame)
  {
    && !x.Data? && (x.ConnWindow? ==> z.s.draining || !Straight(z))
    && (x.Reset? ==> Barren(z) || Silent(z, x.sid) || (TurnedDown(z, x.sid) && !Straight(z)))
  }

  /** Channel ch as the client may find it before its lock; `acked` says whether an H or T was sent. */
  ghost predicate LeadsOn(z: System, ch: seq<Frame>, acked: bool)
  {
    !z.c.locked ==>
      && (acked <==> Lead(ch) != ch)
      && forall i :: 0 <= i < |Lead(ch)| ==> LeadOk(z, Lead(ch)[i])
  }

  ghost predicate Leads(z: System) { LeadsOn(z, z.down, z.s.acked) }

  ghost predicate Marks(z: System)
  {
    && (!z.s.acked ==> !z.c.locked && NoUpCalls(z) && forall sid :: sid in z.s.out.txs ==> !z.s.out.txs[sid].sends)
    && (!z.s.known && !z.s.draining ==> z.s.seen == {})
    && (z.s.stopped ==> z.s.draining)
    && (z.refunded > 0 ==> Barren(z) || !Straight(z))
    && Opens(z, z.up)
  }

  /** Every OPEN in flight advertises what the client keeps; every H and T what the server keeps. */
  ghost predicate Opens(z: System, ch: seq<Frame>)
  {
    forall i :: 0 <= i < |ch| ==>
      && !IsAck(ch[i])
      && (ch[i].Open? ==> OpenMatches(z, ch[i]) && ch[i].connWindow == z.c.bufs.ledger.window)
  }

  ghost predicate Acks(z: System, ch: seq<Frame>)
  {
    forall i :: 0 <= i < |ch| ==> !ch[i].Open? && !ch[i].Control?
                                  && (IsAck(ch[i]) ==> ch[i].connWindow == z.s.bufs.ledger.window)
  }

  /** What no event undoes. */
  ghost predicate Grows(z: System, y: System)
  {
    && (forall sid :: sid in z.c.out.txs ==>
          && sid in y.c.out.txs && y.c.out.txs[sid].sends == z.c.out.txs[sid].sends
          && RxAt(y.c.bufs, sid).win == RxAt(z.c.bufs, sid).win)
    && (z.s.draining ==> y.s.draining && forall sid :: sid in y.s.out.txs ==> sid in z.s.out.txs)
    && y.c.bufs.ledger.window == z.c.bufs.ledger.window && y.s.bufs.ledger.window == z.s.bufs.ledger.window
    && (z.c.locked ==> y.c.locked)
    && (z.s.acked ==> y.s.acked)
    && (z.s.known ==> y.s.known)
    && z.c.left <= y.c.left
    && z.s.seen <= y.s.seen && (forall sid :: sid in z.s.seen && sid in y.s.out.txs ==> sid in z.s.out.txs)
  }

  /** The server admits no call and processes no OPEN. */
  ghost predicate Settled(z: System, y: System)
  {
    && (forall sid :: sid in y.s.out.txs ==> sid in z.s.out.txs && y.s.out.txs[sid].sends == z.s.out.txs[sid].sends)
    && y.s.seen == z.s.seen && y.s.known == z.s.known && y.s.heard == z.s.heard && y.s.hwm == z.s.hwm
  }

  lemma StillOvertaken(z: System, y: System)
    requires Grows(z, y) && !Straight(z)
    ensures !Straight(y)
  {
    OvertakenStays(z.c.left, y.c.left);
  }

  lemma OnGrows(z: System, y: System, ch: seq<Frame>, acked: bool)
    requires LeadsOn(z, ch, acked) && Grows(z, y)
    ensures LeadsOn(y, ch, acked)
  {
    assert Barren(z) ==> Barren(y);
    if !Straight(z) { StillOvertaken(z, y); }
    if !y.c.locked {
      forall i | 0 <= i < |Lead(ch)|
        ensures LeadOk(y, Lead(ch)[i])
      {
        assert LeadOk(z, Lead(ch)[i]);
      }
    }
  }

  lemma OnPush(y: System, ch: seq<Frame>, acked: bool, x: Frame)
    requires LeadsOn(y, ch, acked) && (IsAck(x) || acked || LeadOk(y, x))
    ensures LeadsOn(y, ch + [x], acked || IsAck(x))
  {
    LeadPush(ch, x);
  }

  lemma OnPop(y: System, ch: seq<Frame>, acked: bool)
    requires LeadsOn(y, ch, acked) && ch != []
    ensures !y.c.locked ==> if IsAck(ch[0]) then acked else LeadOk(y, ch[0]) && LeadsOn(y, ch[1..], acked)
  {
    if !y.c.locked {
      if IsAck(ch[0]) {
        assert Lead(ch) != ch;
      } else {
        assert LeadOk(y, Lead(ch)[0]);
        assert forall i :: 0 <= i < |Lead(ch[1..])| ==> Lead(ch[1..])[i] == Lead(ch)[i + 1];
        assert ch == [ch[0]] + ch[1..];
      }
    }
  }

  /** Hearing a frame. */
  lemma LeadsPop(z: System, y: System)
    requires Leads(z) && Grows(z, y) && z.down != [] && y.down == z.down[1..] && y.s.acked == z.s.acked
    requires IsAck(z.down[0]) ==> y.c.locked
    ensures Leads(y)
  {
    OnPop(z, z.down, z.s.acked);
    if !y.c.locked { OnGrows(z, y, y.down, y.s.acked); }
  }

  lemma LeadsSame(z: System, y: System)
    requires Leads(z) && Grows(z, y) && y.down == z.down && y.s.acked == z.s.acked
    ensures Leads(y)
  {
    OnGrows(z, y, z.down, z.s.acked);
  }

  lemma MarksKept(z: System, y: System)
    requires Marks(z) && Grows(z, y) && Settled(z, y)
    requires y.c.locked ==> z.c.locked || z.s.acked
    requires y.s.stopped ==> y.s.draining
    requires y.refunded > 0 ==> Barren(z) || !Straight(z)
    requires Opens(y, y.up)
    ensures Marks(y)
  {
    if !Straight(z) { StillOvertaken(z, y); }
  }

  // ------------------------------------------------------------------
  // which OPENs are where
  // ------------------------------------------------------------------

  /** Sids are allocated once, and opened at most once. */
  ghost predicate Numbered(c: Client)
  {
    && (forall sid :: sid in c.waiting ==> 0 < sid <= c.next && sid !in c.out.txs)
    && (forall sid :: sid in c.out.txs ==> 0 < sid <= c.next)
  }

  /** OPEN x is the one of a call of the client. */
  predicate OfCall(c: Client, x: Shape) { x.sid in c.out.txs && c.out.txs[x.sid].sends == x.ups }

  /** Until the lock the server has heard a prefix of the OPENs that left, and the rest is in flight; a
      server that answered none has found every streaming one late. */
  ghost predicate Trail(z: System)
  {
    && z.s.heard <= |z.c.left| && OpensIn(z.up) == z.c.left[z.s.heard..]
    && Distinct(z.c.left) && (forall k :: 0 <= k < |z.c.left| ==> OfCall(z.c, z.c.left[k]))
    && (forall sid :: sid in z.s.seen ==> exists k :: 0 <= k < z.s.heard && z.c.left[k].sid == sid)
    && (!z.s.acked && !z.s.draining ==> Followed(z.c.left, z.s.heard, z.s.hwm))
  }

  ghost predicate Track(z: System)
  {
    Numbered(z.c) && (!z.s.known ==> z.s.hwm == 0) && (!z.c.locked ==> Trail(z))
  }

  lemma TrailKept(z: System, y: System)
    requires Trail(z) && Grows(z, y) && Settled(z, y) && y.c.left == z.c.left && OpensIn(y.up) == OpensIn(z.up)
    ensures Trail(y)
  {
    forall k | 0 <= k < |y.c.left|
      ensures OfCall(y.c, y.c.left[k])
    {
      assert OfCall(z.c, z.c.left[k]);
    }
  }

  /** An event that neither sends nor hears an OPEN. */
  lemma TrackKept(z: System, y: System)
    requires Track(z) && Grows(z, y) && Settled(z, y) && y.c.left == z.c.left && OpensIn(y.up) == OpensIn(z.up)
    requires y.c.next == z.c.next && y.c.waiting == z.c.waiting && y.c.out.txs.Keys == z.c.out.txs.Keys
    ensures Track(y)
  {
    if !y.c.locked { TrailKept(z, y); }
  }

  /** A server that has answered nothing and is not draining has only seen calls without client data. */
  lemma SeenSilent(z: System, sid: nat)
    requires Track(z) && !z.c.locked && !z.s.acked && !z.s.draining && Straight(z) && sid in z.s.seen
    ensures Silent(z, sid)
  {
    var k :| 0 <= k < z.s.heard && z.c.left[k].sid == sid;
    assert OfCall(z.c, z.c.left[k]);
    UnansweredSilent(z.c.left, z.s.heard, k);
  }

  // ------------------------------------------------------------------
  // nothing is undone
  // ------------------------------------------------------------------

  lemma ClientGrows(z: System, e: Event)
    requires ByClient(e)
    ensures Grows(z, Next(z, e)) && Settled(z, Next(z, e))
  {
  }

  lemma AckGrows(z: System, f: Frame)
    requires f.Head? || f.Term?
    ensures var y := if f.Head? then HearHead(z, f.sid, f.window, f.connWindow) else HearTerm(z, f.sid, f.connWindow);
            Grows(z, y) && Settled(z, y)
  {
  }

  lemma DataGrows(z: System, sid: nat, ok: bool)
    ensures var y := HearData(z, sid, ok); Grows(z, y) && Settled(z, y)
  {
  }

  lemma ResetGrows(z: System, sid: nat)
    ensures var y := HearReset(z, sid); Grows(z, y) && Settled(z, y)
  {
    if ClientLive(z, sid) { ResetParts(z, sid); }
  }

  lemma HearGrows(z: System, ok: bool)
    ensures Grows(z, ClientHears(z, ok)) && Settled(z, ClientHears(z, ok))
  {
    if z.down != [] {
      var (f, w) := (z.down[0], z.(down := z.down[1..]));
      match f
      case Head(_, _, _) => AckGrows(w, f);
      case Term(_, _) => AckGrows(w, f);
      case Data(sid) => DataGrows(w, sid, ok);
      case Reset(sid) => ResetGrows(w, sid);
      case _ =>
    }
  }

  lemma ServerGrows(z: System, e: Event)
    requires ByServer(e)
    ensures Grows(z, Next(z, e)) && Settled(z, Next(z, e))
  {
  }

  lemma ServerRecvGrows(z: System, sid: nat, delivered: bool)
    ensures Grows(z, ServerTakes(z, sid, delivered)) && Settled(z, ServerTakes(z, sid, delivered))
  {
  }

  lemma FinishParts(z: System, sid: nat, term: bool)
    requires ServerLive(z, sid)
    ensures var (y, b) := (Finished(z, sid, term), B.Close(z.s.bufs, K(sid)).0);
            && y.c == z.c && y.s == z.s.(out := S.End(z.s.out, sid), bufs := b, acked := z.s.acked || term)
            && b.ledger.window == z.s.bufs.ledger.window
  {
  }

  lemma FinishGrows(z: System, sid: nat, term: bool)
    ensures Grows(z, Finished(z, sid, term)) && Settled(z, Finished(z, sid, term))
  {
    if ServerLive(z, sid) { FinishParts(z, sid, term); }
  }

  lemma BuffersGrows(z: System, sid: nat, ok: bool)
    ensures Grows(z, ServerBuffers(z, sid, ok)) && Settled(z, ServerBuffers(z, sid, ok))
  {
  }

  lemma ServerDataGrows(z: System, sid: nat, ok: bool)
    ensures Grows(z, HearClientData(z, sid, ok)) && Settled(z, HearClientData(z, sid, ok))
  {
    BuffersGrows(z, sid, ok);
  }
}
