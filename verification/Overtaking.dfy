/** The order in which OPENs leave a client. A sid is allocated under a lock and its OPEN leaves later,
    so OPENs may pass one another; what that costs depends on which calls have data frames. */
module Overtaking {
  import opened Channel
  import opened Duplex

  /** A call with data frames in some direction is acknowledged when it is admitted, a unary one not. */
  predicate Streaming(x: Shape) { x.ups || x.downs }

  /** A unary OPEN of a higher sid left before OPEN k. */
  ghost predicate Beaten(l: seq<Shape>, k: nat)
    requires k < |l|
  {
    exists i :: 0 <= i < k && !Streaming(l[i]) && l[i].sid > l[k].sid
  }

  /** The first n OPENs need not draw a single H or T: each streaming one may be late. */
  ghost predicate Unanswered(l: seq<Shape>, n: nat)
    requires n <= |l|
  {
    forall k :: 0 <= k < n && Streaming(l[k]) ==> Beaten(l, k)
  }

  /** A call with client data may be late before anything was answered. */
  ghost predicate Overtaken(l: seq<Shape>)
  {
    exists j :: 0 <= j < |l| && l[j].ups && Unanswered(l, j + 1)
  }

  ghost predicate Distinct(l: seq<Shape>) { forall i, j :: 0 <= i < j < |l| ==> l[i].sid != l[j].sid }

  /** After n OPENs without an answer: every streaming one was late, and the watermark is a unary one. */
  ghost predicate Followed(l: seq<Shape>, n: nat, hwm: nat)
    requires n <= |l|
  {
    Unanswered(l, n) && (hwm > 0 ==> exists i :: 0 <= i < n && !Streaming(l[i]) && l[i].sid == hwm)
  }

  lemma BeatenStays(l: seq<Shape>, m: seq<Shape>, k: nat)
    requires l <= m && k < |l| && Beaten(l, k)
    ensures Beaten(m, k)
  {
    var i :| 0 <= i < k && !Streaming(l[i]) && l[i].sid > l[k].sid;
    assert m[i] == l[i];
  }

  lemma UnansweredStays(l: seq<Shape>, m: seq<Shape>, n: nat)
    requires l <= m && n <= |l| && Unanswered(l, n)
    ensures Unanswered(m, n)
  {
    forall k | 0 <= k < n && Streaming(m[k])
      ensures Beaten(m, k)
    {
      BeatenStays(l, m, k);
    }
  }

  lemma FollowedStays(l: seq<Shape>, m: seq<Shape>, n: nat, hwm: nat)
    requires l <= m && n <= |l| && Followed(l, n, hwm)
    ensures Followed(m, n, hwm)
  {
    UnansweredStays(l, m, n);
    if hwm > 0 {
      var i :| 0 <= i < n && !Streaming(l[i]) && l[i].sid == hwm;
      assert m[i] == l[i];
    }
  }

  lemma OvertakenStays(l: seq<Shape>, m: seq<Shape>)
    requires l <= m && Overtaken(l)
    ensures Overtaken(m)
  {
    var j :| 0 <= j < |l| && l[j].ups && Unanswered(l, j + 1);
    UnansweredStays(l, m, j + 1);
    assert m[j].ups;
  }

  /** An OPEN at or below the watermark was beaten. */
  lemma LateIsBeaten(l: seq<Shape>, n: nat, hwm: nat)
    requires n < |l| && Distinct(l) && Followed(l, n, hwm) && 0 < l[n].sid <= hwm
    ensures Followed(l, n + 1, hwm) && (l[n].ups ==> Overtaken(l))
  {
    var i :| 0 <= i < n && !Streaming(l[i]) && l[i].sid == hwm;
    assert Beaten(l, n);
  }

  /** A unary OPEN above it becomes the watermark. */
  lemma UnaryLeads(l: seq<Shape>, n: nat, hwm: nat)
    requires n < |l| && Followed(l, n, hwm) && !Streaming(l[n])
    ensures Followed(l, n + 1, l[n].sid)
  {
  }

  /** Short of overtaking, nothing unanswered has client data. */
  lemma UnansweredSilent(l: seq<Shape>, n: nat, k: nat)
    requires k < n <= |l| && Unanswered(l, n) && !Overtaken(l)
    ensures !l[k].ups
  {
    assert Unanswered(l, k + 1);
  }

  // ------------------------------------------------------------------
  // the OPENs in flight
  // ------------------------------------------------------------------

  function OpensIn(ch: seq<Frame>): seq<Shape>
    decreases |ch|
  {
    if ch == [] then [] else ShapeIn(ch[0]) + OpensIn(ch[1..])
  }

  function ShapeIn(x: Frame): seq<Shape> { if x.Open? then [Shape(x.sid, x.ups, x.downs)] else [] }

  lemma {:induction false} OpensPush(ch: seq<Frame>, x: Frame)
    ensures OpensIn(ch + [x]) == OpensIn(ch) + ShapeIn(x)
    decreases |ch|
  {
    if ch == [] {
      assert ch + [x] == [x] && [x][1..] == [];
      assert OpensIn([x]) == ShapeIn(x) + [];
    } else {
      OpensPush(ch[1..], x);
      assert (ch + [x])[1..] == ch[1..] + [x];
      assert ShapeIn(ch[0]) + (OpensIn(ch[1..]) + ShapeIn(x)) == OpensIn(ch) + ShapeIn(x);
    }
  }
}
