/** The reply that confirms a pair bundle releases its link; with it, every reply keeps the invariant. */
module SaveRelease {
  import opened Items
  import opened Seqs
  import opened SaveTypes
  import opened SaveSteps
  import opened SaveInvariant
  import opened SaveViews
  import opened SaveKeeps
  import opened SaveReplies

  /** The other account of link `i` than the one just answered, or either of them. */
  lemma EitherClears(w: World, v: World, i: nat, k: nat)
    requires Inv(w) && w.replies != [] && i < |w.pairs| && TwoSided(w.pairs[i]) && k < 2
    requires v == OnSaveReply(Tail(w), w.replies[0])
    requires Finished(w.pairs[i], k, ViewOf(w, w.pairs[i].sides[k].account))
    requires w.pairs[i].sides[k].account != w.replies[0].account ==> ViewOf(w, w.pairs[i].sides[k].account).rs == []
    ensures ReadyToClear(ViewOf(v, w.pairs[i].sides[k].account), w.pairs[i].sides[k])
    ensures ViewOk(v.table, ViewOf(v, w.pairs[i].sides[k].account), w.pairs[i].sides[k].account)
  {
    hide Inv, ViewOf, ViewOk, OnSaveReply, Tail, Finished, HandledView, Frame, ReadyToClear;
    var a := w.pairs[i].sides[k].account;
    SaveReplyFrame(w);
    TheView(w, a);
    FinishedClears(w.table, ViewOf(w, a), a, w.pairs[i], k);
    if a == w.replies[0].account { HandledOk(w.table, ViewOf(w, a), a); }
  }

  /** The next reply answers side `k` of link `i`, the other side is answered already, and both answers are good. */
  ghost predicate Completes(w: World, i: nat, k: nat) {
    && w.replies != [] && i < |w.pairs| && Has(w.pairs[i], w.replies[0].account)
    && TwoSided(w.pairs[i]) && k == SideOf(w.pairs[i], w.replies[0].account)
    && w.pairs[i].sides[1 - k].replied && w.pairs[i].ok && w.replies[0].ok
  }

  /** The reply has been heard and the link taken off the list. */
  function Unlinked(w: World, i: nat): World
    requires w.replies != [] && i < |w.pairs|
  {
    OnSaveReply(Tail(w), w.replies[0]).(pairs := Without(w.pairs, i))
  }

  /** Both replies of link `i` are in and good: its trade is stored, and nothing of either account is outstanding. */
  lemma LinkDone(w: World, i: nat, k: nat)
    requires Inv(w) && Completes(w, i, k)
    ensures var l := w.pairs[i];
            && l.sides[0].account != l.sides[1].account
            && DbAt(w, l.sides[0].account) >= l.sides[0].tradeAt && DbAt(w, l.sides[1].account) >= l.sides[1].tradeAt
            && Finished(l, 0, ViewOf(w, l.sides[0].account)) && Finished(l, 1, ViewOf(w, l.sides[1].account))
            && l.sides[k].account == w.replies[0].account
            && ViewOf(w, l.sides[1 - k].account).rs == []
  {
    hide Inv, ViewOf, LinkOk, Has, Finished;
    var l := w.pairs[i];
    TheLink(w, i);
    SideHas(l, w.replies[0].account);
    HeadSeen(w);
    LinkMatches(w.jobs, l, ViewOf(w, l.sides[0].account), ViewOf(w, l.sides[1].account));
    LinkSidesDiffer(w.jobs, l, ViewOf(w, l.sides[0].account), ViewOf(w, l.sides[1].account));
    DbAtSeen(w, l.sides[0].account);
    DbAtSeen(w, l.sides[1].account);
  }

  lemma DbAtSeen(w: World, a: Account)
    ensures ViewOf(w, a).dbAt == DbAt(w, a)
  {
    hide Gather, ReadChar;
  }

  lemma HeadSeen(w: World)
    requires w.replies != []
    ensures ViewOf(w, w.replies[0].account).rs != [] && ViewOf(w, w.replies[0].account).rs[0] == w.replies[0]
  {
    hide ViewOf;
    TailViews(w);
  }

  /** The state in which the link is gone and both holds are off. */
  function Released(w: World, i: nat): World
    requires w.replies != [] && i < |w.pairs| && TwoSided(w.pairs[i])
  {
    Cleared2(Unlinked(w, i), w.pairs[i].sides[0], w.pairs[i].sides[1])
  }

  /** Which accounts see the release: those of the link only. */
  lemma ReleasedFrame(w: World, i: nat, k: nat)
    requires Inv(w) && Completes(w, i, k)
    ensures var l, v := w.pairs[i], Released(w, i);
            && Frame(v) && v.table == w.table && v.trades == w.trades && v.pairs == Without(w.pairs, i)
            && v.jobs == w.jobs && v.dbAt == w.dbAt
            && (forall b :: b != l.sides[0].account && b != l.sides[1].account ==> ViewOf(v, b) == ViewOf(w, b))
            && ViewOk(v.table, ViewOf(v, l.sides[0].account), l.sides[0].account)
                 && !Paired(ViewOf(v, l.sides[0].account))
            && ViewOk(v.table, ViewOf(v, l.sides[1].account), l.sides[1].account)
                 && !Paired(ViewOf(v, l.sides[1].account))
  {
    hide Inv, ViewOf, ViewOk, OnSaveReply, Tail, Finished, Frame, Paired, ClearedView, Cleared2, Without, Has,
         ReadyToClear, HandledView;
    var l := w.pairs[i];
    var u := OnSaveReply(Tail(w), w.replies[0]);
    var u' := u.(pairs := Without(w.pairs, i));
    LinkDone(w, i, k);
    SaveReplyFrame(w);
    EitherClears(w, u, i, 0);
    EitherClears(w, u, i, 1);
    PairsFrame(u, Without(w.pairs, i));
    BothClear(u', l.sides[0], l.sides[1]);
    ReadyClears(w.table, ViewOf(u, l.sides[0].account), l.sides[0].account, l.sides[0]);
    ReadyClears(w.table, ViewOf(u, l.sides[1].account), l.sides[1].account, l.sides[1]);
  }

  lemma ReadyClears(table: ItemTable, v: View, a: Account, sd: Side)
    requires ViewOk(table, v, a) && ReadyToClear(v, sd)
    ensures ViewOk(table, ClearedView(v), a) && !Paired(ClearedView(v))
  {
    hide ViewOk, ClearedView, Paired;
    ClearedOk(table, v, a);
  }

  lemma ReleasedKeeps(w: World, i: nat, k: nat)
    requires Inv(w) && Completes(w, i, k)
    ensures Inv(Released(w, i))
  {
    hide ViewOf, ViewOk, Paired, Has, Released, ViewsOk, LinksOk, TradesOk, Base, QueuesOk, Flying, Finished, Without;
    var l, v := w.pairs[i], Released(w, i);
    ReleasedFrame(w, i, k);
    LinkDone(w, i, k);
    ViewsAfter(w, v, l.sides[0].account, l.sides[1].account);
    LinksWithout(w, v, i);
    assert forall b :: DbAt(v, b) == DbAt(w, b);
    TradesReleased(w, v, i);
  }

  /** Releasing both sides is clearing both holds, then setting each side going again. */
  lemma ReleaseIsFollow(w: World, i: nat, k: nat)
    requires Inv(w) && Completes(w, i, k)
    ensures var d0, d1 := w.pairs[i].sides[0], w.pairs[i].sides[1];
            && ReleasePairSide(ReleasePairSide(Unlinked(w, i), d0), d1) == Follow(Follow(Released(w, i), d0), d1)
            && d0.account != d1.account
            && LetGo(Released(w, i), d0) && LetGo(Released(w, i), d1)
  {
    hide Inv, ViewOf, ViewOk, OnSaveReply, Tail, Finished, Frame, Paired, Cleared2, Without, Has, ReadyToClear,
         HandledView, ReleasePairSide, Follow, LetGo;
    var l := w.pairs[i];
    var u := OnSaveReply(Tail(w), w.replies[0]);
    var u' := u.(pairs := Without(w.pairs, i));
    LinkDone(w, i, k);
    SaveReplyFrame(w);
    EitherClears(w, u, i, 0);
    EitherClears(w, u, i, 1);
    PairsFrame(u, Without(w.pairs, i));
    BothClear(u', l.sides[0], l.sides[1]);
    HeldBefore(u', l.sides[0]);
    HeldBefore(u', l.sides[1]);
    ReleaseTwo(u', l.sides[0], l.sides[1]);
    HeldAfter(u', l.sides[0], l.sides[1]);
  }

  lemma HeldBefore(w: World, sd: Side)
    requires ReadyToClear(ViewOf(w, sd.account), sd)
    ensures sd.session == LEFT && sd.account in w.leave ==> w.leave[sd.account].paired
  {
    hide Gather, ReadChar;
  }

  lemma HeldAfter(w: World, d0: Side, d1: Side)
    requires d0.account != d1.account
    ensures LetGo(Cleared2(w, d0, d1), d0) && LetGo(Cleared2(w, d0, d1), d1)
  {
  }

  lemma FollowOther(w: World, d0: Side, d1: Side)
    requires d0.account != d1.account && LetGo(w, d1)
    ensures LetGo(Follow(w, d0), d1)
  {
    hide PushSave, SaveFits, LeaveWrite, NextNo;
    if d0.session == LEFT && d0.account in w.leave {
      SentOther(w, d0.account, d1.account);
    }
  }

  lemma SentOther(w: World, a: Account, b: Account)
    requires a in w.leave && a != b
    ensures SendLeaveRecord(w, a).leave.Keys == w.leave.Keys
    ensures b in w.leave ==> SendLeaveRecord(w, a).leave[b] == w.leave[b]
  {
    hide SaveFits, LeaveWrite, NextNo, PushIf;
    var n := NextNo(w.leaveSeq);
    var x := LeaveWrite(a, w.leave[a].(bundleNo := n), None);
    PushIfRest(w.(leaveSeq := n, leave := w.leave[a := w.leave[a].(bundleNo := n, inFlight := SaveFits(w, x))]), x,
               SaveFits(w, x));
  }

  lemma ReplyReleasesKeeps(w: World, i: nat, k: nat)
    requires Inv(w) && Completes(w, i, k)
    ensures Inv(ReleasePairSide(ReleasePairSide(Unlinked(w, i), w.pairs[i].sides[0]), w.pairs[i].sides[1]))
  {
    hide Inv, Unlinked, Has, ReleasePairSide, Follow, Released, LetGo, SideOf;
    var d0, d1 := w.pairs[i].sides[0], w.pairs[i].sides[1];
    ReleaseIsFollow(w, i, k);
    ReleasedKeeps(w, i, k);
    FollowKeeps(Released(w, i), d0);
    FollowOther(Released(w, i), d0, d1);
    FollowKeeps(Follow(Released(w, i), d0), d1);
  }

  // ----- every reply

  lemma ReplyLinkedKeeps(w: World, i: nat)
    requires Inv(w) && w.replies != [] && i == FindPair(w.pairs, w.replies[0].account) && i < |w.pairs|
    ensures Inv(HandleReply(w))
  {
    hide Inv, ViewOf, LinkOk, Has, OnSaveReply, ReleasePairSide, FindPair, MarkedLink, Without, Tail, HandledView;
    var r, l := w.replies[0], w.pairs[i];
    var v := OnSaveReply(Tail(w), r);
    TheLink(w, i);
    var k := SideOf(l, r.account);
    SideHas(l, r.account);
    HeadSeen(w);
    var v0, v1 := ViewOf(w, l.sides[0].account), ViewOf(w, l.sides[1].account);
    LinkMatches(w.jobs, l, v0, v1);
    LinkSidesDiffer(w.jobs, l, v0, v1);
    SaveReplyFrame(w);
    var m := MarkedLink(l, k, r.ok);
    MarkedTrade(l, k, r.ok, false);
    MarkedIs(l, k, r.ok);
    HandledReply(w, i, k);
    if !l.sides[1 - k].replied {
      if k == 0 { LinkFirstAnswer0(w.jobs, l, v0, v1); } else { LinkFirstAnswer1(w.jobs, l, v0, v1); }
      LinkStaysKeeps(w, v, i, m);
    } else if !(l.ok && r.ok) {
      if k == 0 { LinkFailed0(w.jobs, l, v0, v1); } else { LinkFailed1(w.jobs, l, v0, v1); }
      LinkStaysKeeps(w, v, i, m.(inFlight := false));
    } else {
      ReplyReleasesKeeps(w, i, k);
      ReleaseMarked(v.(pairs := Without(w.pairs, i)), l, k, r.ok);
    }
  }

  /** A side's release does not look at whether its answer is in. */
  lemma ReleaseMarked(w: World, l: PairLink, k: nat, ok: bool)
    requires TwoSided(l) && k < 2
    ensures var m := MarkedLink(l, k, ok);
            ReleasePairSide(ReleasePairSide(w, m.sides[0]), m.sides[1])
                == ReleasePairSide(ReleasePairSide(w, l.sides[0]), l.sides[1])
  {
    hide ReleasePairSide;
    var m := MarkedLink(l, k, ok);
    ReleaseSame(w, m.sides[0], l.sides[0]);
    ReleaseSame(ReleasePairSide(w, l.sides[0]), m.sides[1], l.sides[1]);
  }

  lemma ReleaseSame(w: World, d: Side, e: Side)
    requires d.account == e.account && d.session == e.session
    ensures ReleasePairSide(w, d) == ReleasePairSide(w, e)
  {
    hide RequestSave, SendLeaveRecord;
  }

  lemma MarkedIs(l: PairLink, k: nat, ok: bool)
    requires TwoSided(l) && k < 2
    ensures var m := MarkedLink(l, k, ok);
            && TwoSided(m) && m.sides[1 - k].replied == l.sides[1 - k].replied && m.ok == (l.ok && ok)
  {
  }

  /** What handling the first reply does to its account's link. */
  lemma HandledReply(w: World, i: nat, k: nat)
    requires w.replies != [] && i == FindPair(w.pairs, w.replies[0].account) && i < |w.pairs| && TwoSided(w.pairs[i])
    requires k == SideOf(w.pairs[i], w.replies[0].account)
    requires OnSaveReply(Tail(w), w.replies[0]).pairs == w.pairs
    requires w.pairs[i].inFlight && !w.pairs[i].sides[k].replied
             && w.pairs[i].sides[k].bundleNo == w.replies[0].bundleNo
    ensures var r, l, v := w.replies[0], w.pairs[i], OnSaveReply(Tail(w), w.replies[0]);
            var m := MarkedLink(l, k, r.ok);
            HandleReply(w) ==
              if !l.sides[1 - k].replied then v.(pairs := w.pairs[i := m])
              else if !(l.ok && r.ok) then v.(pairs := w.pairs[i := m.(inFlight := false)])
              else ReleasePairSide(ReleasePairSide(v.(pairs := Without(w.pairs, i)), m.sides[0]), m.sides[1])
  {
    hide OnSaveReply, ReleasePairSide, FindPair, Without;
  }

  lemma HandleReplyKeeps(w: World)
    requires Inv(w) && w.replies != []
    ensures Inv(HandleReply(w))
  {
    hide Inv, HandleReply, Has;
    var i := FindPair(w.pairs, w.replies[0].account);
    if i < |w.pairs| { ReplyLinkedKeeps(w, i); } else { ReplyFreeKeeps(w); }
  }
}
