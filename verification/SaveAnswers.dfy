/** What becomes of a save request, of an answer and of a load request: nobody who asked is forgotten. */
module SaveAnswers {
  import opened Items
  import opened Seqs
  import opened SaveTypes
  import opened SaveSteps
  import opened SaveViews
  import opened SaveInvariant
  import opened SaveKeeps
  import SaveReplies
  import opened SaveArrivals
  import opened SaveRuns
  import opened SaveBatch
  import opened SaveProgress

  // ----- the tick-end list

  /** Exactly the players that are noted as listed are on the list, each once. */
  ghost predicate ListOk(w: World) {
    && Once(w.tickEnd)
    && (forall s :: s in w.tickEnd ==> s in w.used)
    && forall s :: s in w.players ==> s in w.used && (w.players[s].flight.listed <==> s in w.tickEnd)
  }

  ghost predicate Once(xs: seq<Session>) { forall i, j :: 0 <= i < j < |xs| ==> xs[i] != xs[j] }

  /** Nobody was listed or taken off the list. */
  ghost predicate SameLists(w: World, v: World) {
    && v.tickEnd == w.tickEnd && w.used <= v.used
    && forall s :: s in v.players ==> s in w.players && v.players[s].flight.listed == w.players[s].flight.listed
  }

  lemma SameListsKeep(w: World, v: World)
    requires ListOk(w) && SameLists(w, v)
    ensures ListOk(v)
  {
  }

  lemma SameTrans(w: World, u: World, v: World)
    requires SameLists(w, u) && SameLists(u, v)
    ensures SameLists(w, v)
  {
  }

  lemma PlayerLists(w: World, u: World, s: Session, q: Player, n: int)
    requires s in w.players && u.players == w.players && u.tickEnd == w.tickEnd && u.used == w.used
    requires q.flight.listed == w.players[s].flight.listed
    ensures SameLists(w, u.(players := w.players[s := q], inflight := n))
    ensures SameLists(w, u.(players := w.players[s := q]))
  {
  }

  lemma PushLists(w: World, x: Write)
    ensures PushSave(w, x).players == w.players && PushSave(w, x).tickEnd == w.tickEnd && PushSave(w, x).used == w.used
  {
    hide Route, Issued;
  }

  lemma BundleLists(w: World, s: Session)
    requires s in w.players
    ensures SameLists(w, SendBundle(w, s))
  {
    hide SameLists, SaveFits, BundleOf, Top, Prepared, Committed, Aborted, PushSave;
    var p := w.players[s];
    var x := BundleOf(p, s, None, Top(w, p.account));
    AskedLists(p, s, Top(w, p.account));
    if !p.flight.paired && p.flight.bundleNo == 0 {
      if SaveFits(w, x) {
        PushLists(w, x);
        PlayerLists(w, PushSave(w, x), s, Committed(Prepared(p), x.bundleNo), w.inflight + 1);
      } else {
        PlayerLists(w, w, s, Aborted(Prepared(p)), w.inflight);
      }
    } else {
      NothingLists(w);
      PlayerLists(w, w, s, p.(flight := p.flight.(again := true)), w.inflight);
    }
  }

  lemma NothingLists(w: World)
    ensures SameLists(w, w)
  {
  }

  lemma AskedLists(p: Player, s: Session, at: nat)
    ensures Aborted(Prepared(p)).flight.listed == p.flight.listed
    ensures Committed(Prepared(p), BundleOf(p, s, None, at).bundleNo).flight.listed == p.flight.listed
    ensures Committed(Prepared(p), p.flight.nextNo).flight.listed == p.flight.listed
  {
  }

  lemma RecordLists(w: World, a: Account)
    requires a in w.leave
    ensures SameLists(w, SendLeaveRecord(w, a))
  {
    hide SaveFits, NextNo, Route, LeaveWrite;
  }

  lemma FlownLists(w: World, d: Side)
    requires SideReady(w, d)
    ensures SameLists(w, Flown(w, d)) && SameLists(w, Dropped(w, d))
  {
    hide NextNo, Prepared, Committed, Aborted;
    if d.session != LEFT { AskedLists(w.players[d.session], 0, 0); }
  }

  lemma PairLists(w: World, i: nat)
    requires i < |w.pairs| && TwoSided(w.pairs[i])
    ensures SameLists(w, SendPair(w, i))
  {
    hide Flown, Dropped, SideReady, HeadOf, PairFits, FlownLink, PushPair, SameLists;
    var d, e := w.pairs[i].sides[0], w.pairs[i].sides[1];
    NothingLists(w);
    if SideReady(w, d) {
      FlownLists(w, d);
      if SideReady(Flown(w, d), e) {
        var u := Flown(Flown(w, d), e);
        var x, y := HeadOf(w, d, e.account), HeadOf(Flown(w, d), e, d.account);
        FlownLists(Flown(w, d), e);
        SameTrans(w, Flown(w, d), u);
        PushedPairLists(w, u, x, y, w.pairs[i := FlownLink(w.pairs[i], x.bundleNo, y.bundleNo)]);
        if SideReady(Dropped(w, d), e) {
          FlownLists(Dropped(w, d), e);
          var v := Dropped(Dropped(w, d), e);
          SameTrans(w, Dropped(w, d), v);
          LinksLists(w, v, w.pairs[i := w.pairs[i].(inFlight := false)]);
        }
      }
    }
  }

  lemma PushedPairLists(w: World, u: World, x: Write, y: Write, links: seq<PairLink>)
    requires SameLists(w, u)
    ensures SameLists(w, PushPair(u, x, y).(pairs := links))
  {
    hide Route, Issued;
    assert PushPair(u, x, y).players == u.players && PushPair(u, x, y).tickEnd == u.tickEnd
           && PushPair(u, x, y).used == u.used;
  }

  lemma LinksLists(w: World, v: World, links: seq<PairLink>)
    requires SameLists(w, v)
    ensures SameLists(w, v.(pairs := links))
  {
  }

  lemma RequestLists(w: World, s: Session)
    requires ListOk(w) && s in w.players
    ensures var v := RequestSave(w, s);
            && ListOk(v) && s in v.tickEnd
            && v == w.(players := w.players[s := w.players[s].(flight := w.players[s].flight.(listed := true))],
                       tickEnd := v.tickEnd)
            && forall t :: t in v.tickEnd <==> t in w.tickEnd || t == s
  {
    var p := w.players[s];
    if p.flight.listed {
      assert p == p.(flight := p.flight.(listed := true));
      assert w.players == w.players[s := p];
    }
  }

  lemma EndOfTickLists(w: World)
    requires ListOk(w) && w.tickEnd != []
    ensures ListOk(EndTickOne(w))
  {
    hide SendBundle, ShouldSave;
    var s, v := w.tickEnd[0], w.(tickEnd := w.tickEnd[1..]);
    assert w.tickEnd == [s] + v.tickEnd;
    if s in v.players {
      var u := v.(players := v.players[s := Unlisted(v.players[s])]);
      assert ListOk(u);
      BundleLists(u, s);
      SameListsKeep(u, SendBundle(u, s));
    }
  }

  lemma LeaveLists(w: World, s: Session)
    requires s in w.players
    ensures SameLists(w, Leave(w, s))
  {
    hide SendLeaveRecord, LastRecord, Detach, SameLists;
    var p := w.players[s];
    var u := Departed(w, s);
    DepartedLists(w, s);
    if !p.flight.paired {
      RecordLists(u, p.account);
      SameTrans(w, u, SendLeaveRecord(u, p.account));
    }
    hide Departed;
    GoneLists(w, LeaveFinal(w, s), s);
  }

  lemma DepartedLists(w: World, s: Session)
    requires s in w.players
    ensures SameLists(w, Departed(w, s)) && w.players[s].account in Departed(w, s).leave
  {
    hide LastRecord, Detach;
  }

  lemma GoneLists(w: World, v: World, s: Session)
    requires SameLists(w, v)
    ensures SameLists(w, v.(players := v.players - {s}))
  {
  }

  lemma LoadLists(w: World, s: Session, a: Account)
    ensures SameLists(w, RequestLoad(w, s, a))
  {
    hide SendLeaveRecord, FindPair, Route, Issued;
    if a in w.leave { RecordLists(w, a); }
  }

  lemma WorkLists(w: World, k: nat, commit: bool, ok: bool)
    requires k < |w.jobs|
    ensures SameLists(w, Execute(w, k, commit, ok))
  {
    hide Upsert, DbOf, Answers, Reads, Without;
  }

  lemma PlayLists(w: World, s: Session, p: Player)
    requires s in w.players && Plays(w.table, w.players[s], p)
    ensures SameLists(w, Played(w, s, p))
  {
    hide HistOf, SnapOf;
  }

  lemma SwapLists(w: World, s: Session, t: Session, p: Player, q: Player)
    requires s in w.players && t in w.players && s != t && Plays(w.table, w.players[s], p)
             && Plays(w.table, w.players[t], q)
    ensures SameLists(w, SaveTrade(Swapped(w, s, t, p, q), s, t))
  {
    hide SendPair, SaveTrade, Tied, SameLists, Played, Plays;
    var x := Swapped(w, s, t, p, q);
    SwappedLists(w, s, t, p, q);
    PlayersOf(w, s, t, p, q);
    TradeIs(x, s, t);
    TiedLists(x, s, t);
    PairLists(Tied(x, s, t), |x.pairs|);
    SameTrans(w, x, Tied(x, s, t));
    SameTrans(w, Tied(x, s, t), SaveTrade(x, s, t));
  }

  lemma TiedLists(x: World, s: Session, t: Session)
    requires s in x.players && t in x.players
    ensures SameLists(x, Tied(x, s, t))
  {
    hide Top, TradeLink;
  }

  lemma PlayersOf(w: World, s: Session, t: Session, p: Player, q: Player)
    requires s in w.players && t in w.players && s != t
    ensures Swapped(w, s, t, p, q).players == w.players[s := p][t := q]
  {
    hide HistOf, SnapOf;
  }

  lemma SwappedLists(w: World, s: Session, t: Session, p: Player, q: Player)
    requires s in w.players && t in w.players && s != t && Plays(w.table, w.players[s], p)
             && Plays(w.table, w.players[t], q)
    ensures SameLists(w, Swapped(w, s, t, p, q))
  {
    hide Plays, SameLists, Played;
    PlayLists(w, s, p);
    PlayedAt(w, s, p, t);
    PlayLists(Played(w, s, p), t, q);
    SameTrans(w, Played(w, s, p), Swapped(w, s, t, p, q));
  }

  lemma PlayedAt(w: World, s: Session, p: Player, t: Session)
    requires s in w.players && t in w.players && s != t
    ensures t in Played(w, s, p).players && Played(w, s, p).players[t] == w.players[t]
            && Played(w, s, p).table == w.table
  {
    hide HistOf, SnapOf;
  }

  // ----- answers

  /** The answer to a live player's bundle: nothing is in flight any more. A good one leaves the marks made since, and
      if the player needed saving meanwhile it stands on the tick-end list; a failed one gives back all that was in
      flight. */
  lemma LiveAnswered(w: World, r: Reply)
    requires ListOk(w) && r.session != LEFT && r.session in w.players
    requires w.players[r.session].account == r.account && w.players[r.session].flight.bundleNo == r.bundleNo
    ensures var v, s, p := OnSaveReply(w, r), r.session, w.players[r.session];
            && ListOk(v) && v.inflight == w.inflight - 1
            && v == w.(players := v.players, tickEnd := v.tickEnd, inflight := v.inflight)
            && v.players.Keys == w.players.Keys
            && (forall t :: t in w.players && t != s ==> v.players[t] == w.players[t])
            && (forall t :: t in v.tickEnd <==> t in w.tickEnd || (t == s && r.ok && p.flight.again))
            && v.players[s].flight.bundleNo == 0 && !v.players[s].flight.again && v.players[s].flight.slots == {}
            && v.players[s].flight.paired == p.flight.paired && v.players[s].bag == p.bag
            && v.players[s].values == p.values && v.players[s].place == p.place && v.players[s].moving == p.moving
            && v.players[s].unsaved == (if r.ok then p.unsaved else p.unsaved + p.flight.slots)
            && v.players[s].saved == (if r.ok then p.saved else p.flight.savedBefore)
            && v.players[s].dirty == (p.dirty || (!r.ok && p.flight.posDirty))
  {
    hide RequestSave;
    var s, p := r.session, w.players[r.session];
    var q := if r.ok then LandedOk(p) else LandedFailed(p, r);
    var u := w.(inflight := w.inflight - 1, players := w.players[s := q]);
    assert u.players.Keys == w.players.Keys && q.flight.listed == p.flight.listed;
    SameListsKeep(w, u);
    if r.ok && p.flight.again { RequestLists(u, s); }
  }

  /** The answer to a leave record's attempt: a good one ends the record, a failed one leaves it to be tried again. */
  lemma RecordAnswered(w: World, r: Reply)
    requires r.session == LEFT && r.account in w.leave && w.leave[r.account].inFlight
    requires w.leave[r.account].bundleNo == r.bundleNo
    ensures var v := OnSaveReply(w, r);
            && v == w.(leave := v.leave)
            && (forall b :: b in v.leave <==> b in w.leave && (b != r.account || !r.ok))
            && (forall b :: b in v.leave && b != r.account ==> v.leave[b] == w.leave[b])
            && (!r.ok ==> v.leave[r.account] == w.leave[r.account].(inFlight := false))
  {
    assert !ForLive(w, r) || r.session == LEFT;
  }

  /** An answer nobody waits for changes nothing. */
  lemma NobodyAnswered(w: World, r: Reply)
    requires r.session != LEFT ==> r.session in w.players ==>
               w.players[r.session].account != r.account || w.players[r.session].flight.bundleNo != r.bundleNo
    requires r.session == LEFT ==> r.account in w.leave ==>
               !w.leave[r.account].inFlight || w.leave[r.account].bundleNo != r.bundleNo
    ensures OnSaveReply(w, r) == w
  {
  }

  /** Everything but the side's player and record is as before, and the list only grows. */
  ghost predicate Beside(w: World, v: World, d: Side) {
    && Queued(w, v) && v.pairs == w.pairs && w.tickEnd <= v.tickEnd && w.used <= v.used && v.leave.Keys == w.leave.Keys
    && (forall t :: t in w.players && (t != d.session || w.players[t].account != d.account) ==>
          t in v.players && v.players[t] == w.players[t])
    && (forall t :: t in w.players ==> t in v.players && v.players[t].account == w.players[t].account)
    && forall b :: b in w.leave && b != d.account ==> b in v.leave && v.leave[b] == w.leave[b]
  }

  /** What the link held back flows again: its player is asked to be saved; its record is in flight, or its queue is
      full. */
  ghost predicate Released(w: World, v: World, from: nat, d: Side) {
    && (d.session != LEFT && d.session in w.players && w.players[d.session].account == d.account ==>
          && d.session in v.players && d.session in v.tickEnd
          && v.players[d.session] == Freed(w.players[d.session]))
    && (d.session == LEFT && d.account in w.leave && w.leave[d.account].paired ==>
          && d.account in v.leave && var r, q := w.leave[d.account], v.leave[d.account];
          && q == r.(paired := false, bundleNo := q.bundleNo, inFlight := q.inFlight)
          && (r.inFlight ==> q == r.(paired := false))
          && (!r.inFlight && q.inFlight ==> RecordIn(v, from, d.account, q))
          && (!q.inFlight ==> QueueFull(v, d.account, 1)))
  }

  function Freed(p: Player): Player { p.(flight := p.flight.(paired := false, listed := true)) }

  lemma SideReleased(w: World, d: Side)
    requires ListOk(w)
    ensures var v := ReleasePairSide(w, d); ListOk(v) && Beside(w, v, d) && Released(w, v, |w.jobs|, d)
  {
    hide ListOk, Beside, Released, RequestSave, SendLeaveRecord;
    BesideItself(w, d);
    if d.session != LEFT {
      if d.session in w.players && w.players[d.session].account == d.account { PlayerReleased(w, d); }
    } else if d.account in w.leave && w.leave[d.account].paired {
      RecordReleased(w, d);
    }
    hide ReleasePairSide;
    if !(d.session in w.players && w.players[d.session].account == d.account) || d.session == LEFT {
      if d.session != LEFT || d.account !in w.leave || !w.leave[d.account].paired { NotReleased(w, d); }
    }
  }

  lemma NotReleased(w: World, d: Side)
    requires if d.session != LEFT then d.session in w.players ==> w.players[d.session].account != d.account
             else d.account in w.leave ==> !w.leave[d.account].paired
    ensures Released(w, w, |w.jobs|, d)
  {
  }

  lemma BesideItself(w: World, d: Side)
    ensures Beside(w, w, d)
  {
    QueuedSelf(w);
  }

  lemma PlayerReleased(w: World, d: Side)
    requires ListOk(w) && d.session != LEFT && d.session in w.players && w.players[d.session].account == d.account
    ensures var v := ReleasePairSide(w, d); ListOk(v) && Beside(w, v, d) && Released(w, v, |w.jobs|, d)
  {
    hide ListOk, Beside, Released, RequestSave;
    var p := w.players[d.session];
    var q := p.(flight := p.flight.(paired := false));
    var u := w.(players := w.players[d.session := q]);
    UntiedLists(w, u, d.session, q);
    RequestLists(u, d.session);
    OnlyAdds(u, d.session);
    FreedIs(w, u, RequestSave(u, d.session), d, q);
  }

  lemma UntiedLists(w: World, u: World, s: Session, q: Player)
    requires ListOk(w) && s in w.players && u == w.(players := w.players[s := q])
    requires q.flight.listed == w.players[s].flight.listed
    ensures ListOk(u)
  {
    SameListsKeep(w, u);
  }

  lemma OnlyAdds(u: World, s: Session)
    requires s in u.players
    ensures u.tickEnd <= RequestSave(u, s).tickEnd
  {
  }

  lemma FreedIs(w: World, u: World, v: World, d: Side, q: Player)
    requires d.session != LEFT && d.session in w.players && w.players[d.session].account == d.account
    requires q == w.players[d.session].(flight := w.players[d.session].flight.(paired := false))
    requires u == w.(players := w.players[d.session := q]) && d.session in v.tickEnd && u.tickEnd <= v.tickEnd
    requires v == u.(players := u.players[d.session := q.(flight := q.flight.(listed := true))], tickEnd := v.tickEnd)
    ensures Beside(w, v, d) && Released(w, v, |w.jobs|, d)
  {
    assert v.players.Keys == w.players.Keys;
  }

  lemma RecordReleased(w: World, d: Side)
    requires ListOk(w) && d.session == LEFT && d.account in w.leave && w.leave[d.account].paired
    ensures var v := ReleasePairSide(w, d); ListOk(v) && Beside(w, v, d) && Released(w, v, |w.jobs|, d)
  {
    hide Once, SendLeaveRecord, RecordIn, QueueFull;
    var a, r := d.account, w.leave[d.account].(paired := false);
    var u := w.(leave := w.leave[a := r]);
    assert u.leave.Keys == w.leave.Keys;
    LeaveQueued(w, u);
    SameListsKeep(w, u);
    if !r.inFlight {
      var v := SendLeaveRecord(u, a);
      SentRecord(u, a);
      RecordLists(u, a);
      SameListsKeep(u, v);
      QueuedTrans(w, u, v);
    }
  }

  /** An answer to side `k` of link `i`: noted; with both answers in, and not both good, the link waits to be sent
      again; with both good the link is gone and what it held back flows again. Nobody else is touched. */
  lemma PairAnswered(w: World, r: Reply, i: nat, k: nat)
    requires ListOk(w) && i < |w.pairs| && |w.pairs[i].sides| == 2 && k < 2
    requires w.pairs[i].sides[0].account != w.pairs[i].sides[1].account && w.pairs[i].sides[k].account == r.account
    requires forall j :: 0 <= j < i ==> !Has(w.pairs[j], r.account)
    requires w.pairs[i].inFlight && w.pairs[i].sides[k].bundleNo == r.bundleNo && !w.pairs[i].sides[k].replied
    ensures var v, l := OnPairReply(w, r), w.pairs[i];
            var m := l.(sides := l.sides[k := l.sides[k].(replied := true)], ok := l.ok && r.ok);
            && ListOk(v)
            && (!l.sides[1 - k].replied ==> v == w.(pairs := w.pairs[i := m]))
            && (l.sides[1 - k].replied && !m.ok ==> v == w.(pairs := w.pairs[i := m.(inFlight := false)]))
            && (l.sides[1 - k].replied && m.ok ==> LinkGone(w, v, i))
  {
    hide ReleasePairSide, ListOk, LinkGone, TwoSided, Without;
    var l := w.pairs[i];
    var m := l.(sides := l.sides[k := l.sides[k].(replied := true)], ok := l.ok && r.ok);
    assert Has(l, r.account);
    FirstIs(w.pairs, r.account, i);
    assert TwoSided(l) && SideOf(l, r.account) == k by { TwoOf(l, r.account, k); }
    LinksOnly(w, w.pairs[i := m]);
    LinksOnly(w, w.pairs[i := m.(inFlight := false)]);
    if l.sides[1 - k].replied && m.ok {
      var u := w.(pairs := Without(w.pairs, i));
      LinksOnly(w, Without(w.pairs, i));
      SideReleased(u, m.sides[0]);
      SideReleased(ReleasePairSide(u, m.sides[0]), m.sides[1]);
      BothReleased(w, u, ReleasePairSide(u, m.sides[0]), OnPairReply(w, r), i, m);
    }
  }

  lemma FirstIs(links: seq<PairLink>, a: Account, i: nat)
    requires i < |links| && Has(links[i], a) && forall j :: 0 <= j < i ==> !Has(links[j], a)
    ensures FindPair(links, a) == i
  {
  }

  lemma TwoOf(l: PairLink, a: Account, k: nat)
    requires |l.sides| == 2 && k < 2 && l.sides[0].account != l.sides[1].account && l.sides[k].account == a
    ensures TwoSided(l) && SideOf(l, a) == k
  {
  }

  lemma LinksOnly(w: World, links: seq<PairLink>)
    requires ListOk(w)
    ensures ListOk(w.(pairs := links))
  {
  }

  /** The link is taken out, and both its sides are released. */
  ghost predicate LinkGone(w: World, v: World, i: nat)
    requires i < |w.pairs| && |w.pairs[i].sides| == 2
  {
    var d, e := w.pairs[i].sides[0], w.pairs[i].sides[1];
    && v.pairs == w.pairs[..i] + w.pairs[i + 1..]
    && Released(w, v, |w.jobs|, d) && Released(w, v, |w.jobs|, e)
    && (forall t :: t in w.players && (t != d.session || w.players[t].account != d.account)
                    && (t != e.session || w.players[t].account != e.account) ==>
          t in v.players && v.players[t] == w.players[t])
    && v.players.Keys == w.players.Keys && v.leave.Keys == w.leave.Keys
    && forall b :: b in w.leave && b != d.account && b != e.account ==> v.leave[b] == w.leave[b]
  }

  lemma BothReleased(w: World, u: World, x: World, v: World, i: nat, m: PairLink)
    requires i < |w.pairs| && |w.pairs[i].sides| == 2 && u == w.(pairs := Without(w.pairs, i)) && |m.sides| == 2
    requires w.pairs[i].sides[0].account != w.pairs[i].sides[1].account
    requires forall k :: 0 <= k < 2 ==> m.sides[k].account == w.pairs[i].sides[k].account
                                        && m.sides[k].session == w.pairs[i].sides[k].session
    requires Beside(u, x, m.sides[0]) && Released(u, x, |u.jobs|, m.sides[0])
    requires Beside(x, v, m.sides[1]) && Released(x, v, |x.jobs|, m.sides[1])
    ensures LinkGone(w, v, i)
  {
    hide Released, Queued;
    var d, e := m.sides[0], m.sides[1];
    StaysReleased(u, x, v, d, e);
    WasReleased(u, x, v, d, e);
    SameSide(w, u, v, d, w.pairs[i].sides[0]);
    SameSide(w, u, v, e, w.pairs[i].sides[1]);
    QueuedParts(u, x);
    QueuedParts(x, v);
  }

  lemma SameSide(w: World, u: World, v: World, d: Side, e: Side)
    requires u.players == w.players && u.leave == w.leave && u.jobs == w.jobs
    requires d.account == e.account && d.session == e.session && Released(u, v, |u.jobs|, d)
    ensures Released(w, v, |w.jobs|, e)
  {
    hide RecordIn, QueueFull;
  }

  lemma StaysReleased(u: World, x: World, v: World, d: Side, e: Side)
    requires Released(u, x, |u.jobs|, d) && Beside(x, v, e) && d.account != e.account
    ensures Released(u, v, |u.jobs|, d)
  {
    hide RecordIn, QueueFull, Queued;
    if d.session == LEFT && d.account in u.leave && u.leave[d.account].paired {
      var q := x.leave[d.account];
      if QueueFull(x, d.account, 1) { StaysFull(x, v, d.account, 1); }
      if RecordIn(x, |u.jobs|, d.account, q) { StaysRecord(x, v, |u.jobs|, d.account, q); }
    }
  }

  lemma WasReleased(u: World, x: World, v: World, d: Side, e: Side)
    requires Beside(u, x, d) && Released(x, v, |x.jobs|, e) && d.account != e.account
    ensures Released(u, v, |u.jobs|, e)
  {
    hide QueueFull;
  }

  // ----- over runs

  lemma AnswerLists(w: World)
    requires ListOk(w) && w.replies != []
    ensures ListOk(SaveReplies.HandleReply(w))
  {
    hide ListOk, OnPairReply;
    var r := w.replies[0];
    var u := w.(replies := w.replies[1..]);
    assert ListOk(u) by { RepliesOnly(w, w.replies[1..]); }
    SavedLists(u, r);
    LinkedLists(OnSaveReply(u, r), r);
  }

  lemma RepliesOnly(w: World, rs: seq<Reply>)
    requires ListOk(w)
    ensures ListOk(w.(replies := rs))
  {
  }

  lemma SavedLists(w: World, r: Reply)
    requires ListOk(w)
    ensures ListOk(OnSaveReply(w, r))
  {
    hide ListOk;
    if r.session != LEFT {
      if ForLive(w, r) { LiveAnswered(w, r); } else { NobodyAnswered(w, r); }
    } else if ForRecord(w, r) {
      LeaveOnly(w, OnSaveReply(w, r));
    } else {
      NobodyAnswered(w, r);
    }
  }

  lemma LeaveOnly(w: World, v: World)
    requires ListOk(w) && v == w.(leave := v.leave)
    ensures ListOk(v)
  {
  }

  lemma LinkedLists(w: World, r: Reply)
    requires ListOk(w)
    ensures ListOk(OnPairReply(w, r))
  {
    hide ListOk, ReleasePairSide, FindPair, SideOf, Without;
    var i := FindPair(w.pairs, r.account);
    if i < |w.pairs| && TwoSided(w.pairs[i]) {
      var l, k := w.pairs[i], SideOf(w.pairs[i], r.account);
      assert k < 2 by { SideUnder(l, r.account); }
      var m := l.(sides := l.sides[k := l.sides[k].(replied := true)], ok := l.ok && r.ok);
      LinksOnly(w, w.pairs[i := m]);
      LinksOnly(w, w.pairs[i := m.(inFlight := false)]);
      LinksOnly(w, Without(w.pairs, i));
      var u := w.(pairs := Without(w.pairs, i));
      SideReleased(u, m.sides[0]);
      SideReleased(ReleasePairSide(u, m.sides[0]), m.sides[1]);
    }
  }

  lemma SideUnder(l: PairLink, a: Account)
    ensures SideOf(l, a) < 2
  {
  }

  lemma EntryLists(w: World, enter: bool, place: Place, values: Values, saved: Values, dirty: bool)
    requires ListOk(w) && w.loads != [] && (enter ==> w.loads[0].session !in w.used)
    ensures ListOk(HandedOn(w, enter, place, values, saved, dirty))
  {
    hide EnteredHist, ComesBack, Stored, ReadBag, ReadMoney, DbAt, HistOf;
  }

  lemma StepLists(w: World, act: Action)
    requires ListOk(w) && Enabled(w, act)
    ensures ListOk(Step(w, act))
  {
    hide ListOk, SendBundle, SendPair, SendLeaveRecord, Leave, Execute, SaveTrade, Swapped, Played, RequestLoad, Fetch,
         TakeOver, Slip, SaveReplies.HandleReply, HandedOn, EndTickOne, RequestSave, Plays, IsNext, CanSlip, Admits,
         CanSaveTradeNow, SameLists;
    NothingLists(w);
    match act
    case Play(s, p) => PlayLists(w, s, p); SameListsKeep(w, Step(w, act));
    case Ask(s) => RequestLists(w, s);
    case EndTick => EndOfTickLists(w);
    case Period(s) => BundleLists(w, s); SameListsKeep(w, Step(w, act));
    case Retry(a) => RecordLists(w, a); SameListsKeep(w, Step(w, act));
    case RetryPair(i) => PairLists(w, i); SameListsKeep(w, Step(w, act));
    case Depart(s) => LeaveLists(w, s); SameListsKeep(w, Step(w, act));
    case Swap(s, t, p, q) => SwapLists(w, s, t, p, q); SameListsKeep(w, Step(w, act));
    case AskLoad(s, a) => LoadLists(w, s, a); SameListsKeep(w, Step(w, act));
    case ReadFirst(k) => NextIs(w, k); FetchLists(w, k); SameListsKeep(w, Step(w, act));
    case Work(k, commit, ok) => NextIs(w, k); WorkLists(w, k, commit, ok); SameListsKeep(w, Step(w, act));
    case Take(k) => TakeLists(w, k); SameListsKeep(w, Step(w, act));
    case Reorder(i) => SlipLists(w, i); SameListsKeep(w, Step(w, act));
    case Answer => AnswerLists(w);
    case HandOn(enter, place, values, saved, dirty) => NewSession(w, act);
        EntryLists(w, enter, place, values, saved, dirty);
  }

  lemma FetchLists(w: World, k: nat)
    requires k < |w.jobs| && w.jobs[k].Load?
    ensures SameLists(w, Fetch(w, k))
  {
    hide RowNow;
  }

  lemma NextIs(w: World, k: nat)
    requires IsNext(w, k)
    ensures k < |w.jobs|
  {
  }

  lemma TakeLists(w: World, k: nat)
    ensures SameLists(w, TakeOver(w, k))
  {
  }

  lemma SlipLists(w: World, i: nat)
    requires CanSlip(w, i)
    ensures i + 1 < |w.replies| && SameLists(w, Slip(w, i))
  {
  }

  lemma NewSession(w: World, act: Action)
    requires act.HandOn? && Enabled(w, act)
    ensures w.loads != [] && (act.enter ==> w.loads[0].session !in w.used)
  {
  }

  lemma {:induction false} ListStays(w: World, acts: seq<Action>)
    requires ListOk(w) && CanRun(w, acts)
    ensures ListOk(Ran(w, acts))
    decreases |acts|
  {
    hide ListOk, Enabled, Step;
    if acts != [] {
      StepLists(w, acts[0]);
      ListStays(Step(w, acts[0]), acts[1..]);
    }
  }

  /** In every run, linked entries included, the tick-end list holds exactly the players that are noted as listed, each
      once: nobody who has asked is dropped from it before the end of the tick. */
  lemma ListIsExact(w0: World, acts: seq<Action>)
    requires Initial(w0) && CanRun(w0, acts)
    ensures var w := Ran(w0, acts);
            && ListOk(w) && (forall s :: s in w.players ==> (w.players[s].flight.listed <==> s in w.tickEnd))
            && forall i, j :: 0 <= i < j < |w.tickEnd| ==> w.tickEnd[i] != w.tickEnd[j]
  {
    hide Ran, CanRun;
    assert ListOk(w0);
    ListStays(w0, acts);
  }

  /** Who has asked is looked at when the tick ends. */
  lemma AskedIsSaved(w: World, s: Session)
    requires Inv(w) && ListOk(w) && s in w.players
    ensures var p := w.players[s].(flight := w.players[s].flight.(listed := true));
            Attended(p, TickEndJudged(RequestSave(w, s)), |w.jobs|, s)
  {
    hide Inv, ListOk, Attended, TickEndJudged, Queued;
    var u := RequestSave(w, s);
    RequestLists(w, s);
    RequestSaveKeeps(w, s);
    QuietTickSaves(u);
  }

  // ----- loads

  predicate LoadFor(j: Job, s: Session, a: Account) { j.Load? && j.account == a && j.session == s && j.read == None }

  predicate SavesFrom(jobs: seq<Job>, i: nat, j: nat) { forall k :: i <= k < j && k < |jobs| ==> jobs[k].Save? }

  /** The load is queued exactly when its worker has room for loads, and is the last job then. */
  ghost predicate LoadIn(w: World, v: World, s: Session, a: Account) {
    var k := Route(w, a);
    if k < |w.loadsQueued| && w.loadsQueued[k] < w.queueMax then
      && |v.jobs| > |w.jobs| && LoadFor(v.jobs[|v.jobs| - 1], s, a) && SavesFrom(v.jobs, |w.jobs|, |v.jobs| - 1)
      && v.loadsQueued == w.loadsQueued[k := w.loadsQueued[k] + 1]
    else
      v.loadsQueued == w.loadsQueued && SavesFrom(v.jobs, |w.jobs|, |v.jobs|)
  }

  /** Before the load is queued, a record that is neither in flight nor held is tried once more; the load goes in behind
      it. */
  lemma LoadAsked(w: World, s: Session, a: Account)
    ensures var v := RequestLoad(w, s, a);
            && v.players == w.players && v.pairs == w.pairs && v.tickEnd == w.tickEnd && v.leave.Keys == w.leave.Keys
            && (forall b :: b in w.leave && b != a ==> v.leave[b] == w.leave[b]) && Queued(w, v)
            && (a in w.leave ==> RecordTried(w, v, |w.jobs|, a)) && LoadIn(w, v, s, a)
  {
    hide SendLeaveRecord, FindPair, RecordTried, Queued, Issued, Route, LoadIn;
    var u := if a in w.leave && !w.leave[a].inFlight && !w.leave[a].paired then SendLeaveRecord(w, a) else w;
    RecordAsked(w, u, a);
    LoadBehind(w, u, RequestLoad(w, s, a), a);
    LoadAdded(w, u, s, a);
  }

  lemma LoadAdded(w: World, u: World, s: Session, a: Account)
    requires u == if a in w.leave && !w.leave[a].inFlight && !w.leave[a].paired then SendLeaveRecord(w, a) else w
    requires u.loadsQueued == w.loadsQueued && u.queueMax == w.queueMax
    requires |w.jobs| <= |u.jobs| && SavesFrom(u.jobs, |w.jobs|, |u.jobs|)
    ensures LoadIn(w, RequestLoad(w, s, a), s, a)
  {
    hide SendLeaveRecord, FindPair, Issued, Route;
  }

  lemma RecordAsked(w: World, u: World, a: Account)
    requires u == if a in w.leave && !w.leave[a].inFlight && !w.leave[a].paired then SendLeaveRecord(w, a) else w
    ensures OnlyRecords(w, u) && RecordTried(w, u, |w.jobs|, a)
    ensures forall b :: b in w.leave && b != a ==> u.leave[b] == w.leave[b]
    ensures u.loadsQueued == w.loadsQueued && u.queueMax == w.queueMax && Route(u, a) == Route(w, a)
    ensures |w.jobs| <= |u.jobs| && SavesFrom(u.jobs, |w.jobs|, |u.jobs|)
  {
    hide SendLeaveRecord, RecordIn, QueueFull;
    QueuedSelf(w);
    if a in w.leave && !w.leave[a].inFlight && !w.leave[a].paired {
      SentRecord(w, a);
      RecordPushed(w, a);
    }
  }

  lemma RecordPushed(w: World, a: Account)
    requires a in w.leave
    ensures var v := SendLeaveRecord(w, a);
            && v.loadsQueued == w.loadsQueued && v.queueMax == w.queueMax && v.workers == w.workers
            && |w.jobs| <= |v.jobs| && SavesFrom(v.jobs, |w.jobs|, |v.jobs|)
  {
    hide SaveFits, NextNo, PushSave, LeaveWrite;
    var n := NextNo(w.leaveSeq);
    var x := LeaveWrite(a, w.leave[a].(bundleNo := n), None);
    SaveAdds(w.(leaveSeq := n, leave := w.leave[a := w.leave[a].(bundleNo := n, inFlight := SaveFits(w, x))]), x);
  }

  lemma SaveAdds(w: World, x: Write)
    ensures var v := PushSave(w, x);
            && v.loadsQueued == w.loadsQueued && v.queueMax == w.queueMax && v.workers == w.workers
            && v.jobs == w.jobs + [Save(x)]
  {
    hide Route, Issued;
  }

  lemma LoadBehind(w: World, u: World, v: World, a: Account)
    requires OnlyRecords(w, u) && RecordTried(w, u, |w.jobs|, a)
    requires v == u.(jobs := v.jobs, loadsQueued := v.loadsQueued) && u.jobs <= v.jobs
    ensures Queued(w, v) && (a in w.leave ==> RecordTried(w, v, |w.jobs|, a))
    ensures v.players == w.players && v.pairs == w.pairs && v.tickEnd == w.tickEnd && v.leave == u.leave
            && v.leave.Keys == w.leave.Keys
  {
    hide RecordTried;
    QueuedTrans(w, u, v);
    if a in w.leave { StaysTried(w, u, v, |w.jobs|, a); }
  }

  // ----- trades and departures

  /** Two players that have traded are held by one link from then on, and their states are sent as one job, or the queue
      is full and both keep all they had. */
  lemma TradeIsSent(w: World, s: Session, t: Session)
    requires s in w.players && t in w.players && s != LEFT && t != LEFT && s != t
    requires w.players[s].account != w.players[t].account
    ensures var v := SaveTrade(w, s, t);
            var l := PairLink([Side(w.players[s].account, s, 0, false, Top(w, w.players[s].account)),
                               Side(w.players[t].account, t, 0, false, Top(w, w.players[t].account))], true, false);
            && |v.pairs| == |w.pairs| + 1 && v.pairs[..|w.pairs|] == w.pairs
            && s in v.players && t in v.players && v.players[s].flight.paired && v.players[t].flight.paired
            && Attempted(w, v, |w.jobs|, l, v.pairs[|w.pairs|]) && v.leave == w.leave && v.tickEnd == w.tickEnd
            && forall r :: r in w.players && r != s && r != t ==> r in v.players && v.players[r] == w.players[r]
  {
    hide SendPair, SaveTrade, Tied, Attempted, OnlySides, SideReady, Top;
    var u, v := Tied(w, s, t), SaveTrade(w, s, t);
    TradeIs(w, s, t);
    TiedIs(w, u, s, t);
    PairTries(u, |w.pairs|);
    var l := u.pairs[|w.pairs|];
    TiedTried(w, u, v, l, v.pairs[|w.pairs|]);
    TiedOnly(w, u, v, s, t, l);
    assert v.pairs[..|w.pairs|] == w.pairs;
  }

  lemma TiedIs(w: World, u: World, s: Session, t: Session)
    requires s in w.players && t in w.players && s != LEFT && t != LEFT && s != t && u == Tied(w, s, t)
    ensures u.pairs == w.pairs + [PairLink([Side(w.players[s].account, s, 0, false, Top(w, w.players[s].account)),
                                           Side(w.players[t].account, t, 0, false, Top(w, w.players[t].account))],
                                          true, false)]
    ensures u.jobs == w.jobs && u.bundles == w.bundles && u.workers == w.workers && u.queueMax == w.queueMax
    ensures u.leave == w.leave && u.tickEnd == w.tickEnd && u.players.Keys == w.players.Keys
    ensures forall r :: r in w.players ==>
              u.players[r] == if r == s || r == t then Hold(w.players[r]) else w.players[r]
    ensures SideReady(u, u.pairs[|w.pairs|].sides[0]) && SideReady(u, u.pairs[|w.pairs|].sides[1])
  {
    hide Top;
  }

  lemma TiedTried(w: World, u: World, v: World, l: PairLink, m: PairLink)
    requires Attempted(u, v, |u.jobs|, l, m) && u.jobs == w.jobs && u.leave == w.leave
             && u.players.Keys == w.players.Keys
    requires forall r :: r in w.players ==> u.players[r] == w.players[r] || u.players[r] == Hold(w.players[r])
    ensures Attempted(w, v, |w.jobs|, l, m)
  {
    hide QueueFull, RowsAre;
    if m.inFlight {
      var k: nat :| |u.jobs| <= k < |v.jobs| && IsPair(u, v.jobs[k], l, m);
      assert IsPair(w, v.jobs[k], l, m);
    }
  }

  lemma SameMap<K, V>(m: map<K, V>, n: map<K, V>)
    requires m.Keys == n.Keys && forall k :: k in m ==> m[k] == n[k]
    ensures m == n
  {
  }

  lemma TiedOnly(w: World, u: World, v: World, s: Session, t: Session, l: PairLink)
    requires s in w.players && t in w.players && s != LEFT && t != LEFT && u.players.Keys == w.players.Keys
    requires |l.sides| == 2 && l.sides[0].session == s && l.sides[1].session == t
    requires OnlySides(u, v, l.sides[0], l.sides[1]) && u.leave == w.leave && u.tickEnd == w.tickEnd
    requires forall r :: r in w.players ==>
               u.players[r] == if r == s || r == t then Hold(w.players[r]) else w.players[r]
    ensures s in v.players && t in v.players && v.players[s].flight.paired && v.players[t].flight.paired
    ensures v.leave == w.leave && v.tickEnd == w.tickEnd
    ensures forall r :: r in w.players && r != s && r != t ==> r in v.players && v.players[r] == w.players[r]
  {
    hide Queued;
    var d, e := l.sides[0], l.sides[1];
    assert d.session != 0 && e.session != 0;
    forall b | b in v.leave ensures v.leave[b] == w.leave[b] { assert b in u.leave; }
    SameMap(v.leave, w.leave);
  }

  /** Who leaves is a leave record with its last state and all that was marked or in flight; if no link holds it, the
      record is in flight, or its queue is full. Nobody else is touched. */
  lemma LeaveIsSent(w: World, s: Session)
    requires s in w.players
    ensures var v, p := Leave(w, s), w.players[s];
            && LastOf(p, v, |w.jobs|) && v.players == w.players - {s} && v.leave.Keys == w.leave.Keys + {p.account}
            && (forall b :: b in w.leave && b != p.account ==> b in v.leave && v.leave[b] == w.leave[b])
  {
    hide LeaveFinal, LastOf, Queued, SameNames;
    LeavesFinally(w, s);
    var u, p := LeaveFinal(w, s), w.players[s];
    LastElsewhere(p, u, u.(players := u.players - {s}), |w.jobs|);
    assert u.players.Keys == w.players.Keys by { QueuedParts(w, u); }
    assert u.players - {s} == w.players - {s};
  }

  lemma LastElsewhere(p: Player, u: World, v: World, from: nat)
    requires LastOf(p, u, from) && v == u.(players := v.players)
    ensures LastOf(p, v, from)
  {
    hide RowsAre;
  }
}
