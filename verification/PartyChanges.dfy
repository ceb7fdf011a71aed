/** Joining, founding, leaving, disbanding and handing over the lead keep the party invariant. */
module PartyChanges {
  import opened Items
  import opened PartySteps
  import opened PartyInvariant
  import opened PartyKeeps

  // ----- joining

  /** Others see their parties as before. */
  lemma EnrolledSeen(s: State, id: int, p: Actor)
    requires Core(s, 0) && SeenOk(s, 0, None) && id in s.parties
    ensures SeenOk(Enrolled(s, id, p), id, None)
  {
    hide Seen, RequestsOk, CountersOk, PartyOk;
    CoreIds(s, 0, id);
  }

  lemma JoinKeeps(s: State, id: int, p: Actor)
    requires Inv(s) && id in s.parties && p in s.shown && PartyIdOf(s, p) == 0
             && |s.parties[id].members| < PARTY_MAX_MEMBERS
    ensures Inv(Join(s, id, p))
  {
    hide Core, SeenOk, Quiet, Involves, CancelFrom, BroadcastInfo, Broadcast, NothingTo;
    var v := CancelRequestsOf(s, p, None);
    CancelCore(s, 0, p, None);
    QuietParts(s, v, None);
    QuietSeen(s, v, 0, None, None);
    var u := Enrolled(v, id, p);
    CoreIds(v, 0, id);
    EnrolledCore(v, id, p);
    EnrolledSeen(v, id, p);
    InfoKeeps(u, id, None);
    BroadcastKeeps(BroadcastInfo(u, id), id, Joined, p, None);
  }

  // ----- founding

  function Founded(s: State, leader: Actor, first: Actor): State {
    var id := s.nextParty;
    s.(nextParty := id + 1,
       parties := s.parties[id := Party(id, leader, [Member(leader, NOT_SENT), Member(first, NOT_SENT)])],
       partyOf := s.partyOf[leader := id][first := id],
       count := s.count.(created := s.count.created + 1, active := s.count.active + 1,
                         memberAdded := s.count.memberAdded + 2, members := s.count.members + 2))
  }

  lemma FreshId(s: State, but: int)
    requires Core(s, but)
    ensures s.nextParty !in s.parties && s.nextParty > 0
    ensures forall p :: PartyIdOf(s, p) != s.nextParty
  {
    hide RequestsOk, CountersOk, PartyOk;
    forall p ensures PartyIdOf(s, p) != s.nextParty { assert Belongs(s, p); }
  }

  lemma FoundedStanding(s: State, leader: Actor, first: Actor, q: Actor)
    requires Core(s, 0) && q != leader && q != first
    ensures StandingOf(Founded(s, leader, first), q) == StandingOf(s, q)
  {
    FreshId(s, 0);
  }

  lemma FoundedParty(s: State, leader: Actor, first: Actor, k: int)
    requires Core(s, 0) && leader != first && leader in s.shown && first in s.shown
    requires PartyIdOf(s, leader) == 0 && PartyIdOf(s, first) == 0 && k in Founded(s, leader, first).parties
    ensures PartyOk(Founded(s, leader, first), k)
  {
    hide RequestsOk, CountersOk;
    FreshId(s, 0);
    var v := Founded(s, leader, first);
    if k == s.nextParty {
      assert v.parties[k].members[0].player == leader;
    } else {
      assert PartyOk(s, k);
      forall m | 0 <= m < |v.parties[k].members| ensures PartyIdOf(v, v.parties[k].members[m].player) == k {
        assert PartyIdOf(s, s.parties[k].members[m].player) == k;
      }
    }
  }

  lemma FoundedBelongs(s: State, leader: Actor, first: Actor, q: Actor)
    requires Core(s, 0)
    ensures Belongs(Founded(s, leader, first), q)
  {
    hide RequestsOk, CountersOk, PartyOk;
    FreshId(s, 0);
    var v := Founded(s, leader, first);
    assert Belongs(s, q);
    assert v.parties[s.nextParty].members[0].player == leader && v.parties[s.nextParty].members[1].player == first;
  }

  lemma FoundedCounters(s: State, leader: Actor, first: Actor)
    requires CountersOk(s) && s.nextParty !in s.parties && s.nextParty > 0
    requires leader != first && PartyIdOf(s, leader) == 0 && PartyIdOf(s, first) == 0
    ensures CountersOk(Founded(s, leader, first))
  {
    var v := Founded(s, leader, first);
    assert InParties(v) == InParties(s) + {leader, first};
    assert leader !in InParties(s) && first !in InParties(s);
    MoreParties(s.parties, s.nextParty, v.parties[s.nextParty]);
  }

  lemma MoreParties(ps: map<int, Party>, id: int, q: Party)
    requires id !in ps
    ensures |ps[id := q]| == |ps| + 1
  {
    var v := ps[id := q];
    assert v.Keys == ps.Keys + {id};
    assert |v| == |v.Keys| && |ps| == |ps.Keys|;
  }

  lemma FoundedCore(s: State, leader: Actor, first: Actor)
    requires Core(s, 0) && leader != first && leader in s.shown && first in s.shown
    requires PartyIdOf(s, leader) == 0 && PartyIdOf(s, first) == 0
    requires forall r :: r in s.requests ==> !Involves(r, leader) && !Involves(r, first)
    ensures Core(Founded(s, leader, first), 0)
  {
    hide StandingOf, RolesOk, OnePerPlayer, PartyOk, MembersOk;
    var v := Founded(s, leader, first);
    FreshId(s, 0);
    forall k | k in v.parties ensures PartyOk(v, k) { FoundedParty(s, leader, first, k); }
    forall k | k in v.parties ensures MembersOk(v, k) { PartyMembers(v, k); }
    forall q ensures Belongs(v, q) { FoundedBelongs(s, leader, first, q); }
    forall i | 0 <= i < |v.requests| ensures Present(v, v.requests[i]) && RolesOk(v, v.requests[i]) {
      var r := s.requests[i];
      assert r in s.requests && RolesOk(s, r);
      FoundedStanding(s, leader, first, r.from);
      FoundedStanding(s, leader, first, r.to);
      if r.about.Some? { FoundedStanding(s, leader, first, r.about.value); }
      RolesSame(s, v, r);
    }
    FoundedCounters(s, leader, first);
  }

  lemma PartyMembers(s: State, k: int)
    requires k in s.parties && PartyOk(s, k)
    ensures MembersOk(s, k)
  {
    hide MembersOk;
  }

  lemma FoundedSeen(s: State, leader: Actor, first: Actor)
    requires Core(s, 0) && SeenOk(s, 0, None)
    ensures SeenOk(Founded(s, leader, first), s.nextParty, None)
  {
    hide Seen;
    FreshId(s, 0);
  }

  lemma CreateKeeps(s: State, leader: Actor, first: Actor)
    requires Inv(s) && leader != first && leader in s.shown && first in s.shown
    requires PartyIdOf(s, leader) == 0 && PartyIdOf(s, first) == 0
    ensures Inv(Create(s, leader, first))
  {
    hide Core, SeenOk, Quiet, Involves, CancelFrom, BroadcastInfo, Broadcast, NothingTo;
    var v := CancelRequestsOf(s, leader, None);
    CancelCore(s, 0, leader, None);
    QuietParts(s, v, None);
    QuietSeen(s, v, 0, None, None);
    var w := CancelRequestsOf(v, first, None);
    CancelCore(v, 0, first, None);
    QuietParts(v, w, None);
    QuietSeen(v, w, 0, None, None);
    var u := Founded(w, leader, first);
    FreshId(w, 0);
    FoundedCore(w, leader, first);
    FoundedSeen(w, leader, first);
    InfoKeeps(u, w.nextParty, None);
    BroadcastKeeps(BroadcastInfo(u, w.nextParty), w.nextParty, Joined, first, None);
  }

  // ----- somebody is taken out

  lemma {:induction false} DroppedIs(members: seq<Member>, p: Actor)
    requires forall i, j :: 0 <= i < j < |members| ==> members[i].player != members[j].player
    ensures var d := Dropped(members, p);
            && (forall i, j :: 0 <= i < j < |d| ==> d[i].player != d[j].player)
            && (forall m :: m in d <==> m in members && m.player != p)
            && |d| <= |members| && ((exists i :: 0 <= i < |members| && members[i].player == p) ==> |d| == |members| - 1)
  {
    hide IndexOf;
    var k := IndexOf(members, p);
    var d := Dropped(members, p);
    if k < |members| {
      forall m ensures m in d <==> m in members && m.player != p {
        if m in members && m.player != p {
          var i :| 0 <= i < |members| && members[i] == m;
          assert d[if i < k then i else i - 1] == m;
        }
      }
    }
  }

  /** The bare change: off the list, out of the party, counted. */
  function Removed(s: State, id: int, p: Actor): State
    requires id in s.parties
  {
    s.(parties := s.parties[id := s.parties[id].(members := Dropped(s.parties[id].members, p))],
       partyOf := s.partyOf[p := 0],
       count := s.count.(memberRemoved := s.count.memberRemoved + 1, members := s.count.members - 1))
  }

  lemma RemovedStanding(s: State, id: int, p: Actor, q: Actor)
    requires id in s.parties && q != p
    ensures StandingOf(Removed(s, id, p), q) == StandingOf(s, q)
    ensures PartyIdOf(Removed(s, id, p), q) == PartyIdOf(s, q)
  {
    hide Dropped;
  }

  lemma RemovedMembers(s: State, id: int, p: Actor, k: int)
    requires Core(s, 0) && id in s.parties && PartyIdOf(s, p) == id && k in s.parties
    ensures MembersOk(Removed(s, id, p), k) && (k != id ==> PartyOk(Removed(s, id, p), k))
    ensures |Removed(s, id, p).parties[id].members| == |s.parties[id].members| - 1
  {
    hide RequestsOk, CountersOk, Dropped;
    assert PartyOk(s, k) && Belongs(s, p) && PartyOk(s, id);
    DroppedIs(s.parties[id].members, p);
    var v := Removed(s, id, p);
    forall m | 0 <= m < |v.parties[k].members|
      ensures PartyIdOf(v, v.parties[k].members[m].player) == k && v.parties[k].members[m].player in v.shown
    {
      var x := v.parties[k].members[m];
      assert x in v.parties[k].members;
      assert x in s.parties[k].members;
      var i :| 0 <= i < |s.parties[k].members| && s.parties[k].members[i] == x;
      assert PartyIdOf(s, s.parties[k].members[i].player) == k;
    }
  }

  lemma RemovedBelongs(s: State, id: int, p: Actor, q: Actor)
    requires Core(s, 0) && id in s.parties
    ensures Belongs(Removed(s, id, p), q)
  {
    hide RequestsOk, CountersOk, Dropped;
    assert Belongs(s, q) && PartyOk(s, id);
    DroppedIs(s.parties[id].members, p);
    var v := Removed(s, id, p);
    if q != p && PartyIdOf(s, q) == id {
      var i :| 0 <= i < |s.parties[id].members| && s.parties[id].members[i].player == q;
      assert s.parties[id].members[i] in s.parties[id].members;
      assert s.parties[id].members[i] in v.parties[id].members;
    }
  }

  lemma RemovedCounters(s: State, id: int, p: Actor)
    requires CountersOk(s) && id in s.parties && PartyIdOf(s, p) != 0
    ensures CountersOk(Removed(s, id, p))
  {
    hide Dropped;
    var v := Removed(s, id, p);
    assert InParties(v) == InParties(s) - {p};
    assert p in InParties(s);
    assert v.parties.Keys == s.parties.Keys;
    assert |v.parties| == |v.parties.Keys| && |s.parties| == |s.parties.Keys|;
  }

  lemma RemovedCore(s: State, id: int, p: Actor)
    requires Core(s, 0) && id in s.parties && PartyIdOf(s, p) == id && id != 0
    requires forall r :: r in s.requests ==> !Involves(r, p)
    ensures Core(Removed(s, id, p), id)
  {
    hide StandingOf, RolesOk, OnePerPlayer, PartyOk, MembersOk, Dropped;
    var v := Removed(s, id, p);
    forall k | k in v.parties ensures MembersOk(v, k) && (k != id ==> PartyOk(v, k)) { RemovedMembers(s, id, p, k); }
    forall q ensures Belongs(v, q) { RemovedBelongs(s, id, p, q); }
    forall i | 0 <= i < |v.requests| ensures Present(v, v.requests[i]) && RolesOk(v, v.requests[i]) {
      var r := s.requests[i];
      assert r in s.requests && RolesOk(s, r);
      RemovedStanding(s, id, p, r.from);
      RemovedStanding(s, id, p, r.to);
      if r.about.Some? { RemovedStanding(s, id, p, r.about.value); }
      RolesSame(s, v, r);
    }
    RemovedCounters(s, id, p);
  }

  lemma RemovedSeen(s: State, id: int, p: Actor, gone: Option<Actor>)
    requires SeenOk(s, 0, gone) && id in s.parties && id != 0
    ensures SeenOk(Removed(s, id, p), id, Some(p)) || gone != Some(p)
    ensures gone == Some(p) ==> SeenOk(Removed(s, id, p), id, gone)
    ensures forall q ::
              q in s.shown && q != p && gone != Some(q) && PartyIdOf(s, q) != id ==>
                Seen(s.log, q) == PartyOf(Removed(s, id, p), q)
  {
    hide Seen, Dropped;
  }

  /** Who hears of a departure: everybody but a player whose session is gone. */
  function Unheard(p: Actor, why: LeaveWhy): Option<Actor> { if why == ByDisconnect then Some(p) else None }

  lemma TakenOutKeeps(s: State, id: int, p: Actor, code: Notice, why: LeaveWhy)
    requires Core(s, 0) && SeenOk(s, 0, Unheard(p, why)) && id in s.parties && PartyIdOf(s, p) == id
    ensures var v := TakenOut(s, id, p, code, why != ByDisconnect);
            && Core(v, id) && SeenOk(v, id, Unheard(p, why)) && NothingTo(s, v, Unheard(p, why))
            && id in v.parties && id != 0 && PartyIdOf(v, p) == 0
            && v.parties[id].leader == s.parties[id].leader && |v.parties[id].members| == |s.parties[id].members| - 1
            && (forall r :: r in v.requests ==> r in s.requests && !Involves(r, p))
  {
    hide Core, SeenOk, Quiet, Involves, CancelFrom, Dropped, Seen;
    var skip := Unheard(p, why);
    var v := CancelRequestsOf(s, p, skip);
    CancelCore(s, 0, p, skip);
    QuietParts(s, v, skip);
    QuietNothing(s, v, skip);
    QuietSeen(s, v, 0, skip, skip);
    CoreIds(v, 0, id);
    var u := Removed(v, id, p);
    RemovedCore(v, id, p);
    RemovedMembers(v, id, p, id);
    RemovedSeen(v, id, p, skip);
    if why != ByDisconnect {
      TellGone(v, u, id, p, code);
    }
  }

  lemma TellGone(v: State, u: State, id: int, p: Actor, code: Notice)
    requires id in v.parties && id != 0 && u == Removed(v, id, p) && Core(u, id)
    requires forall q :: q in v.shown && q != p && PartyIdOf(v, q) != id ==> Seen(v.log, q) == PartyOf(u, q)
    ensures var w := Tell(Say(u, Info(p, None)), p, code, p);
            Core(w, id) && SeenOk(w, id, None) && u.log <= w.log
  {
    hide Core, Seen, Dropped;
    var x := Say(u, Info(p, None));
    var w := Tell(x, p, code, p);
    LogCore(u, w.log, id);
    forall q | q in w.shown && PartyIdOf(w, q) != id ensures Seen(w.log, q) == PartyOf(w, q) {
      SeenSnoc(u.log, Info(p, None), q);
      SeenSnoc(x.log, NoticeEvent(p, code, p), q);
    }
  }

  // ----- a new leader

  lemma {:induction false} CancelParties(s: State, i: nat, changed: Actor, skip: Option<Actor>, ps: map<int, Party>)
    ensures CancelFrom(s.(parties := ps), i, changed, skip) == CancelFrom(s, i, changed, skip).(parties := ps)
    decreases |s.requests| - i
  {
    hide Involves;
    if i < |s.requests| {
      if !Involves(s.requests[i], changed) {
        CancelParties(s, i + 1, changed, skip, ps);
      } else {
        var v := TellCancelled(TakeRequest(s, i), s.requests[i], changed, skip);
        ToldParties(TakeRequest(s, i), s.requests[i], changed, skip, ps);
        ToldQuiet(TakeRequest(s, i), s.requests[i], changed, skip);
        CancelParties(v, i, changed, skip, ps);
      }
    }
  }

  lemma ToldParties(s: State, gone: Request, changed: Actor, skip: Option<Actor>, ps: map<int, Party>)
    ensures TellCancelled(s.(parties := ps), gone, changed, skip)
            == TellCancelled(s, gone, changed, skip).(parties := ps)
  {
    hide SayUnless;
    var e0, e1, e2 := AskEnd(gone.to, gone.id, Cancelled), NoticeEvent(gone.origin, Cancelled, changed),
        NoticeEvent(gone.from, Cancelled, changed);
    SayParties(s, e0, skip, ps);
    var s1 := SayUnless(s, e0, skip);
    SayParties(s1, e1, skip, ps);
    var s2 := if gone.origin != gone.to then SayUnless(s1, e1, skip) else s1;
    SayParties(s2, e2, skip, ps);
  }

  lemma SayParties(s: State, e: Event, skip: Option<Actor>, ps: map<int, Party>)
    ensures SayUnless(s.(parties := ps), e, skip) == SayUnless(s, e, skip).(parties := ps)
  {
  }

  function Led(s: State, id: int, p: Actor): State
    requires id in s.parties
  {
    s.(parties := s.parties[id := s.parties[id].(leader := p)])
  }

  lemma LedStanding(s: State, id: int, p: Actor, q: Actor)
    requires id in s.parties && q != p && (q == s.parties[id].leader ==> PartyIdOf(s, q) != id)
    ensures StandingOf(Led(s, id, p), q) == StandingOf(s, q)
  {
  }

  lemma LedParty(s: State, but: int, id: int, p: Actor, k: int)
    requires Core(s, but) && id in s.parties && (but == 0 || but == id) && k in s.parties
    requires |s.parties[id].members| >= 2 && IsMember(s.parties[id], p)
    ensures PartyOk(Led(s, id, p), k)
  {
    hide RequestsOk, CountersOk;
    assert MembersOk(s, k);
    var v := Led(s, id, p);
    if k == id {
      var i :| 0 <= i < |s.parties[id].members| && s.parties[id].members[i].player == p;
      assert v.parties[id].members[i].player == p;
    } else {
      assert PartyOk(s, k);
    }
  }

  lemma LedBelongs(s: State, id: int, p: Actor, q: Actor)
    requires id in s.parties && Belongs(s, q)
    ensures Belongs(Led(s, id, p), q)
  {
    var k := PartyIdOf(s, q);
    if k != 0 {
      var i :| 0 <= i < |s.parties[k].members| && s.parties[k].members[i].player == q;
      assert Led(s, id, p).parties[k].members[i].player == q;
    }
  }

  lemma LedCore(s: State, but: int, id: int, p: Actor)
    requires Core(s, but) && id in s.parties && (but == 0 || but == id)
    requires |s.parties[id].members| >= 2 && IsMember(s.parties[id], p)
    requires forall r :: r in s.requests ==> !Involves(r, p)
    requires PartyIdOf(s, s.parties[id].leader) == id ==>
               forall r :: r in s.requests ==> !Involves(r, s.parties[id].leader)
    ensures Core(Led(s, id, p), 0)
  {
    hide StandingOf, RolesOk, OnePerPlayer, PartyOk, MembersOk, IsMember;
    var v := Led(s, id, p);
    forall k | k in v.parties ensures PartyOk(v, k) { LedParty(s, but, id, p, k); }
    forall k | k in v.parties ensures MembersOk(v, k) { PartyMembers(v, k); }
    forall q ensures Belongs(v, q) { LedBelongs(s, id, p, q); }
    forall i | 0 <= i < |v.requests| ensures Present(v, v.requests[i]) && RolesOk(v, v.requests[i]) {
      var r := s.requests[i];
      assert r in s.requests && RolesOk(s, r) && !Involves(r, p);
      LedStanding(s, id, p, r.from);
      LedStanding(s, id, p, r.to);
      if r.about.Some? { LedStanding(s, id, p, r.about.value); }
      RolesSame(s, v, r);
    }
    assert CountersOk(v) by {
      assert v.parties.Keys == s.parties.Keys;
      assert |v.parties| == |v.parties.Keys| && |s.parties| == |s.parties.Keys|;
    }
  }

  lemma LedSeen(s: State, id: int, p: Actor, but: int, gone: Option<Actor>)
    requires SeenOk(s, but, gone) && id in s.parties && id != 0 && (but == 0 || but == id)
    ensures SeenOk(Led(s, id, p), id, gone)
  {
    hide Seen;
  }

  lemma ChangeLeaderKeeps(s: State, id: int, p: Actor)
    requires Inv(s) && id in s.parties && IsMember(s.parties[id], p)
    ensures Inv(ChangeLeader(s, id, p))
  {
    hide Core, SeenOk, Quiet, Involves, CancelFrom, BroadcastInfo, Broadcast, NothingTo, IsMember;
    var old' := s.parties[id].leader;
    var v := CancelRequestsOf(s, old', None);
    CancelCore(s, 0, old', None);
    QuietParts(s, v, None);
    QuietSeen(s, v, 0, None, None);
    var w := CancelRequestsOf(v, p, None);
    CancelCore(v, 0, p, None);
    QuietParts(v, w, None);
    QuietSeen(v, w, 0, None, None);
    var u := Led(w, id, p);
    CoreIds(w, 0, id);
    TwoMembers(w, id);
    LedCore(w, 0, id, p);
    LedSeen(w, id, p, 0, None);
    InfoKeeps(u, id, None);
    BroadcastKeeps(BroadcastInfo(u, id), id, NewLeader, p, None);
  }

  lemma TwoMembers(s: State, id: int)
    requires Core(s, 0) && id in s.parties
    ensures |s.parties[id].members| >= 2 && |s.parties[id].members| <= PARTY_MAX_MEMBERS
            && IsMember(s.parties[id], s.parties[id].leader)
    ensures s.parties[id].id == id && id != 0
  {
    hide RequestsOk, CountersOk;
    assert PartyOk(s, id);
  }

  // ----- disbanding

  /** Nobody hears of a request that does not name them. */
  lemma {:induction false} CancelUnheard(s: State, i: nat, changed: Actor, p: Actor)
    requires forall r :: r in s.requests ==> !Involves(r, p)
    ensures CancelFrom(s, i, changed, None) == CancelFrom(s, i, changed, Some(p))
    decreases |s.requests| - i
  {
    if i < |s.requests| {
      if !Involves(s.requests[i], changed) {
        CancelUnheard(s, i + 1, changed, p);
      } else {
        var t := TakeRequest(s, i);
        var v := TellCancelled(t, s.requests[i], changed, None);
        assert s.requests[i] in s.requests;
        assert v == TellCancelled(t, s.requests[i], changed, Some(p)) by { hide CancelFrom; }
        ToldQuiet(t, s.requests[i], changed, None);
        CancelUnheard(v, i, changed, p);
      }
    }
  }

  lemma CancelCoreUnheard(s: State, but: int, changed: Actor, gone: Option<Actor>)
    requires Core(s, but) && (gone.Some? ==> forall r :: r in s.requests ==> !Involves(r, gone.value))
    ensures var v := CancelRequestsOf(s, changed, None);
            && Core(v, but) && Quiet(s, v, gone)
            && (forall r :: r in v.requests <==> r in s.requests && !Involves(r, changed))
  {
    hide Core, Quiet, Involves, CancelFrom;
    CancelCore(s, but, changed, gone);
    if gone.Some? { CancelUnheard(s, 0, changed, gone.value); }
  }

  lemma {:induction false} CancelAllKeeps(s: State, but: int, members: seq<Member>, gone: Option<Actor>)
    requires Core(s, but) && SeenOk(s, but, gone)
    requires gone.Some? ==> forall r :: r in s.requests ==> !Involves(r, gone.value)
    ensures var v := CancelAll(s, members);
            && Core(v, but) && Quiet(s, v, gone) && SeenOk(v, but, gone)
            && (forall r :: r in v.requests ==> r in s.requests)
            && (forall r, m :: r in v.requests && m in members ==> !Involves(r, m.player))
    decreases |members|
  {
    hide Core, SeenOk, Quiet, Involves, CancelFrom;
    if members == [] {
      SelfQuiet(s, gone);
    } else {
      var u := CancelRequestsOf(s, members[0].player, None);
      CancelCoreUnheard(s, but, members[0].player, gone);
      QuietSeen(s, u, but, gone, gone);
      CancelAllKeeps(u, but, members[1..], gone);
      QuietTrans(s, u, CancelAll(s, members), gone);
      assert forall m :: m in members ==> m == members[0] || m in members[1..];
    }
  }

  predicate Listed(members: seq<Member>, p: Actor) { exists i :: 0 <= i < |members| && members[i].player == p }

  /** Everybody on the list is out and has been told so; nobody else notices. */
  lemma {:induction false} SendAwayIs(s: State, members: seq<Member>, p: Actor)
    requires forall i, j :: 0 <= i < j < |members| ==> members[i].player != members[j].player
    requires forall i :: 0 <= i < |members| ==> PartyIdOf(s, members[i].player) != 0
    ensures var v := SendAway(s, members);
            && v == s.(partyOf := v.partyOf, count := v.count, log := v.log)
            && v.count == s.count.(memberRemoved := s.count.memberRemoved + |members|,
                                   members := s.count.members - |members|)
            && |InParties(v)| == |InParties(s)| - |members|
            && PartyIdOf(v, p) == (if Listed(members, p) then 0 else PartyIdOf(s, p))
            && Seen(v.log, p) == (if Listed(members, p) then None else Seen(s.log, p))
            && s.log <= v.log && (!Listed(members, p) ==> forall i :: |s.log| <= i < |v.log| ==> v.log[i].to != p)
    decreases |members|
  {
    hide Seen;
    if members != [] {
      var m := members[0].player;
      var t := s.(partyOf := s.partyOf[m := 0],
                  count := s.count.(memberRemoved := s.count.memberRemoved + 1, members := s.count.members - 1));
      var x := Say(t, Info(m, None));
      var u := Tell(x, m, Disbanded, 0);
      assert forall i :: 0 <= i < |members[1..]| ==> members[1..][i] == members[i + 1];
      SendAwayIs(u, members[1..], p);
      SeenSnoc(t.log, Info(m, None), p);
      SeenSnoc(x.log, NoticeEvent(m, Disbanded, 0), p);
      assert InParties(u) == InParties(s) - {m};
      assert m in InParties(s);
      ListedRest(members, p);
      var v := SendAway(u, members[1..]);
      if !Listed(members, p) {
        assert members[0].player != p;
        forall i | |s.log| <= i < |v.log| ensures v.log[i].to != p {
          if i < |u.log| { assert v.log[i] == u.log[i]; }
        }
      }
    }
  }

  lemma ListedRest(members: seq<Member>, p: Actor)
    requires members != []
    ensures Listed(members, p) <==> members[0].player == p || Listed(members[1..], p)
  {
    if Listed(members, p) && members[0].player != p {
      var i :| 0 <= i < |members| && members[i].player == p;
      assert members[1..][i - 1].player == p;
    }
    if Listed(members[1..], p) {
      var i :| 0 <= i < |members[1..]| && members[1..][i].player == p;
      assert members[i + 1].player == p;
    }
  }

  lemma IsListed(s: State, but: int, id: int, p: Actor)
    requires Core(s, but) && id in s.parties
    ensures Listed(s.parties[id].members, p) <==> PartyIdOf(s, p) == id
  {
    hide RequestsOk, CountersOk, PartyOk;
    assert MembersOk(s, id) && Belongs(s, p);
  }

  lemma DisbandedStanding(s: State, w: State, id: int, q: Actor)
    requires PartyIdOf(s, q) != id && id != 0 && w.parties == s.parties - {id} && PartyIdOf(w, q) == PartyIdOf(s, q)
    ensures StandingOf(w, q) == StandingOf(s, q) && PartyOf(w, q) == PartyOf(s, q)
  {
  }

  lemma DisbandKeeps(s: State, but: int, id: int, gone: Option<Actor>)
    requires Core(s, but) && SeenOk(s, but, gone) && id in s.parties && (but == 0 || but == id)
    requires gone.Some? ==> PartyIdOf(s, gone.value) == 0 && forall r :: r in s.requests ==> !Involves(r, gone.value)
    ensures var v := DisbandParty(s, id);
            && Core(v, 0) && SeenOk(v, 0, gone) && NothingTo(s, v, gone)
            && (gone.Some? ==>
                  PartyIdOf(v, gone.value) == 0 && forall r :: r in v.requests ==> !Involves(r, gone.value))
  {
    hide Core, Quiet, Involves, CancelAll, SendAway, Seen, SeenOk, NothingTo;
    var members := s.parties[id].members;
    var u := CancelAll(s, members);
    CancelAllKeeps(s, but, members, gone);
    QuietParts(s, u, gone);
    QuietNothing(s, u, gone);
    CoreIds(s, but, id);
    DisbandedCore(u, but, id);
    DisbandedSeen(u, but, id, gone);
    NothingTrans(s, u, DisbandParty(s, id), gone);
  }

  /** Taking the whole party apart once no request names a member. */
  function TakenApart(s: State, id: int): State
    requires id in s.parties
  {
    var v := SendAway(s, s.parties[id].members);
    v.(parties := v.parties - {id}, count := v.count.(ended := v.count.ended + 1, active := v.count.active - 1))
  }

  lemma MembersIn(s: State, but: int, id: int)
    requires Core(s, but) && id in s.parties
    ensures forall i, j ::
              0 <= i < j < |s.parties[id].members| ==>
                s.parties[id].members[i].player != s.parties[id].members[j].player
    ensures forall i :: 0 <= i < |s.parties[id].members| ==> PartyIdOf(s, s.parties[id].members[i].player) == id
    ensures id != 0
  {
    hide RequestsOk, CountersOk, PartyOk;
    assert MembersOk(s, id);
  }

  lemma ApartIds(s: State, but: int, id: int, q: Actor)
    requires Core(s, but) && id in s.parties
    ensures PartyIdOf(TakenApart(s, id), q) == (if PartyIdOf(s, q) == id then 0 else PartyIdOf(s, q))
    ensures var v := TakenApart(s, id);
            && v.parties == s.parties - {id} && v.requests == s.requests && v.shown == s.shown
                 && v.nextParty == s.nextParty
            && v.log == SendAway(s, s.parties[id].members).log
  {
    hide Core, Seen, SendAway, Listed;
    MembersIn(s, but, id);
    IsListed(s, but, id, q);
    SendAwayIs(s, s.parties[id].members, q);
  }

  lemma ApartParty(s: State, but: int, id: int, k: int)
    requires Core(s, but) && id in s.parties && (but == 0 || but == id) && k in s.parties && k != id
    ensures k in TakenApart(s, id).parties && PartyOk(TakenApart(s, id), k)
  {
    hide RequestsOk, CountersOk, TakenApart;
    assert PartyOk(s, k);
    var v := TakenApart(s, id);
    ApartIds(s, but, id, 0);
    forall m | 0 <= m < |v.parties[k].members|
      ensures PartyIdOf(v, v.parties[k].members[m].player) == k && v.parties[k].members[m].player in v.shown
    {
      ApartIds(s, but, id, s.parties[k].members[m].player);
    }
  }

  lemma ApartCounters(s: State, but: int, id: int)
    requires Core(s, but) && id in s.parties
    ensures CountersOk(TakenApart(s, id))
  {
    hide RequestsOk, PartyOk, SendAway, Listed, Seen;
    MembersIn(s, but, id);
    SendAwayIs(s, s.parties[id].members, 0);
    var v := TakenApart(s, id);
    assert InParties(v) == InParties(SendAway(s, s.parties[id].members));
    assert v.parties.Keys == s.parties.Keys - {id};
    assert |v.parties| == |v.parties.Keys| && |s.parties| == |s.parties.Keys|;
  }

  lemma DisbandedCore(s: State, but: int, id: int)
    requires Core(s, but) && id in s.parties && (but == 0 || but == id)
    requires forall r, m :: r in s.requests && m in s.parties[id].members ==> !Involves(r, m.player)
    ensures Core(TakenApart(s, id), 0)
  {
    hide StandingOf, RolesOk, OnePerPlayer, PartyOk, MembersOk, TakenApart;
    var v := TakenApart(s, id);
    ApartIds(s, but, id, 0);
    forall k | k in v.parties ensures PartyOk(v, k) { ApartParty(s, but, id, k); }
    forall k | k in v.parties ensures MembersOk(v, k) { PartyMembers(v, k); }
    forall q ensures Belongs(v, q) { assert Belongs(s, q); ApartIds(s, but, id, q); }
    forall i | 0 <= i < |v.requests| ensures Present(v, v.requests[i]) && RolesOk(v, v.requests[i]) {
      var r := s.requests[i];
      assert r in s.requests && RolesOk(s, r);
      ApartStanding(s, but, id, r, r.from);
      ApartStanding(s, but, id, r, r.to);
      if r.about.Some? { ApartStanding(s, but, id, r, r.about.value); }
      RolesSame(s, v, r);
    }
    ApartCounters(s, but, id);
  }

  lemma NotListed(members: seq<Member>, r: Request, q: Actor)
    requires Involves(r, q) && forall m :: m in members ==> !Involves(r, m.player)
    ensures !Listed(members, q)
  {
    hide Involves;
    forall i | 0 <= i < |members| ensures members[i].player != q { assert members[i] in members; }
  }

  lemma ApartStanding(s: State, but: int, id: int, r: Request, q: Actor)
    requires Core(s, but) && id in s.parties && r in s.requests && Involves(r, q)
    requires forall r, m :: r in s.requests && m in s.parties[id].members ==> !Involves(r, m.player)
    ensures StandingOf(TakenApart(s, id), q) == StandingOf(s, q)
  {
    hide Core, TakenApart, StandingOf, Involves;
    ApartIds(s, but, id, q);
    IsListed(s, but, id, q);
    MembersIn(s, but, id);
    NotListed(s.parties[id].members, r, q);
    DisbandedStanding(s, TakenApart(s, id), id, q);
  }

  lemma DisbandedSeen(s: State, but: int, id: int, gone: Option<Actor>)
    requires Core(s, but) && SeenOk(s, but, gone) && id in s.parties && (but == 0 || but == id)
    requires gone.Some? ==> PartyIdOf(s, gone.value) == 0
    ensures SeenOk(TakenApart(s, id), 0, gone) && NothingTo(s, TakenApart(s, id), gone)
    ensures forall p :: PartyIdOf(s, p) == 0 ==> PartyIdOf(TakenApart(s, id), p) == 0
    ensures TakenApart(s, id).requests == s.requests
  {
    hide Core, TakenApart, Seen, SendAway, Listed;
    MembersIn(s, but, id);
    var v := TakenApart(s, id);
    ApartIds(s, but, id, 0);
    forall p ensures PartyIdOf(s, p) == 0 ==> PartyIdOf(v, p) == 0 { ApartIds(s, but, id, p); }
    forall p | p in v.shown && gone != Some(p) ensures Seen(v.log, p) == PartyOf(v, p) {
      ApartIds(s, but, id, p);
      IsListed(s, but, id, p);
      SendAwayIs(s, s.parties[id].members, p);
      if PartyIdOf(s, p) != id { DisbandedStanding(s, v, id, p); }
    }
    SendAwayIs(s, s.parties[id].members, if gone.Some? then gone.value else 0);
    if gone.Some? { IsListed(s, but, id, gone.value); }
  }
}
