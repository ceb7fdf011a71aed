/** Every party operation keeps the invariant. */
module PartyKeeps {
  import opened Items
  import opened PartySteps
  import opened PartyInvariant

  // ----- requests and quiet events

  lemma SameStanding(s: State, v: State, p: Actor)
    requires v.parties == s.parties && v.partyOf == s.partyOf
    ensures StandingOf(v, p) == StandingOf(s, p) && PartyOf(v, p) == PartyOf(s, p)
  {
  }

  lemma RolesSame(s: State, v: State, r: Request)
    requires RolesOk(s, r)
    requires StandingOf(v, r.from) == StandingOf(s, r.from) && StandingOf(v, r.to) == StandingOf(s, r.to)
    requires r.about.Some? ==> StandingOf(v, r.about.value) == StandingOf(s, r.about.value)
    ensures RolesOk(v, r)
  {
    hide StandingOf;
  }

  /** The parties are as they were. */
  lemma SameParties(s: State, v: State, but: int)
    requires Core(s, but) && v.parties == s.parties && v.partyOf == s.partyOf && v.shown == s.shown
             && v.nextParty == s.nextParty
    requires RequestsOk(v) && CountersOk(v)
    ensures Core(v, but)
  {
    hide RequestsOk, CountersOk;
    forall id | id in v.parties ensures MembersOk(v, id) && (id != but ==> PartyOk(v, id)) {
      assert MembersOk(s, id);
    }
    forall p ensures Belongs(v, p) { assert Belongs(s, p); }
  }

  lemma QuietParts(s: State, v: State, skip: Option<Actor>)
    requires Quiet(s, v, skip)
    ensures v.parties == s.parties && v.partyOf == s.partyOf && v.shown == s.shown && v.nextParty == s.nextParty
            && v.lastScan == s.lastScan
    ensures s.log <= v.log
  {
    hide Seen;
  }

  lemma FewerRequests(s: State, v: State, but: int)
    requires Core(s, but) && Quiet(s, v, None) && OnePerPlayer(v.requests)
    requires forall r :: r in v.requests ==> r in s.requests
    requires CountersOk(v)
    ensures Core(v, but)
  {
    hide Quiet, PartyOk, MembersOk, Belongs, RolesOk, Present, StandingOf, CountersOk, OnePerPlayer;
    QuietParts(s, v, None);
    forall i | 0 <= i < |v.requests| ensures Present(v, v.requests[i]) && RolesOk(v, v.requests[i]) {
      var r := v.requests[i];
      assert r in s.requests;
      StillOk(s, v, r);
    }
    SameParties(s, v, but);
  }

  lemma StillOk(s: State, v: State, r: Request)
    requires RequestsOk(s) && r in s.requests && v.parties == s.parties && v.partyOf == s.partyOf && v.shown == s.shown
    ensures Present(v, r) && RolesOk(v, r)
  {
    hide RolesOk, StandingOf, OnePerPlayer;
    var i :| 0 <= i < |s.requests| && s.requests[i] == r;
    forall p ensures StandingOf(v, p) == StandingOf(s, p) { SameStanding(s, v, p); }
    RolesSame(s, v, r);
  }

  lemma Skipping(s: State, v: State, skip: Option<Actor>)
    requires Quiet(s, v, skip)
    ensures Quiet(s, v, None)
  {
    hide Seen;
  }

  lemma CancelCore(s: State, but: int, changed: Actor, skip: Option<Actor>)
    requires Core(s, but)
    ensures var v := CancelRequestsOf(s, changed, skip);
            && Core(v, but) && Quiet(s, v, skip)
            && (forall r :: r in v.requests <==> r in s.requests && !Involves(r, changed))
  {
    hide Quiet, PartyOk, MembersOk, Belongs, RolesOk, Present, StandingOf, OnePerPlayer, CancelFrom, Involves, Others;
    var v := CancelRequestsOf(s, changed, skip);
    CancelFromIs(s, 0, changed, skip);
    OthersAre(s.requests, changed);
    Skipping(s, v, skip);
    QuietParts(s, v, skip);
    CountsAfter(s, v, skip);
    FewerRequests(s, v, but);
  }

  lemma CountsAfter(s: State, v: State, skip: Option<Actor>)
    requires CountersOk(s) && Quiet(s, v, skip) && v.count.requests == s.count.requests
    requires v.count.requestsEnded - s.count.requestsEnded == |s.requests| - |v.requests|
    requires v.count.pending - s.count.pending == |v.requests| - |s.requests|
    ensures CountersOk(v)
  {
    hide Seen;
  }

  lemma TellCore(s: State, but: int, v: State, skip: Option<Actor>)
    requires Core(s, but) && Quiet(s, v, skip) && v.requests == s.requests && v.count == s.count
    ensures Core(v, but)
  {
    hide Quiet, PartyOk, MembersOk, Belongs, RolesOk, Present, StandingOf, OnePerPlayer;
    Skipping(s, v, skip);
    QuietParts(s, v, skip);
    FewerRequests(s, v, but);
  }

  lemma QuietSeen(s: State, v: State, but: int, gone: Option<Actor>, skip: Option<Actor>)
    requires SeenOk(s, but, gone) && Quiet(s, v, skip)
    ensures SeenOk(v, but, gone)
  {
    hide Seen;
    forall p ensures PartyOf(v, p) == PartyOf(s, p) && PartyIdOf(v, p) == PartyIdOf(s, p) { SameStanding(s, v, p); }
  }

  /** A line to one player changes nothing. */
  lemma TellKeeps(s: State, to: Actor, code: Notice, actor: Actor)
    requires Inv(s)
    ensures Inv(Tell(s, to, code, actor))
  {
    hide Core, SeenOk, Quiet;
    SayQuiet(s, NoticeEvent(to, code, actor), None);
    TellCore(s, 0, Tell(s, to, code, actor), None);
    QuietSeen(s, Tell(s, to, code, actor), 0, None, None);
  }

  lemma AskForKeeps(s: State, to: Actor, kind: AskKind, origin: Actor, from: Actor, about: Option<Actor>, frame: nat)
    requires Inv(s) && !HasReceived(s, to) && !HasSent(s, origin)
    requires var r := Request(0, kind, origin, from, to, about, 0); Present(s, r) && RolesOk(s, r)
    ensures Inv(AskFor(s, to, kind, origin, from, about, frame))
  {
    hide PartyOk, MembersOk, Belongs, StandingOf, Seen, SeenOk;
    var v := AskFor(s, to, kind, origin, from, about, frame);
    forall p ensures StandingOf(v, p) == StandingOf(s, p) && PartyOf(v, p) == PartyOf(s, p) { SameStanding(s, v, p); }
    forall i | 0 <= i < |v.requests| ensures Present(v, v.requests[i]) && RolesOk(v, v.requests[i]) {
      if i < |s.requests| { RolesSame(s, v, s.requests[i]); }
    }
    SameParties(s, v, 0);
    AskQuiet(s, to, kind, origin, from, about, frame);
    QuietSeen(s, v, 0, None, None);
  }

  lemma AskQuiet(s: State, to: Actor, kind: AskKind, origin: Actor, from: Actor, about: Option<Actor>, frame: nat)
    ensures Quiet(s, AskFor(s, to, kind, origin, from, about, frame), None)
  {
    hide NextRequest;
    var e := AskEvent(to, s.nextRequest, kind, from, about);
    forall p ensures Seen(s.log + [e], p) == Seen(s.log, p) { SeenSnoc(s.log, e, p); }
  }

  // ----- everybody is told the whole party

  lemma {:induction false} InfoAllSeen(s: State, to: seq<Member>, party: Party, p: Actor)
    requires forall i, j :: 0 <= i < j < |to| ==> to[i].player != to[j].player
    ensures var v := InfoAll(s, to, party);
            && v == s.(log := v.log) && s.log <= v.log
            && Seen(v.log, p) == (if exists i :: 0 <= i < |to| && to[i].player == p then Some(party)
                                  else Seen(s.log, p))
            && forall i :: |s.log| <= i < |v.log| ==> exists k :: 0 <= k < |to| && v.log[i].to == to[k].player
    decreases |to|
  {
    hide Seen;
    if to != [] {
      var u := Say(s, Info(to[0].player, Some(party)));
      InfoAllSeen(u, to[1..], party, p);
      SeenSnoc(s.log, Info(to[0].player, Some(party)), p);
      assert forall i :: 0 <= i < |to[1..]| ==> to[1..][i] == to[i + 1];
      if p != to[0].player && exists i :: 0 <= i < |to| && to[i].player == p {
        var i :| 0 <= i < |to| && to[i].player == p;
        assert to[1..][i - 1].player == p;
      }
      var v := InfoAll(s, to, party);
      forall i | |s.log| <= i < |v.log| ensures exists k :: 0 <= k < |to| && v.log[i].to == to[k].player {
        if i >= |u.log| {
          var k :| 0 <= k < |to[1..]| && v.log[i].to == to[1..][k].player;
          assert to[k + 1].player == v.log[i].to;
        } else {
          assert v.log[i] == u.log[i];
          assert to[0].player == v.log[i].to;
        }
      }
    }
  }

  /** The party with everybody's values brought up to date. */
  function Fresh(s: State, id: int): State
    requires id in s.parties
  {
    s.(parties := s.parties[id := s.parties[id].(members := Refreshed(s, s.parties[id].members))])
  }

  lemma FreshStanding(s: State, id: int, p: Actor)
    requires id in s.parties
    ensures StandingOf(Fresh(s, id), p) == StandingOf(s, p)
  {
  }

  lemma FreshCore(s: State, id: int)
    requires Core(s, 0) && id in s.parties
    ensures Core(Fresh(s, id), 0)
  {
    hide StandingOf, RolesOk, OnePerPlayer;
    var v := Fresh(s, id);
    forall p ensures StandingOf(v, p) == StandingOf(s, p) { FreshStanding(s, id, p); }
    forall i | 0 <= i < |v.requests| ensures Present(v, v.requests[i]) && RolesOk(v, v.requests[i]) {
      assert RolesOk(s, s.requests[i]);
      RolesSame(s, v, v.requests[i]);
    }
    forall k | k in v.parties ensures PartyOk(v, k) { FreshParty(s, id, k); }
    forall p ensures Belongs(v, p) { FreshBelongs(s, id, p); }
    assert InParties(v) == InParties(s);
    assert v.parties.Keys == s.parties.Keys;
    assert |v.parties| == |v.parties.Keys| && |s.parties| == |s.parties.Keys|;
  }

  lemma FreshParty(s: State, id: int, k: int)
    requires id in s.parties && k in s.parties && PartyOk(s, k)
    ensures PartyOk(Fresh(s, id), k)
  {
    var l := s.parties[k].leader;
    var i :| 0 <= i < |s.parties[k].members| && s.parties[k].members[i].player == l;
    assert Fresh(s, id).parties[k].members[i].player == l;
  }

  lemma FreshBelongs(s: State, id: int, p: Actor)
    requires id in s.parties && Belongs(s, p)
    ensures Belongs(Fresh(s, id), p)
  {
    var k := PartyIdOf(s, p);
    if k != 0 {
      var i :| 0 <= i < |s.parties[k].members| && s.parties[k].members[i].player == p;
      assert Fresh(s, id).parties[k].members[i].player == p;
    }
  }

  lemma LogCore(s: State, log: seq<Event>, but: int)
    requires Core(s, but)
    ensures Core(s.(log := log), but)
  {
    hide PartyOk, Belongs, RolesOk, StandingOf, OnePerPlayer;
    var v := s.(log := log);
    forall p ensures StandingOf(v, p) == StandingOf(s, p) { SameStanding(s, v, p); }
    forall i | 0 <= i < |v.requests| ensures Present(v, v.requests[i]) && RolesOk(v, v.requests[i]) {
      RolesSame(s, v, s.requests[i]);
    }
    SameParties(s, v, but);
  }

  /** After the broadcast the members of `id` see it too. */
  lemma InfoKeeps(s: State, id: int, gone: Option<Actor>)
    requires Core(s, 0) && SeenOk(s, id, gone) && id in s.parties && id != 0
    requires gone.Some? ==> PartyIdOf(s, gone.value) == 0
    ensures var v := BroadcastInfo(s, id);
            && Core(v, 0) && SeenOk(v, 0, gone) && NothingTo(s, v, gone)
            && v == s.(parties := v.parties, log := v.log) && v.parties == Fresh(s, id).parties
  {
    hide Core, Seen, StandingOf, Fresh;
    var u, v := Fresh(s, id), BroadcastInfo(s, id);
    assert u == s.(parties := s.parties[id := s.parties[id].(members := Refreshed(s, s.parties[id].members))]) by {
      FreshIs(s, id);
    }
    var party := u.parties[id];
    MembersOf(s, 0, id);
    FreshCore(s, id);
    MembersOf(u, 0, id);
    InfoAllSeen(u, party.members, party, 0);
    LogCore(u, v.log, 0);
    forall p | p in v.shown && gone != Some(p) ensures Seen(v.log, p) == PartyOf(v, p) {
      InfoAllSeen(u, party.members, party, p);
      InfoMember(s, id, p);
    }
    if gone.Some? {
      forall i | |s.log| <= i < |v.log| ensures v.log[i].to != gone.value {
        var k :| 0 <= k < |party.members| && v.log[i].to == party.members[k].player;
      }
    }
  }

  lemma FreshIs(s: State, id: int)
    requires id in s.parties
    ensures Fresh(s, id) == s.(parties :=
                               s.parties[id := s.parties[id].(members := Refreshed(s, s.parties[id].members))])
  {
  }

  lemma MembersOf(s: State, but: int, id: int)
    requires Core(s, but) && id in s.parties
    ensures MembersOk(s, id)
  {
    hide RequestsOk, CountersOk, PartyOk;
  }

  /** A player is on the member list exactly when its party is `id`. */
  lemma InfoMember(s: State, id: int, p: Actor)
    requires Core(s, 0) && id in s.parties && id != 0
    ensures var v := Fresh(s, id);
            && ((exists i :: 0 <= i < |v.parties[id].members| && v.parties[id].members[i].player == p) <==>
                  PartyIdOf(s, p) == id)
            && (PartyIdOf(s, p) == id ==> PartyOf(v, p) == Some(v.parties[id]))
            && (PartyIdOf(s, p) != id ==> PartyOf(v, p) == PartyOf(s, p))
  {
    hide RequestsOk, CountersOk;
    var v := Fresh(s, id);
    FreshCore(s, id);
    assert Belongs(v, p) && MembersOk(v, id);
  }

  /** Telling everybody a line changes nothing. */
  lemma BroadcastKeeps(s: State, id: int, code: Notice, actor: Actor, gone: Option<Actor>)
    requires Core(s, 0) && SeenOk(s, 0, gone)
    requires gone.Some? ==> PartyIdOf(s, gone.value) == 0
    ensures var v := Broadcast(s, id, code, actor);
            Core(v, 0) && SeenOk(v, 0, gone) && NothingTo(s, v, gone) && v == s.(log := v.log)
  {
    hide Core, Quiet, SeenOk, Seen;
    if id in s.parties {
      MembersOf(s, 0, id);
      assert gone.Some? ==>
               forall i :: 0 <= i < |s.parties[id].members| ==> s.parties[id].members[i].player != gone.value by {
        CoreIds(s, 0, id);
      }
      TellAllQuiet(s, s.parties[id].members, code, actor, gone);
      TellCore(s, 0, Broadcast(s, id, code, actor), gone);
      QuietSeen(s, Broadcast(s, id, code, actor), 0, gone, gone);
      QuietNothing(s, Broadcast(s, id, code, actor), gone);
    }
  }

  lemma QuietNothing(s: State, v: State, skip: Option<Actor>)
    requires Quiet(s, v, skip)
    ensures NothingTo(s, v, skip)
  {
    hide Seen;
  }

  lemma CoreIds(s: State, but: int, id: int)
    requires Core(s, but) && id in s.parties
    ensures id != 0
  {
    hide RequestsOk, CountersOk;
  }

  // ----- joining

  lemma NothingTrans(s: State, u: State, v: State, p: Option<Actor>)
    requires NothingTo(s, u, p) && NothingTo(u, v, p)
    ensures NothingTo(s, v, p)
  {
    if p.Some? {
      forall i | |s.log| <= i < |v.log| ensures v.log[i].to != p.value {
        if i < |u.log| { assert v.log[i] == u.log[i]; }
      }
    }
  }

  /** The party with one more member. */
  function Enrolled(s: State, id: int, p: Actor): State
    requires id in s.parties
  {
    s.(parties := s.parties[id := s.parties[id].(members := s.parties[id].members + [Member(p, NOT_SENT)])],
       partyOf := s.partyOf[p := id],
       count := s.count.(memberAdded := s.count.memberAdded + 1, members := s.count.members + 1))
  }

  lemma EnrolledStanding(s: State, id: int, p: Actor, q: Actor)
    requires Core(s, 0) && id in s.parties && q != p
    ensures StandingOf(Enrolled(s, id, p), q) == StandingOf(s, q)
  {
    hide RequestsOk, CountersOk;
  }

  lemma EnrolledParty(s: State, id: int, p: Actor, k: int)
    requires Core(s, 0) && id in s.parties && k in s.parties && p in s.shown && PartyIdOf(s, p) == 0
    requires |s.parties[id].members| < PARTY_MAX_MEMBERS
    ensures PartyOk(Enrolled(s, id, p), k)
  {
    hide RequestsOk, CountersOk;
    assert PartyOk(s, k);
    var v := Enrolled(s, id, p);
    var l := s.parties[k].leader;
    var i :| 0 <= i < |s.parties[k].members| && s.parties[k].members[i].player == l;
    assert v.parties[k].members[i].player == l;
    assert PartyIdOf(v, p) == id && id != 0;
    forall m | 0 <= m < |v.parties[k].members|
      ensures PartyIdOf(v, v.parties[k].members[m].player) == k && v.parties[k].members[m].player in v.shown
    {
      if m < |s.parties[k].members| { assert PartyIdOf(s, s.parties[k].members[m].player) == k; }
    }
  }

  lemma EnrolledCore(s: State, id: int, p: Actor)
    requires Core(s, 0) && id in s.parties && p in s.shown && PartyIdOf(s, p) == 0
    requires |s.parties[id].members| < PARTY_MAX_MEMBERS
    requires forall r :: r in s.requests ==> !Involves(r, p)
    ensures Core(Enrolled(s, id, p), 0)
  {
    hide StandingOf, RolesOk, OnePerPlayer, PartyOk;
    var v := Enrolled(s, id, p);
    forall k | k in v.parties ensures PartyOk(v, k) { EnrolledParty(s, id, p, k); }
    PartiesCore(v);
    forall q ensures Belongs(v, q) { EnrolledBelongs(s, id, p, q); }
    forall i | 0 <= i < |v.requests| ensures Present(v, v.requests[i]) && RolesOk(v, v.requests[i]) {
      var r := s.requests[i];
      assert r in s.requests && !Involves(r, p) && RolesOk(s, r);
      EnrolledStanding(s, id, p, r.from);
      EnrolledStanding(s, id, p, r.to);
      if r.about.Some? { EnrolledStanding(s, id, p, r.about.value); }
      RolesSame(s, v, r);
    }
    assert CountersOk(v) by { EnrolledCounters(s, id, p); }
  }

  lemma PartiesCore(s: State)
    requires forall k :: k in s.parties ==> PartyOk(s, k)
    ensures forall k :: k in s.parties ==> MembersOk(s, k)
  {
    hide MembersOk;
  }

  lemma EnrolledBelongs(s: State, id: int, p: Actor, q: Actor)
    requires Core(s, 0) && id in s.parties
    ensures Belongs(Enrolled(s, id, p), q)
  {
    hide RequestsOk, CountersOk, PartyOk;
    var v := Enrolled(s, id, p);
    if q == p {
      assert v.parties[id].members[|s.parties[id].members|].player == p;
    } else {
      assert Belongs(s, q);
      var k := PartyIdOf(s, q);
      if k != 0 {
        var i :| 0 <= i < |s.parties[k].members| && s.parties[k].members[i].player == q;
        assert v.parties[k].members[i].player == q;
      }
    }
  }

  lemma EnrolledCounters(s: State, id: int, p: Actor)
    requires CountersOk(s) && id in s.parties && id != 0 && PartyIdOf(s, p) == 0
    ensures CountersOk(Enrolled(s, id, p))
  {
    var v := Enrolled(s, id, p);
    assert InParties(v) == InParties(s) + {p};
    assert p !in InParties(s);
    assert v.parties.Keys == s.parties.Keys;
    assert |v.parties| == |v.parties.Keys| && |s.parties| == |s.parties.Keys|;
  }
}
