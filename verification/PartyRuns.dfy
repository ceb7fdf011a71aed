/** Runs of the party system, and what holds in all of them. */
module PartyRuns {
  import opened Items
  import opened PartySteps
  import opened PartyInvariant
  import opened PartyKeeps
  import opened PartyChanges

  // ----- somebody leaves

  lemma SucceedIs(s: State, id: int)
    requires id in s.parties && s.parties[id].members != []
    ensures var next := s.parties[id].members[0].player;
            id in CancelRequestsOf(s, next, None).parties
                && Succeed(s, id) == Led(CancelRequestsOf(s, next, None), id, next)
  {
    hide CancelFrom;
    var next := s.parties[id].members[0].player;
    var ps := s.parties[id := s.parties[id].(leader := next)];
    CancelParties(s, 0, next, None, ps);
    CancelFromIs(s, 0, next, None);
    QuietParts(s, CancelFrom(s, 0, next, None), None);
  }

  lemma SucceedKeeps(s: State, id: int, gone: Option<Actor>)
    requires Core(s, id) && SeenOk(s, id, gone) && id in s.parties && id != 0 && |s.parties[id].members| >= 2
    requires PartyIdOf(s, s.parties[id].leader) != id
    requires gone.Some? ==> PartyIdOf(s, gone.value) == 0 && forall r :: r in s.requests ==> !Involves(r, gone.value)
    ensures var v := Succeed(s, id);
            && Core(v, 0) && SeenOk(v, id, gone) && NothingTo(s, v, gone) && id in v.parties && v.partyOf == s.partyOf
            && (forall r :: r in v.requests ==> r in s.requests)
  {
    hide Core, SeenOk, Quiet, Involves, CancelFrom, Succeed, Seen;
    var next := s.parties[id].members[0].player;
    var u := CancelRequestsOf(s, next, None);
    SucceedIs(s, id);
    CancelCoreUnheard(s, id, next, gone);
    QuietParts(s, u, gone);
    QuietNothing(s, u, gone);
    QuietSeen(s, u, id, gone, gone);
    assert u.parties[id].members[0].player == next;
    LedCore(u, id, id, next);
    LedSeen(u, id, next, id, gone);
  }

  lemma ToldAfterLeaving(s: State, id: int, code: Notice, p: Actor, wasLeader: bool, gone: Option<Actor>)
    requires Core(s, 0) && SeenOk(s, id, gone) && id in s.parties && id != 0
    requires gone.Some? ==> PartyIdOf(s, gone.value) == 0
    ensures var u := Broadcast(BroadcastInfo(s, id), id, code, p);
            var v := if wasLeader && id in u.parties then Broadcast(u, id, NewLeader, u.parties[id].leader) else u;
            Core(v, 0) && SeenOk(v, 0, gone) && NothingTo(s, v, gone) && v.partyOf == s.partyOf
                && v.requests == s.requests
  {
    hide Core, SeenOk, BroadcastInfo, Broadcast, NothingTo;
    InfoKeeps(s, id, gone);
    var t := BroadcastInfo(s, id);
    BroadcastKeeps(t, id, code, p, gone);
    var u := Broadcast(t, id, code, p);
    NothingTrans(s, t, u, gone);
    if id in u.parties {
      BroadcastKeeps(u, id, NewLeader, u.parties[id].leader, gone);
      NothingTrans(s, u, Broadcast(u, id, NewLeader, u.parties[id].leader), gone);
    }
  }

  lemma RemoveMemberKeeps(s: State, id: int, p: Actor, why: LeaveWhy)
    requires Core(s, 0) && SeenOk(s, 0, Unheard(p, why)) && id in s.parties && PartyIdOf(s, p) == id
    ensures var v := RemoveMember(s, id, p, why);
            && Core(v, 0) && SeenOk(v, 0, Unheard(p, why)) && NothingTo(s, v, Unheard(p, why))
            && PartyIdOf(v, p) == 0 && forall r :: r in v.requests ==> !Involves(r, p)
  {
    hide Core, SeenOk, BroadcastInfo, Broadcast, NothingTo, TakenOut, DisbandParty, Succeed, Involves;
    var code := if why == ByKick then Kicked else Left;
    var gone := Unheard(p, why);
    var v := TakenOut(s, id, p, code, why != ByDisconnect);
    TakenOutKeeps(s, id, p, code, why);
    TwoMembers(s, id);
    if |v.parties[id].members| <= 1 {
      DisbandKeeps(v, id, id, gone);
      DisbandedWithout(v, id, p);
      NothingTrans(s, v, DisbandParty(v, id), gone);
    } else if s.parties[id].leader == p {
      SucceedKeeps(v, id, gone);
      var u := Succeed(v, id);
      NothingTrans(s, v, u, gone);
      ToldAfterLeaving(u, id, code, p, true, gone);
      NothingTrans(s, u, RemoveMember(s, id, p, why), gone);
    } else {
      OtherLeader(v, s, id, p);
      ToldAfterLeaving(v, id, code, p, false, gone);
      NothingTrans(s, v, RemoveMember(s, id, p, why), gone);
    }
  }

  /** Whoever was out already stays out, and no request names it afterwards. */
  lemma DisbandedWithout(s: State, id: int, p: Actor)
    requires Core(s, id) && id in s.parties && PartyIdOf(s, p) == 0 && forall r :: r in s.requests ==> !Involves(r, p)
    ensures var v := DisbandParty(s, id);
            PartyIdOf(v, p) == 0 && forall r :: r in v.requests ==> !Involves(r, p)
  {
    hide Core, Quiet, Involves, CancelAll, SendAway, Seen, SeenOk;
    var members := s.parties[id].members;
    CancelAllCore(s, id, members);
    var u := CancelAll(s, members);
    QuietParts(s, u, None);
    CoreIds(s, id, id);
    ApartIds(u, id, id, p);
  }

  lemma {:induction false} CancelAllCore(s: State, but: int, members: seq<Member>)
    requires Core(s, but)
    ensures Core(CancelAll(s, members), but) && Quiet(s, CancelAll(s, members), None)
    ensures forall r :: r in CancelAll(s, members).requests ==> r in s.requests
    decreases |members|
  {
    hide Core, Quiet, Involves, CancelFrom;
    if members == [] {
      SelfQuiet(s, None);
    } else {
      var u := CancelRequestsOf(s, members[0].player, None);
      CancelCore(s, but, members[0].player, None);
      CancelAllCore(u, but, members[1..]);
      QuietTrans(s, u, CancelAll(s, members), None);
    }
  }

  /** With somebody else gone, the leader is still a member. */
  lemma OtherLeader(v: State, s: State, id: int, p: Actor)
    requires Core(v, id) && Core(s, 0) && id in s.parties && id in v.parties && p != s.parties[id].leader
    requires |v.parties[id].members| >= 2 && v.parties[id].leader == s.parties[id].leader
    requires exists c, b :: v == TakenOut(s, id, p, c, b)
    ensures Core(v, 0)
  {
    hide Core, TakenOut;
    TwoMembers(s, id);
    var c, b :| v == TakenOut(s, id, p, c, b);
    LeaderStays(s, id, p, c, b);
    CoreAgain(v, id);
  }

  lemma LeaderStays(s: State, id: int, p: Actor, c: Notice, b: bool)
    requires Core(s, 0) && id in s.parties && p != s.parties[id].leader
    ensures id in TakenOut(s, id, p, c, b).parties
    ensures IsMember(TakenOut(s, id, p, c, b).parties[id], s.parties[id].leader)
  {
    hide Core, CancelFrom, Dropped, Quiet;
    var skip := if b then None else Some(p);
    CancelCore(s, 0, p, skip);
    QuietParts(s, CancelRequestsOf(s, p, skip), skip);
    MembersIn(s, 0, id);
    TwoMembers(s, id);
    var members := s.parties[id].members;
    DroppedIs(members, p);
    var i :| 0 <= i < |members| && members[i].player == s.parties[id].leader;
    assert members[i] in members;
    assert members[i] in Dropped(members, p);
    var j :| 0 <= j < |Dropped(members, p)| && Dropped(members, p)[j] == members[i];
    assert TakenOut(s, id, p, c, b).parties[id].members[j].player == s.parties[id].leader;
  }

  lemma CoreAgain(s: State, id: int)
    requires Core(s, id) && id in s.parties && |s.parties[id].members| >= 2
             && IsMember(s.parties[id], s.parties[id].leader)
    ensures Core(s, 0)
  {
    hide RequestsOk, CountersOk, MembersOk, IsMember, Belongs;
    assert PartyOk(s, id);
  }

  // ----- answers

  lemma TakenKeeps(s: State, i: nat)
    requires Inv(s) && i < |s.requests|
    ensures Inv(TakeRequest(s, i))
    ensures !HasReceived(TakeRequest(s, i), s.requests[i].to) && !HasSent(TakeRequest(s, i), s.requests[i].origin)
    ensures Present(TakeRequest(s, i), s.requests[i]) && RolesOk(TakeRequest(s, i), s.requests[i])
  {
    hide PartyOk, MembersOk, Belongs, RolesOk, StandingOf, Quiet, SeenOk;
    var v := TakeRequest(s, i);
    TakenQuiet(s, i, None);
    assert OnePerPlayer(v.requests) && forall r :: r in v.requests ==> r in s.requests by {
      TakenOthers(s.requests, i);
    }
    TakenOthers(s.requests, i);
    FewerRequests(s, v, 0);
    QuietSeen(s, v, 0, None, None);
    StillOk(s, v, s.requests[i]);
  }

  lemma TakenOthers(rs: seq<Request>, i: nat)
    requires OnePerPlayer(rs) && i < |rs|
    ensures var u := rs[..i] + rs[i + 1..];
            && OnePerPlayer(u) && (forall r :: r in u ==> r in rs)
            && (forall k :: 0 <= k < |u| ==> u[k].to != rs[i].to && u[k].origin != rs[i].origin)
  {
    var u := rs[..i] + rs[i + 1..];
    forall k | 0 <= k < |u| ensures u[k].to != rs[i].to && u[k].origin != rs[i].origin {
      if k < i { assert u[k] == rs[k]; } else { assert u[k] == rs[k + 1]; }
    }
    forall k, n | 0 <= k < n < |u| ensures u[k].origin != u[n].origin && u[k].to != u[n].to {
      assert u[k] == rs[if k < i then k else k + 1] && u[n] == rs[if n < i then n else n + 1];
    }
  }

  /** The asserts of Answer: a request that is still in the table has the roles it was made with. */
  lemma AnswerAsserts(s: State, i: nat)
    requires Inv(s) && i < |s.requests|
    ensures var r := s.requests[i];
            match r.kind
            case Invite => PartyOf(s, r.to).None?
                && (PartyOf(s, r.from).Some? ==> PartyOf(s, r.from).value.leader == r.from)
            case Apply => PartyOf(s, r.to).Some? && PartyOf(s, r.to).value.leader == r.to && PartyOf(s, r.from).None?
            case Suggest =>
              && PartyOf(s, r.to).Some? && PartyOf(s, r.to).value.leader == r.to
                   && IsMember(PartyOf(s, r.to).value, r.from)
              && r.about.Some? && PartyOf(s, r.about.value).None?
  {
    hide OnePerPlayer, CountersOk, MembersOk, PartyOk, SeenOk;
    var r := s.requests[i];
    assert RolesOk(s, r) && Belongs(s, r.from) && Belongs(s, r.to);
  }

  lemma PartyIs(s: State, p: Actor)
    requires Inv(s)
    ensures PartyOf(s, p).Some? <==> PartyIdOf(s, p) != 0
    ensures PartyOf(s, p).Some? ==> PartyIdOf(s, p) in s.parties && PartyOf(s, p).value == s.parties[PartyIdOf(s, p)]
                                    && PartyOf(s, p).value.id == PartyIdOf(s, p) && IsMember(PartyOf(s, p).value, p)
                                    && PartyOf(s, p).value.leader in s.shown
  {
    hide RequestsOk, CountersOk, SeenOk;
    assert Belongs(s, p);
    var id := PartyIdOf(s, p);
    if id != 0 {
      assert PartyOk(s, id);
      var i :| 0 <= i < |s.parties[id].members| && s.parties[id].members[i].player == s.parties[id].leader;
      assert s.parties[id].members[i].player in s.shown;
    }
  }

  lemma AcceptKeeps(s: State, me: Actor, r: Request, frame: nat)
    requires Inv(s) && r.to == me && Present(s, r) && RolesOk(s, r) && !HasReceived(s, me) && !HasSent(s, r.origin)
    ensures Inv(Accept(s, me, r, frame))
  {
    hide Inv, Create, Join, HasReceived, HasSent, AskFor, Tell;
    PartyIs(s, me);
    PartyIs(s, r.from);
    match r.kind
    case Invite =>
      var party := PartyOf(s, r.from);
      if party.None? {
        CreateKeeps(s, r.from, me);
      } else if |party.value.members| >= PARTY_MAX_MEMBERS {
        TellKeeps(s, me, Full, r.from);
        TellKeeps(Tell(s, me, Full, r.from), r.from, Full, me);
        TellKeeps(Tell(Tell(s, me, Full, r.from), r.from, Full, me), r.origin, Full, me);
      } else {
        JoinKeeps(s, party.value.id, me);
      }
    case Apply =>
      if |PartyOf(s, me).value.members| >= PARTY_MAX_MEMBERS {
        TellKeeps(s, me, Full, r.from);
        TellKeeps(Tell(s, me, Full, r.from), r.from, Full, me);
      } else {
        JoinKeeps(s, PartyOf(s, me).value.id, r.from);
      }
    case Suggest => SuggestAccepted(s, me, r, frame);
  }

  lemma SuggestAccepted(s: State, me: Actor, r: Request, frame: nat)
    requires Inv(s) && r.to == me && r.kind == Suggest && Present(s, r) && RolesOk(s, r) && !HasSent(s, r.origin)
    ensures Inv(Accept(s, me, r, frame))
  {
    hide Inv, HasReceived, HasSent, AskFor, Tell;
    PartyIs(s, me);
    PartyIs(s, r.about.value);
    var about := r.about.value;
    TellKeeps(s, me, Full, about);
    TellKeeps(Tell(s, me, Full, about), r.from, Full, about);
    TellKeeps(s, me, TargetBusy, about);
    TellKeeps(Tell(s, me, TargetBusy, about), r.from, TargetBusy, about);
    if |PartyOf(s, me).value.members| < PARTY_MAX_MEMBERS && !HasReceived(s, about) {
      AskForKeeps(s, about, Invite, r.origin, me, Some(r.from), frame);
      var v := AskFor(s, about, Invite, r.origin, me, Some(r.from), frame);
      TellKeeps(v, me, SentInvite, about);
      TellKeeps(Tell(v, me, SentInvite, about), r.from, SentInvite, about);
    }
  }

  lemma AnswerKeeps(s: State, me: Actor, id: nat, accept: bool, frame: nat)
    requires Inv(s)
    ensures Inv(Answer(s, me, id, accept, frame))
  {
    hide Inv, Accept, Tell, TakeRequest, HasReceived, HasSent, RolesOk;
    var i := FindRequest(s.requests, id, me);
    if i == |s.requests| {
      TellKeeps(s, me, NoRequest, 0);
    } else {
      var r, v := s.requests[i], TakeRequest(s, i);
      TakenKeeps(s, i);
      TellKeeps(v, r.from, Declined, me);
      TellKeeps(Tell(v, r.from, Declined, me), r.origin, Declined, me);
      if accept { AcceptKeeps(v, me, r, frame); }
    }
  }

  lemma PutKeeps(s: State, to: Actor, kind: AskKind, me: Actor, about: Option<Actor>, sent: Notice, frame: nat)
    requires Inv(s) && !HasSent(s, me)
    requires var r := Request(0, kind, me, me, to, about, 0); Present(s, r) && RolesOk(s, r)
    ensures Inv(Put(s, to, kind, me, about, sent, frame))
  {
    hide Inv, AskFor, Tell, HasReceived, HasSent, RolesOk;
    TellKeeps(s, me, TargetBusy, to);
    if !HasReceived(s, to) {
      AskForKeeps(s, to, kind, me, me, about, frame);
      TellKeeps(AskFor(s, to, kind, me, me, about, frame), me, sent, to);
    }
  }

  lemma AskKeeps(s: State, me: Actor, target: Option<Actor>, frame: nat)
    requires Inv(s) && me in s.shown && (target.Some? ==> target.value in s.shown)
    ensures Inv(Ask(s, me, target, frame))
  {
    hide Inv, Tell, Put, HasSent, IsMember;
    forall code, a ensures Inv(Tell(s, me, code, a)) { TellKeeps(s, me, code, a); }
    if target.Some? && target.value != me && !HasSent(s, me) {
      var t := target.value;
      var mine, theirs := PartyOf(s, me), PartyOf(s, t);
      PartyIs(s, me);
      PartyIs(s, t);
      if mine.None? && theirs.None? {
        PutKeeps(s, t, Invite, me, None, SentInvite, frame);
      } else if mine.Some? && theirs.None? && |mine.value.members| < PARTY_MAX_MEMBERS {
        if mine.value.leader == me {
          PutKeeps(s, t, Invite, me, None, SentInvite, frame);
        } else {
          LeaderLeads(s, me);
          PutKeeps(s, mine.value.leader, Suggest, me, Some(t), SentSuggest, frame);
        }
      } else if mine.None? && theirs.Some? && |theirs.value.members| < PARTY_MAX_MEMBERS {
        LeaderLeads(s, t);
        PutKeeps(s, theirs.value.leader, Apply, me, None, SentApply, frame);
      }
    }
  }

  lemma LeaderLeads(s: State, p: Actor)
    requires Inv(s) && PartyOf(s, p).Some?
    ensures var l := PartyOf(s, p).value.leader; StandingOf(s, l) == Standing(PartyIdOf(s, p), true) && l in s.shown
  {
    hide Inv, IsMember;
    PartyIs(s, p);
    LeaderIn(s, PartyIdOf(s, p));
  }

  lemma LeaderIn(s: State, id: int)
    requires Inv(s) && id in s.parties
    ensures PartyIdOf(s, s.parties[id].leader) == id && id != 0
  {
    hide RequestsOk, CountersOk, SeenOk;
    assert PartyOk(s, id);
  }

  // ----- the rest of what players do

  lemma LeaveKeeps(s: State, me: Actor)
    requires Inv(s)
    ensures Inv(Leave(s, me))
  {
    hide Core, SeenOk, Tell, RemoveMember, NothingTo;
    PartyIs(s, me);
    if PartyOf(s, me).None? {
      TellKeeps(s, me, NotInParty, 0);
    } else {
      RemoveMemberKeeps(s, PartyIdOf(s, me), me, Leaving);
    }
  }

  lemma MemberIn(s: State, id: int, p: Actor)
    requires Inv(s) && id in s.parties && IsMember(s.parties[id], p)
    ensures PartyIdOf(s, p) == id
  {
    hide RequestsOk, CountersOk, SeenOk;
    assert PartyOk(s, id);
  }

  lemma KickKeeps(s: State, me: Actor, target: Actor)
    requires Inv(s)
    ensures Inv(Kick(s, me, target)) && Inv(SetLeader(s, me, target))
  {
    hide Core, SeenOk, RemoveMember, ChangeLeader, NothingTo, IsMember;
    PartyIs(s, me);
    var no := Refusal(s, me, target);
    if no.Some? {
      TellKeeps(s, me, no.value.code, no.value.actor);
    } else {
      MemberIn(s, PartyIdOf(s, me), target);
      RemoveMemberKeeps(s, PartyIdOf(s, me), target, ByKick);
      ChangeLeaderKeeps(s, PartyIdOf(s, me), target);
    }
  }

  lemma DisbandOneKeeps(s: State, me: Actor)
    requires Inv(s)
    ensures Inv(Disband(s, me))
  {
    hide Core, SeenOk, Tell, DisbandParty, NothingTo;
    PartyIs(s, me);
    TellKeeps(s, me, NotInParty, 0);
    TellKeeps(s, me, NotLeader, 0);
    if PartyOf(s, me).Some? { DisbandKeeps(s, 0, PartyIdOf(s, me), None); }
  }

  // ----- a player goes

  /** Forget leaves nothing that names the player, keeps everything else in order, and sends the player nothing. */
  lemma ForgetLeavesNothing(s: State, p: Actor)
    requires Inv(s)
    ensures var v := Forget(s, p);
            && Core(v, 0) && SeenOk(v, 0, Some(p)) && NothingTo(s, v, Some(p))
            && PartyIdOf(v, p) == 0 && (forall r :: r in v.requests ==> !Involves(r, p))
            && forall id :: id in v.parties ==> !IsMember(v.parties[id], p)
  {
    hide Core, SeenOk, Quiet, Involves, CancelFrom, RemoveMember, NothingTo, IsMember;
    var u := CancelRequestsOf(s, p, Some(p));
    CancelCore(s, 0, p, Some(p));
    QuietParts(s, u, Some(p));
    QuietNothing(s, u, Some(p));
    assert SeenOk(s, 0, Some(p)) by { SeenBut(s, p); }
    QuietSeen(s, u, 0, Some(p), Some(p));
    SameStanding(s, u, p);
    PartyIs(s, p);
    if PartyOf(u, p).Some? {
      RemoveMemberKeeps(u, PartyIdOf(u, p), p, ByDisconnect);
      NothingTrans(s, u, Forget(s, p), Some(p));
    }
    NotMember(Forget(s, p), p);
  }

  lemma SeenBut(s: State, p: Actor)
    requires SeenOk(s, 0, None)
    ensures SeenOk(s, 0, Some(p))
  {
    hide Seen;
  }

  lemma NotMember(s: State, p: Actor)
    requires Core(s, 0) && PartyIdOf(s, p) == 0
    ensures forall id :: id in s.parties ==> !IsMember(s.parties[id], p)
  {
    hide RequestsOk, CountersOk;
    forall id | id in s.parties ensures !IsMember(s.parties[id], p) { assert MembersOk(s, id); }
  }

  /** Forgetting twice is forgetting once. */
  lemma ForgetTwice(s: State, p: Actor)
    requires Inv(s)
    ensures Forget(Forget(s, p), p) == Forget(s, p)
  {
    hide Inv, Forget, Involves, CancelFrom;
    var v := Forget(s, p);
    ForgetLeavesNothing(s, p);
    CancelNobody(v, 0, p, Some(p));
    ForgetStranger(v, p);
  }

  lemma ForgetStranger(s: State, p: Actor)
    requires CancelRequestsOf(s, p, Some(p)) == s && PartyIdOf(s, p) == 0
    ensures Forget(s, p) == s
  {
    hide CancelFrom, RemoveMember;
  }

  lemma {:induction false} CancelNobody(s: State, i: nat, p: Actor, skip: Option<Actor>)
    requires forall r :: r in s.requests ==> !Involves(r, p)
    ensures CancelFrom(s, i, p, skip) == s
    decreases |s.requests| - i
  {
    hide Involves;
    if i < |s.requests| { CancelNobody(s, i + 1, p, skip); }
  }

  /** The player is gone from the game, after Forget. */
  function Exit(s: State, p: Actor): State {
    var v := Forget(s, p);
    v.(shown := v.shown - {p})
  }

  lemma ExitKeeps(s: State, p: Actor)
    requires Inv(s)
    ensures Inv(Exit(s, p))
  {
    hide Forget, CountersOk, RolesOk, OnePerPlayer, Seen, StandingOf, NothingTo;
    ForgetLeavesNothing(s, p);
    var v, w := Forget(s, p), Exit(s, p);
    forall q ensures StandingOf(w, q) == StandingOf(v, q) && PartyOf(w, q) == PartyOf(v, q) { SameStanding(v, w, q); }
    forall i | 0 <= i < |w.requests| ensures Present(w, w.requests[i]) && RolesOk(w, w.requests[i]) {
      var r := v.requests[i];
      assert r in v.requests && RolesOk(v, r) && Present(v, r) && !Involves(r, p);
      RolesSame(v, w, r);
    }
    forall id | id in w.parties ensures PartyOk(w, id) {
      assert PartyOk(v, id) && !IsMember(v.parties[id], p);
    }
    forall q ensures Belongs(w, q) { assert Belongs(v, q); }
    assert CountersOk(w) by { ExitCounters(v, w); }
  }

  lemma ExitCounters(s: State, v: State)
    requires CountersOk(s) && v.count == s.count && v.partyOf == s.partyOf && v.parties == s.parties
             && v.requests == s.requests
    ensures CountersOk(v)
  {
    assert InParties(v) == InParties(s);
  }

  // ----- the game around it

  /** A new player, whom nobody has written to yet. */
  function Arrive(s: State, p: Actor, x: Shown): State { s.(shown := s.shown[p := x]) }

  ghost predicate Stranger(s: State, p: Actor) { p !in s.shown && forall i :: 0 <= i < |s.log| ==> s.log[i].to != p }

  lemma {:induction false} NeverTold(log: seq<Event>, p: Actor)
    requires forall i :: 0 <= i < |log| ==> log[i].to != p
    ensures Seen(log, p) == None
  {
    if log != [] { NeverTold(log[..|log| - 1], p); }
  }

  lemma ShownKeeps(s: State, p: Actor, x: Shown)
    requires Inv(s) && (p in s.shown || Stranger(s, p))
    ensures Inv(Arrive(s, p, x))
  {
    hide CountersOk, RolesOk, OnePerPlayer, Seen, StandingOf;
    var v := Arrive(s, p, x);
    forall q ensures StandingOf(v, q) == StandingOf(s, q) && PartyOf(v, q) == PartyOf(s, q) { SameStanding(s, v, q); }
    forall i | 0 <= i < |v.requests| ensures Present(v, v.requests[i]) && RolesOk(v, v.requests[i]) {
      assert Present(s, s.requests[i]);
      RolesSame(s, v, s.requests[i]);
    }
    forall id | id in v.parties ensures PartyOk(v, id) { assert PartyOk(s, id); }
    forall q ensures Belongs(v, q) { assert Belongs(s, q); }
    ExitCounters(s, v);
    if p !in s.shown {
      NeverTold(s.log, p);
      StrangerAlone(s, p);
    }
  }

  lemma StrangerAlone(s: State, p: Actor)
    requires Core(s, 0) && p !in s.shown
    ensures PartyOf(s, p) == None
  {
    hide RequestsOk, CountersOk;
    assert Belongs(s, p);
  }

  // ----- ticks

  lemma {:induction false} ExpireKeeps(s: State, i: nat, frame: nat)
    requires Inv(s)
    ensures Inv(ExpireFrom(s, i, frame)) && ExpireFrom(s, i, frame).shown == s.shown
    decreases |s.requests| - i
  {
    hide Inv, TakeRequest;
    if i < |s.requests| {
      if frame < s.requests[i].expireFrame {
        ExpireKeeps(s, i + 1, frame);
      } else {
        var r := s.requests[i];
        var t := TakeRequest(s, i);
        TakenKeeps(s, i);
        TakenLess(s, i);
        var x := Say(t, AskEnd(r.to, r.id, Expired));
        SayKeeps(t, AskEnd(r.to, r.id, Expired));
        TellKeeps(x, r.origin, Expired, r.to);
        var v := Tell(x, r.origin, Expired, r.to);
        TellKeeps(v, r.from, Expired, r.to);
        ExpireKeeps(if r.from != r.origin then Tell(v, r.from, Expired, r.to) else v, i, frame);
      }
    }
  }

  lemma TakenLess(s: State, i: nat)
    requires i < |s.requests|
    ensures |TakeRequest(s, i).requests| == |s.requests| - 1 && TakeRequest(s, i).shown == s.shown
  {
  }

  lemma SayKeeps(s: State, e: Event)
    requires Inv(s) && !e.Info? && !e.Row?
    ensures Inv(Say(s, e))
  {
    hide Core, SeenOk, Quiet;
    SayQuiet(s, e, None);
    TellCore(s, 0, Say(s, e), None);
    QuietSeen(s, Say(s, e), 0, None, None);
  }

  /** Every request that was due is gone, and no other. */
  lemma {:induction false} ExpireIsExact(s: State, i: nat, frame: nat)
    requires i <= |s.requests| && forall j :: 0 <= j < i ==> frame < s.requests[j].expireFrame
    ensures ExpireFrom(s, i, frame).requests == StillWaiting(s.requests, frame)
    decreases |s.requests| - i
  {
    if i == |s.requests| {
      AllWaiting(s.requests, frame);
    } else if frame < s.requests[i].expireFrame {
      ExpireIsExact(s, i + 1, frame);
    } else {
      var r := s.requests[i];
      var v := Tell(Say(TakeRequest(s, i), AskEnd(r.to, r.id, Expired)), r.origin, Expired, r.to);
      var u := if r.from != r.origin then Tell(v, r.from, Expired, r.to) else v;
      ExpireIsExact(u, i, frame);
      WaitingConcat(s.requests[..i], s.requests[i + 1..], frame);
      WaitingConcat(s.requests[..i], [r] + s.requests[i + 1..], frame);
      assert s.requests == s.requests[..i] + ([r] + s.requests[i + 1..]);
      assert ([r] + s.requests[i + 1..])[1..] == s.requests[i + 1..];
    }
  }

  function StillWaiting(rs: seq<Request>, frame: nat): seq<Request> {
    if rs == [] then []
    else if frame < rs[0].expireFrame then [rs[0]] + StillWaiting(rs[1..], frame) else StillWaiting(rs[1..], frame)
  }

  lemma {:induction false} AllWaiting(rs: seq<Request>, frame: nat)
    requires forall j :: 0 <= j < |rs| ==> frame < rs[j].expireFrame
    ensures StillWaiting(rs, frame) == rs
  {
    if rs != [] { AllWaiting(rs[1..], frame); }
  }

  lemma {:induction false} WaitingConcat(x: seq<Request>, y: seq<Request>, frame: nat)
    ensures StillWaiting(x + y, frame) == StillWaiting(x, frame) + StillWaiting(y, frame)
  {
    if x == [] {
      assert x + y == y;
    } else {
      WaitingConcat(x[1..], y, frame);
      assert (x + y)[1..] == x[1..] + y;
    }
  }

  // ----- the scan

  lemma {:induction false} RowAllSeen(s: State, to: seq<Member>, member: Actor, x: Shown, p: Actor)
    requires forall i, j :: 0 <= i < j < |to| ==> to[i].player != to[j].player
    ensures var v := RowAll(s, to, member, x);
            && v == s.(log := v.log)
            && Seen(v.log, p) == if Listed(to, p) then WithRow(Seen(s.log, p), member, x) else Seen(s.log, p)
    decreases |to|
  {
    hide Seen, WithRow;
    if to != [] {
      var u := Say(s, Row(to[0].player, member, x));
      RowAllSeen(u, to[1..], member, x, p);
      SeenSnoc(s.log, Row(to[0].player, member, x), p);
      ListedRest(to, p);
      if p == to[0].player { assert !Listed(to[1..], p); }
    }
  }

  /** The party with the `k`th member's values changed. */
  function Updated(s: State, id: int, k: nat, x: Shown): State
    requires id in s.parties && k < |s.parties[id].members|
  {
    s.(parties := s.parties[id := s.parties[id].(members :=
                                                 s.parties[id].members[k := Member(s.parties[id].members[k].player,
                                                 x)])])
  }

  lemma UpdatedCore(s: State, id: int, k: nat, x: Shown)
    requires Core(s, 0) && id in s.parties && k < |s.parties[id].members|
    ensures Core(Updated(s, id, k, x), 0)
  {
    hide StandingOf, RolesOk, OnePerPlayer;
    var v := Updated(s, id, k, x);
    forall p ensures StandingOf(v, p) == StandingOf(s, p) { UpdatedStanding(s, id, k, x, p); }
    forall i | 0 <= i < |v.requests| ensures Present(v, v.requests[i]) && RolesOk(v, v.requests[i]) {
      assert RolesOk(s, s.requests[i]);
      RolesSame(s, v, v.requests[i]);
    }
    forall n | n in v.parties ensures PartyOk(v, n) { UpdatedParty(s, id, k, x, n); }
    forall p ensures Belongs(v, p) { UpdatedBelongs(s, id, k, x, p); }
    assert CountersOk(v) by { UpdatedCounters(s, v); }
  }

  lemma UpdatedCounters(s: State, v: State)
    requires CountersOk(s) && v == s.(parties := v.parties) && v.parties.Keys == s.parties.Keys
    ensures CountersOk(v)
  {
    assert InParties(v) == InParties(s);
    assert |v.parties| == |v.parties.Keys| && |s.parties| == |s.parties.Keys|;
  }

  lemma UpdatedStanding(s: State, id: int, k: nat, x: Shown, p: Actor)
    requires id in s.parties && k < |s.parties[id].members|
    ensures StandingOf(Updated(s, id, k, x), p) == StandingOf(s, p)
  {
  }

  lemma UpdatedParty(s: State, id: int, k: nat, x: Shown, n: int)
    requires id in s.parties && k < |s.parties[id].members| && n in s.parties && PartyOk(s, n)
    ensures PartyOk(Updated(s, id, k, x), n)
  {
    var l := s.parties[n].leader;
    var i :| 0 <= i < |s.parties[n].members| && s.parties[n].members[i].player == l;
    assert Updated(s, id, k, x).parties[n].members[i].player == l;
  }

  lemma UpdatedBelongs(s: State, id: int, k: nat, x: Shown, p: Actor)
    requires id in s.parties && k < |s.parties[id].members| && Belongs(s, p)
    ensures Belongs(Updated(s, id, k, x), p)
  {
    var n := PartyIdOf(s, p);
    if n != 0 {
      var i :| 0 <= i < |s.parties[n].members| && s.parties[n].members[i].player == p;
      assert Updated(s, id, k, x).parties[n].members[i].player == p;
    }
  }

  lemma RowSetIs(members: seq<Member>, k: nat, x: Shown)
    requires k < |members| && forall i, j :: 0 <= i < j < |members| ==> members[i].player != members[j].player
    ensures RowSet(members, members[k].player, x) == members[k := Member(members[k].player, x)]
  {
  }

  lemma ScanMemberIs(s: State, id: int, k: nat)
    requires Inv(s) && id in s.parties && k < |s.parties[id].members|
    ensures Inv(ScanMember(s, id, k)) && ScanMember(s, id, k).parties.Keys == s.parties.Keys
    ensures ScanMember(s, id, k).shown == s.shown
    ensures ScanMember(s, id, k).parties
            == s.parties[id := s.parties[id].(members := s.parties[id].members[
                 k := Member(s.parties[id].members[k].player, ShownOf(s, s.parties[id].members[k].player))])]
  {
    hide Core, Seen, Listed, WithRow, RowAll;
    var q := s.parties[id];
    var m := q.members[k];
    var x := ShownOf(s, m.player);
    MembersIn(s, 0, id);
    if x == m.sent {
      assert q.members[k := Member(m.player, x)] == q.members;
      assert s.parties[id := q] == s.parties;
    } else {
      var u := Updated(s, id, k, x);
      UpdatedCore(s, id, k, x);
      var v := RowAll(u, q.members, m.player, x);
      RowAllSeen(u, q.members, m.player, x, 0);
      LogCore(u, v.log, 0);
      forall p | p in v.shown ensures Seen(v.log, p) == PartyOf(v, p) {
        RowAllSeen(u, q.members, m.player, x, p);
        IsListed(s, 0, id, p);
        RowSetIs(q.members, k, x);
        ScanSees(s, id, k, x, p);
      }
    }
  }

  lemma ScanSees(s: State, id: int, k: nat, x: Shown, p: Actor)
    requires id in s.parties && k < |s.parties[id].members| && id != 0
    requires RowSet(s.parties[id].members, s.parties[id].members[k].player, x)
             == s.parties[id].members[k := Member(s.parties[id].members[k].player, x)]
    ensures PartyIdOf(s, p) == id ==>
              PartyOf(Updated(s, id, k, x), p) == WithRow(PartyOf(s, p), s.parties[id].members[k].player, x)
    ensures PartyIdOf(s, p) != id ==> PartyOf(Updated(s, id, k, x), p) == PartyOf(s, p)
  {
  }

  /** Every member from the `k`th on has been sent with its present values. */
  ghost predicate UpToDate(s: State, id: int, k: nat) {
    id in s.parties ==> forall i :: 0 <= i < k && i < |s.parties[id].members| ==>
                          s.parties[id].members[i].sent == ShownOf(s, s.parties[id].members[i].player)
  }

  lemma {:induction false} ScanPartyKeeps(s: State, id: int, k: nat)
    requires Inv(s) && UpToDate(s, id, k)
    ensures var v := ScanParty(s, id, k);
            && Inv(v) && v.shown == s.shown && v.parties.Keys == s.parties.Keys
            && (id in v.parties ==> UpToDate(v, id, |v.parties[id].members|))
            && forall n :: n in s.parties && n != id ==> v.parties[n] == s.parties[n]
    decreases if id in s.parties then |s.parties[id].members| - k else 0
  {
    hide Inv, ScanMember;
    if id in s.parties && k < |s.parties[id].members| {
      ScanMemberIs(s, id, k);
      ScanPartyKeeps(ScanMember(s, id, k), id, k + 1);
    }
  }

  lemma {:induction false} ScanKeeps(s: State, order: seq<int>)
    requires Inv(s)
    ensures var v := ScanMembers(s, order);
            && Inv(v) && v.shown == s.shown && v.parties.Keys == s.parties.Keys
            && (forall n :: n in v.parties && n in order ==> UpToDate(v, n, |v.parties[n].members|))
            && forall n :: n in s.parties && n !in order ==> v.parties[n] == s.parties[n]
    decreases |order|
  {
    hide Inv, ScanParty;
    if order != [] {
      var u := ScanParty(s, order[0], 0);
      ScanPartyKeeps(s, order[0], 0);
      ScanKeeps(u, order[1..]);
      assert forall n :: n in order <==> n == order[0] || n in order[1..];
    }
  }

  /** Right after a scan of all parties every member's last sent values are its present ones, and each member's
      picture of its party says so. */
  lemma ScanIsCurrent(s: State, order: seq<int>, p: Actor)
    requires Inv(s) && (forall id :: id in s.parties ==> id in order)
    ensures var v := ScanMembers(s, order);
            && Inv(v)
            && (p in v.shown && PartyIdOf(v, p) != 0 ==>
                  && Seen(v.log, p).Some?
                  && forall i :: 0 <= i < |Seen(v.log, p).value.members| ==>
                       Seen(v.log, p).value.members[i].sent == ShownOf(v, Seen(v.log, p).value.members[i].player))
  {
    hide Core, ScanMembers, Seen;
    ScanKeeps(s, order);
    PartyIs(ScanMembers(s, order), p);
  }

  lemma TickKeeps(s: State, frame: nat, order: seq<int>)
    requires Inv(s)
    ensures Inv(Tick(s, frame, order))
  {
    hide Inv, ExpireFrom, ScanMembers;
    ExpireKeeps(s, 0, frame);
    var v := ExpireFrom(s, 0, frame);
    ScanClock(v, frame);
    ScanKeeps(v.(lastScan := frame), order);
  }

  lemma ScanClock(s: State, frame: nat)
    requires Inv(s)
    ensures Inv(s.(lastScan := frame))
  {
    hide CountersOk, RolesOk, OnePerPlayer, Seen, StandingOf;
    var v := s.(lastScan := frame);
    forall q ensures StandingOf(v, q) == StandingOf(s, q) && PartyOf(v, q) == PartyOf(s, q) { SameStanding(s, v, q); }
    forall i | 0 <= i < |v.requests| ensures Present(v, v.requests[i]) && RolesOk(v, v.requests[i]) {
      RolesSame(s, v, s.requests[i]);
    }
    forall id | id in v.parties ensures PartyOk(v, id) { assert PartyOk(s, id); }
    forall q ensures Belongs(v, q) { assert Belongs(s, q); }
    ExitCounters(s, v);
  }

  // ----- runs

  datatype Action =
    | DoAsk(me: Actor, clicked: Option<Actor>, frame: nat)
    | DoAnswer(me: Actor, id: nat, accept: bool, frame: nat)
    | DoLeave(me: Actor)
    | DoKick(me: Actor, target: Actor)
    | DoSetLeader(me: Actor, target: Actor)
    | DoDisband(me: Actor)
    | DoTick(frame: nat, order: seq<int>)
    | DoExit(me: Actor)
    | DoArrive(me: Actor, x: Shown)
    | DoChange(me: Actor, x: Shown)

  ghost predicate Enabled(s: State, act: Action) {
    match act
    case DoAsk(me, target, _) => me in s.shown && (target.Some? ==> target.value in s.shown)
    case DoArrive(me, _) => Stranger(s, me)
    case DoChange(me, _) => me in s.shown
    case _ => true
  }

  function Step(s: State, act: Action): State {
    match act
    case DoAsk(me, target, frame) => Ask(s, me, target, frame)
    case DoAnswer(me, id, accept, frame) => Answer(s, me, id, accept, frame)
    case DoLeave(me) => Leave(s, me)
    case DoKick(me, target) => Kick(s, me, target)
    case DoSetLeader(me, target) => SetLeader(s, me, target)
    case DoDisband(me) => Disband(s, me)
    case DoTick(frame, order) => Tick(s, frame, order)
    case DoExit(me) => Exit(s, me)
    case DoArrive(me, x) => Arrive(s, me, x)
    case DoChange(me, x) => Arrive(s, me, x)
  }

  lemma StepKeeps(s: State, act: Action)
    requires Inv(s) && Enabled(s, act)
    ensures Inv(Step(s, act))
  {
    hide Inv, Ask, Answer, Leave, Kick, SetLeader, Disband, Tick, Exit, Arrive, Stranger;
    match act
    case DoAsk(me, target, frame) => AskKeeps(s, me, target, frame);
    case DoAnswer(me, id, accept, frame) => AnswerKeeps(s, me, id, accept, frame);
    case DoLeave(me) => LeaveKeeps(s, me);
    case DoKick(me, target) => KickKeeps(s, me, target);
    case DoSetLeader(me, target) => KickKeeps(s, me, target);
    case DoDisband(me) => DisbandOneKeeps(s, me);
    case DoTick(frame, order) => TickKeeps(s, frame, order);
    case DoExit(me) => ExitKeeps(s, me);
    case DoArrive(me, x) => ShownKeeps(s, me, x);
    case DoChange(me, x) => ShownKeeps(s, me, x);
  }

  const START := State(map[], map[], map[], [], 1, 1, 0, Counters(0, 0, 0, 0, 0, 0, 0, 0, 0), [])

  ghost predicate CanRun(s: State, acts: seq<Action>)
    decreases |acts|
  {
    acts == [] || (Enabled(s, acts[0]) && CanRun(Step(s, acts[0]), acts[1..]))
  }

  function Ran(s: State, acts: seq<Action>): State
    decreases |acts|
  {
    if acts == [] then s else Ran(Step(s, acts[0]), acts[1..])
  }

  lemma {:induction false} RunKeeps(s: State, acts: seq<Action>)
    requires Inv(s) && CanRun(s, acts)
    ensures Inv(Ran(s, acts))
    decreases |acts|
  {
    hide Inv, Step, Enabled;
    if acts != [] {
      StepKeeps(s, acts[0]);
      RunKeeps(Step(s, acts[0]), acts[1..]);
    }
  }

  lemma StartIsFine()
    ensures Inv(START)
  {
    assert InParties(START) == {};
    forall p ensures Belongs(START, p) && Seen(START.log, p) == PartyOf(START, p) { }
  }

  /** In every run: requests have the roles they were made with, one sent and one received per player; parties have
      two to eight distinct members, their leader among them, and agree with everybody's party number; the counter
      equations hold; and everybody's picture, put together from the events it was sent, is its party. */
  lemma PartiesAreInOrder(acts: seq<Action>)
    requires CanRun(START, acts)
    ensures var s := Ran(START, acts);
            && RequestsOk(s)
            && (forall id :: id in s.parties ==> PartyOk(s, id))
            && (forall p :: PartyIdOf(s, p) != 0 <==> exists id :: id in s.parties && IsMember(s.parties[id], p))
            && CountersOk(s)
            && (forall p :: p in s.shown ==> Seen(s.log, p) == PartyOf(s, p))
  {
    hide CanRun, Ran, RequestsOk, CountersOk, Seen, IsMember, PartyOk, MembersOk;
    StartIsFine();
    RunKeeps(START, acts);
    var s := Ran(START, acts);
    forall id | id in s.parties ensures PartyOk(s, id) { LeaderIn(s, id); }
    forall p ensures PartyIdOf(s, p) != 0 <==> exists id :: id in s.parties && IsMember(s.parties[id], p) {
      PartyIs(s, p);
      forall id | id in s.parties && IsMember(s.parties[id], p) ensures PartyIdOf(s, p) != 0 {
        MemberIn(s, id, p);
        LeaderIn(s, id);
      }
    }
  }

  /** In every run the asserts of Answer hold for whatever request is answered. */
  lemma AnswersAreSafe(acts: seq<Action>, i: nat)
    requires CanRun(START, acts) && i < |Ran(START, acts).requests|
    ensures var s := Ran(START, acts);
            var r := s.requests[i];
            && (r.kind == Invite ==>
                  PartyOf(s, r.to).None? && (PartyOf(s, r.from).Some? ==> PartyOf(s, r.from).value.leader == r.from))
            && (r.kind == Apply ==>
                  PartyOf(s, r.to).Some? && PartyOf(s, r.to).value.leader == r.to && PartyOf(s, r.from).None?)
            && (r.kind == Suggest ==>
                  && PartyOf(s, r.to).Some? && PartyOf(s, r.to).value.leader == r.to
                       && IsMember(PartyOf(s, r.to).value, r.from)
                  && r.about.Some? && PartyOf(s, r.about.value).None?)
  {
    hide CanRun, Ran, Inv;
    StartIsFine();
    RunKeeps(START, acts);
    AnswerAsserts(Ran(START, acts), i);
  }
}
