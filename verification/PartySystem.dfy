/** The party system, changed in place. Every method does what the step functions say, so what is proved of their
    runs holds of it. */
module PartySystems {
  import opened Items
  import opened PartySteps
  import opened PartyInvariant
  import P = PartyRuns
  import F = PartySteps

  class PartySystem {
    var shown: map<Actor, Shown>       // the players, as far as parties look at them
    var partyOf: map<Actor, int>
    var parties: map<int, Party>
    var requests: seq<Request>
    var nextPartyId: int
    var nextRequestId: nat
    var lastScanFrame: nat
    var count: Counters
    var log: seq<Event>

    ghost function View(): State
      reads this
    {
      State(shown, partyOf, parties, requests, nextPartyId, nextRequestId, lastScanFrame, count, log)
    }

    constructor ()
      ensures View() == P.START
    {
      shown, partyOf, parties, requests := map[], map[], map[], [];
      nextPartyId, nextRequestId, lastScanFrame := 1, 1, 0;
      count, log := Counters(0, 0, 0, 0, 0, 0, 0, 0, 0), [];
    }

    // ----- looking

    function PartyOf(p: Actor): Option<Party>
      reads this
    {
      var id := if p in partyOf then partyOf[p] else 0;
      if id != 0 && id in parties then Some(parties[id]) else None
    }

    method FindMember(party: Party, target: Actor) returns (found: bool)
      ensures found == IsMember(party, target)
    {
      for i := 0 to |party.members|
        invariant forall j :: 0 <= j < i ==> party.members[j].player != target
      {
        if party.members[i].player == target {
          return true;
        }
      }
      return false;
    }

    method HasReceived(p: Actor) returns (yes: bool)
      ensures yes == F.HasReceived(View(), p)
    {
      for i := 0 to |requests|
        invariant forall j :: 0 <= j < i ==> requests[j].to != p
      {
        if requests[i].to == p {
          return true;
        }
      }
      return false;
    }

    method HasSent(p: Actor) returns (yes: bool)
      ensures yes == F.HasSent(View(), p)
    {
      for i := 0 to |requests|
        invariant forall j :: 0 <= j < i ==> requests[j].origin != p
      {
        if requests[i].origin == p {
          return true;
        }
      }
      return false;
    }

    // ----- sending

    method Say(e: Event)
      modifies `log
      ensures View() == F.Say(old(View()), e)
    {
      log := log + [e];
    }

    method Tell(to: Actor, code: Notice, actor: Actor)
      modifies `log
      ensures View() == F.Tell(old(View()), to, code, actor)
    {
      Say(NoticeEvent(to, code, actor));
    }

    method AskFor(to: Actor, kind: AskKind, origin: Actor, from: Actor, about: Option<Actor>, frame: nat)
      modifies `requests, `nextRequestId, `count, `log
      ensures View() == F.AskFor(old(View()), to, kind, origin, from, about, frame)
    {
      var r := Request(nextRequestId, kind, origin, from, to, about, frame + ASK_TIMEOUT_FRAMES);
      nextRequestId := if nextRequestId >= REQUEST_ID_MAX then 1 else nextRequestId + 1;
      requests := requests + [r];
      count := count.(requests := count.requests + 1, pending := count.pending + 1);
      Say(AskEvent(to, r.id, kind, from, about));
    }

    method TakeRequest(i: nat) returns (r: Request)
      requires i < |requests|
      modifies `requests, `count
      ensures r == old(requests)[i] && View() == F.TakeRequest(old(View()), i)
    {
      r := requests[i];
      requests := requests[..i] + requests[i + 1..];
      count := count.(requestsEnded := count.requestsEnded + 1, pending := count.pending - 1);
    }

    // ----- cancelling

    method TellCancelled(gone: Request, changed: Actor, skip: Option<Actor>)
      modifies `log
      ensures View() == F.TellCancelled(old(View()), gone, changed, skip)
    {
      if skip != Some(gone.to) {
        Say(AskEnd(gone.to, gone.id, Cancelled));
      }
      if skip != Some(gone.origin) && gone.origin != gone.to {
        Tell(gone.origin, Cancelled, changed);
      }
      if gone.from != gone.origin && skip != Some(gone.from) && gone.from != gone.to {
        Tell(gone.from, Cancelled, changed);
      }
    }

    method CancelRequestsOf(changed: Actor, skip: Option<Actor>)
      modifies `requests, `count, `log
      ensures View() == F.CancelRequestsOf(old(View()), changed, skip)
    {
      hide F.TellCancelled;
      ghost var w := View();
      var i := 0;
      while i < |requests|
        invariant i <= |requests|
        invariant CancelFrom(View(), i, changed, skip) == CancelFrom(w, 0, changed, skip)
        decreases |requests| - i
      {
        var r := requests[i];
        if r.origin != changed && r.from != changed && r.to != changed && r.about != Some(changed) {
          i := i + 1;
        } else {
          var gone := TakeRequest(i);
          TellCancelled(gone, changed, skip);
        }
      }
    }

    // ----- requests

    method Put(to: Actor, kind: AskKind, me: Actor, about: Option<Actor>, sent: Notice, frame: nat)
      modifies `requests, `nextRequestId, `count, `log
      ensures View() == F.Put(old(View()), to, kind, me, about, sent, frame)
    {
      hide F.HasReceived, F.AskFor;
      var busy := HasReceived(to);
      if busy {
        Tell(me, TargetBusy, to);
        return;
      }
      AskFor(to, kind, me, me, about, frame);
      Tell(me, sent, to);
    }

    method Ask(me: Actor, target: Option<Actor>, frame: nat)
      modifies `requests, `nextRequestId, `count, `log
      ensures View() == F.Ask(old(View()), me, target, frame)
    {
      hide F.HasSent, F.Put, F.Tell;
      if target == None {
        Tell(me, NoTarget, 0);
        return;
      }
      var t := target.value;
      if t == me {
        Tell(me, Self, me);
        return;
      }
      var busy := HasSent(me);
      if busy {
        Tell(me, SelfBusy, 0);
        return;
      }
      var mine, theirs := PartyOf(me), PartyOf(t);
      if mine.Some? && theirs.Some? {
        Tell(me, if partyOf[me] == partyOf[t] then SameParty else BothInParty, t);
        return;
      }
      if mine.None? && theirs.None? {
        Put(t, Invite, me, None, SentInvite, frame);
      } else if mine.Some? {
        if |mine.value.members| >= PARTY_MAX_MEMBERS {
          Tell(me, Full, t);
        } else if mine.value.leader == me {
          Put(t, Invite, me, None, SentInvite, frame);
        } else {
          Put(mine.value.leader, Suggest, me, Some(t), SentSuggest, frame);
        }
      } else if |theirs.value.members| >= PARTY_MAX_MEMBERS {
        Tell(me, Full, t);
      } else {
        Put(theirs.value.leader, Apply, me, None, SentApply, frame);
      }
    }

    /** The branches rest on the request still having the roles it was made with. */
    method Answer(me: Actor, requestId: nat, accept: bool, frame: nat)
      requires Inv(View())
      modifies this
      ensures View() == F.Answer(old(View()), me, requestId, accept, frame)
      ensures Inv(View())
    {
      hide Inv, F.Accept, F.TakeRequest, F.Tell, F.HasReceived, F.HasSent;
      P.AnswerKeeps(View(), me, requestId, accept, frame);
      var i := 0;
      while i < |requests| && !(requests[i].id == requestId && requests[i].to == me)
        invariant i <= |requests|
        invariant FindRequest(requests, requestId, me) == i + FindRequest(requests[i..], requestId, me)
      {
        i := i + 1;
      }
      if i == |requests| {
        Tell(me, NoRequest, 0);
        return;
      }
      P.AnswerAsserts(View(), i);
      P.TakenKeeps(View(), i);
      var r := TakeRequest(i);
      if !accept {
        Tell(r.from, Declined, me);
        if r.origin != r.from {
          Tell(r.origin, Declined, me);
        }
        return;
      }
      Accept(me, r, frame);
    }

    method Accept(me: Actor, r: Request, frame: nat)
      requires Inv(View()) && r.to == me && Present(View(), r) && RolesOk(View(), r)
      modifies this
      ensures View() == F.Accept(old(View()), me, r, frame)
    {
      hide Inv, F.Create, F.Join, F.HasReceived, F.AskFor, F.Tell;
      P.PartyIs(View(), me);
      P.PartyIs(View(), r.from);
      match r.kind
      case Invite =>
        assert PartyOf(me).None?;
        var party := PartyOf(r.from);
        if party.None? {
          Create(r.from, me);
          return;
        }
        assert party.value.leader == r.from;
        if |party.value.members| >= PARTY_MAX_MEMBERS {
          Tell(me, Full, r.from);
          Tell(r.from, Full, me);
          if r.origin != r.from {
            Tell(r.origin, Full, me);
          }
          return;
        }
        Join(party.value.id, me);
      case Apply =>
        var party := PartyOf(me);
        assert party.Some? && party.value.leader == me && PartyOf(r.from).None?;
        if |party.value.members| >= PARTY_MAX_MEMBERS {
          Tell(me, Full, r.from);
          Tell(r.from, Full, me);
          return;
        }
        Join(party.value.id, r.from);
      case Suggest =>
        var party := PartyOf(me);
        assert party.Some? && party.value.leader == me && r.about.Some?;
        var about := r.about.value;
        if |party.value.members| >= PARTY_MAX_MEMBERS {
          Tell(me, Full, about);
          Tell(r.from, Full, about);
          return;
        }
        var busy := HasReceived(about);
        if busy {
          Tell(me, TargetBusy, about);
          Tell(r.from, TargetBusy, about);
          return;
        }
        AskFor(about, Invite, r.origin, me, Some(r.from), frame);
        Tell(me, SentInvite, about);
        Tell(r.from, SentInvite, about);
    }

    // ----- members

    method BroadcastInfo(id: int)
      requires id in parties
      modifies `parties, `log
      ensures View() == F.BroadcastInfo(old(View()), id)
    {
      ghost var w := View();
      var party := parties[id];
      for i := 0 to |party.members|
        invariant party == w.parties[id].(members := party.members) && |party.members| == |w.parties[id].members|
        invariant forall j ::
                    0 <= j < i ==>
                      party.members[j] == Member(w.parties[id].members[j].player,
                                                 ShownOf(w, w.parties[id].members[j].player))
        invariant forall j :: i <= j < |party.members| ==> party.members[j] == w.parties[id].members[j]
      {
        var m := party.members[i].player;
        party := party.(members := party.members[i := Member(m, if m in shown then shown[m] else NOT_SENT)]);
      }
      assert party.members == Refreshed(w, w.parties[id].members);
      parties := parties[id := party];
      ghost var u := View();
      for i := 0 to |party.members|
        invariant InfoAll(View(), party.members[i..], party) == InfoAll(u, party.members, party)
      {
        assert party.members[i..][0] == party.members[i] && party.members[i..][1..] == party.members[i + 1..];
        Say(Info(party.members[i].player, Some(party)));
      }
    }

    method Broadcast(id: int, code: Notice, actor: Actor)
      requires id in parties
      modifies `log
      ensures View() == F.Broadcast(old(View()), id, code, actor)
    {
      ghost var w := View();
      var members := parties[id].members;
      for i := 0 to |members|
        invariant TellAll(View(), members[i..], code, actor) == TellAll(w, members, code, actor)
        invariant parties == w.parties
      {
        assert members[i..][0] == members[i] && members[i..][1..] == members[i + 1..];
        Tell(members[i].player, code, actor);
      }
    }

    method Create(leader: Actor, first: Actor)
      modifies this
      ensures View() == F.Create(old(View()), leader, first)
    {
      hide F.CancelRequestsOf, F.BroadcastInfo, F.Broadcast;
      CancelRequestsOf(leader, None);
      CancelRequestsOf(first, None);
      var id := nextPartyId;
      nextPartyId := nextPartyId + 1;
      parties := parties[id := Party(id, leader, [Member(leader, NOT_SENT), Member(first, NOT_SENT)])];
      partyOf := partyOf[leader := id][first := id];
      count := count.(created := count.created + 1, active := count.active + 1,
                      memberAdded := count.memberAdded + 2, members := count.members + 2);
      StaysListed(View(), id);
      BroadcastInfo(id);
      Broadcast(id, Joined, first);
    }

    method Join(id: int, p: Actor)
      requires id in parties
      modifies this
      ensures View() == F.Join(old(View()), id, p)
    {
      hide F.CancelRequestsOf, F.BroadcastInfo, F.Broadcast;
      CancelRequestsOf(p, None);
      parties := parties[id := parties[id].(members := parties[id].members + [Member(p, NOT_SENT)])];
      partyOf := partyOf[p := id];
      count := count.(memberAdded := count.memberAdded + 1, members := count.members + 1);
      StaysListed(View(), id);
      BroadcastInfo(id);
      Broadcast(id, Joined, p);
    }

    /** Takes the member off the list: the first place it stands. */
    method Drop(members: seq<Member>, p: Actor) returns (rest: seq<Member>)
      ensures rest == Dropped(members, p)
    {
      var i := 0;
      while i < |members| && members[i].player != p
        invariant i <= |members|
        invariant IndexOf(members, p) == i + IndexOf(members[i..], p)
      {
        i := i + 1;
      }
      if i < |members| {
        return members[..i] + members[i + 1..];
      }
      return members;
    }

    method TakeOut(id: int, p: Actor, code: Notice, notify: bool)
      requires id in parties
      modifies `parties, `partyOf, `requests, `count, `log
      ensures View() == F.TakenOut(old(View()), id, p, code, notify)
    {
      hide F.CancelRequestsOf, Dropped;
      CancelRequestsOf(p, if notify then None else Some(p));
      var rest := Drop(parties[id].members, p);
      parties := parties[id := parties[id].(members := rest)];
      partyOf := partyOf[p := 0];
      count := count.(memberRemoved := count.memberRemoved + 1, members := count.members - 1);
      if notify {
        Say(Info(p, None));
        Tell(p, code, p);
      }
    }

    method RemoveMember(id: int, p: Actor, why: LeaveWhy)
      requires id in parties
      modifies this
      ensures View() == F.RemoveMember(old(View()), id, p, why)
    {
      hide F.TakenOut, F.BroadcastInfo, F.Broadcast, F.DisbandParty, F.CancelRequestsOf;
      var wasLeader := parties[id].leader == p;
      var code := if why == ByKick then Kicked else Left;
      TakenOutListed(View(), id, p, code, why != ByDisconnect);
      TakeOut(id, p, code, why != ByDisconnect);
      if |parties[id].members| <= 1 {
        DisbandParty(id);
        return;
      }
      if wasLeader {
        var next := parties[id].members[0].player;
        parties := parties[id := parties[id].(leader := next)];
        CancelListed(View(), next);
        CancelRequestsOf(next, None);
      }
      StaysListed(View(), id);
      BroadcastInfo(id);
      Broadcast(id, code, p);
      if wasLeader {
        TellListed(View(), id, code, p);
        Broadcast(id, NewLeader, parties[id].leader);
      }
    }

    method DisbandParty(id: int)
      requires id in parties
      modifies `parties, `partyOf, `requests, `count, `log
      ensures View() == F.DisbandParty(old(View()), id)
    {
      hide F.CancelRequestsOf;
      ghost var w := View();
      var members := parties[id].members;
      for i := 0 to |members|
        invariant CancelAll(View(), members[i..]) == CancelAll(w, members)
      {
        assert members[i..][0] == members[i] && members[i..][1..] == members[i + 1..];
        CancelRequestsOf(members[i].player, None);
      }
      ghost var u := View();
      for i := 0 to |members|
        invariant SendAway(View(), members[i..]) == SendAway(u, members)
      {
        assert members[i..][0] == members[i] && members[i..][1..] == members[i + 1..];
        var m := members[i].player;
        partyOf := partyOf[m := 0];
        count := count.(memberRemoved := count.memberRemoved + 1, members := count.members - 1);
        Say(Info(m, None));
        Tell(m, Disbanded, 0);
      }
      count := count.(ended := count.ended + 1, active := count.active - 1);
      parties := parties - {id};
    }

    method ChangeLeader(id: int, p: Actor)
      requires id in parties
      modifies this
      ensures View() == F.ChangeLeader(old(View()), id, p)
    {
      hide F.CancelRequestsOf, F.BroadcastInfo, F.Broadcast;
      CancelListed(View(), parties[id].leader);
      CancelRequestsOf(parties[id].leader, None);
      CancelListed(View(), p);
      CancelRequestsOf(p, None);
      parties := parties[id := parties[id].(leader := p)];
      StaysListed(View(), id);
      BroadcastInfo(id);
      Broadcast(id, NewLeader, p);
    }

    // ----- what players do

    method Leave(me: Actor)
      modifies this
      ensures View() == F.Leave(old(View()), me)
    {
      hide F.RemoveMember;
      if PartyOf(me).None? {
        Tell(me, NotInParty, 0);
        return;
      }
      RemoveMember(partyOf[me], me, Leaving);
    }

    /** Says no to whoever may not do it. */
    method Refuse(me: Actor, target: Actor) returns (refused: bool)
      modifies `log
      ensures refused == F.Refusal(old(View()), me, target).Some?
      ensures View() == if refused then F.Say(old(View()), F.Refusal(old(View()), me, target).value) else old(View())
    {
      hide IsMember;
      var party := PartyOf(me);
      if party.None? {
        Tell(me, NotInParty, 0);
        return true;
      }
      if party.value.leader != me {
        Tell(me, NotLeader, 0);
        return true;
      }
      var found := FindMember(party.value, target);
      if !found {
        Tell(me, NotMember, target);
        return true;
      }
      if target == me {
        Tell(me, Self, me);
        return true;
      }
      return false;
    }

    method Kick(me: Actor, target: Actor)
      modifies this
      ensures View() == F.Kick(old(View()), me, target)
    {
      hide F.RemoveMember, IsMember;
      var refused := Refuse(me, target);
      if !refused {
        RemoveMember(partyOf[me], target, ByKick);
      }
    }

    method SetLeader(me: Actor, target: Actor)
      modifies this
      ensures View() == F.SetLeader(old(View()), me, target)
    {
      hide F.ChangeLeader, IsMember;
      var refused := Refuse(me, target);
      if !refused {
        ChangeLeader(partyOf[me], target);
      }
    }

    method Disband(me: Actor)
      modifies this
      ensures View() == F.Disband(old(View()), me)
    {
      hide F.DisbandParty;
      var party := PartyOf(me);
      if party.None? {
        Tell(me, NotInParty, 0);
        return;
      }
      if party.value.leader != me {
        Tell(me, NotLeader, 0);
        return;
      }
      DisbandParty(partyOf[me]);
    }

    method Forget(p: Actor)
      modifies this
      ensures View() == F.Forget(old(View()), p)
    {
      hide F.CancelRequestsOf, F.RemoveMember;
      CancelRequestsOf(p, Some(p));
      if PartyOf(p).Some? {
        RemoveMember(partyOf[p], p, ByDisconnect);
      }
    }

    // ----- ticks

    method Expire(frame: nat)
      modifies `requests, `count, `log
      ensures View() == ExpireFrom(old(View()), 0, frame)
    {
      ghost var w := View();
      var i := 0;
      while i < |requests|
        invariant i <= |requests|
        invariant ExpireFrom(View(), i, frame) == ExpireFrom(w, 0, frame)
        decreases |requests| - i
      {
        if frame < requests[i].expireFrame {
          i := i + 1;
        } else {
          var r := TakeRequest(i);
          Say(AskEnd(r.to, r.id, Expired));
          Tell(r.origin, Expired, r.to);
          if r.from != r.origin {
            Tell(r.from, Expired, r.to);
          }
        }
      }
    }

    method ScanMember(id: int, k: nat)
      requires id in parties && k < |parties[id].members|
      modifies `parties, `log
      ensures View() == F.ScanMember(old(View()), id, k)
      ensures parties.Keys == old(parties.Keys) && |parties[id].members| == |old(parties)[id].members|
    {
      var party := parties[id];
      var m := party.members[k];
      var now := if m.player in shown then shown[m.player] else NOT_SENT;
      if now == m.sent {
        return;
      }
      parties := parties[id := party.(members := party.members[k := Member(m.player, now)])];
      ghost var u := View();
      for i := 0 to |party.members|
        invariant RowAll(View(), party.members[i..], m.player, now) == RowAll(u, party.members, m.player, now)
        invariant parties == u.parties
      {
        assert party.members[i..][0] == party.members[i] && party.members[i..][1..] == party.members[i + 1..];
        Say(Row(party.members[i].player, m.player, now));
      }
    }

    method ScanMembers(order: seq<int>)
      requires forall i :: 0 <= i < |order| ==> order[i] in parties
      modifies `parties, `log
      ensures View() == F.ScanMembers(old(View()), order)
    {
      hide F.ScanMember;
      ghost var w := View();
      for i := 0 to |order|
        invariant F.ScanMembers(View(), order[i..]) == F.ScanMembers(w, order)
        invariant parties.Keys == w.parties.Keys
      {
        var id := order[i];
        assert order[i..][0] == id && order[i..][1..] == order[i + 1..];
        ghost var u := View();
        var k := 0;
        while k < |parties[id].members|
          invariant id in parties && parties.Keys == w.parties.Keys
          invariant k <= |parties[id].members| && |parties[id].members| == |u.parties[id].members|
          invariant ScanParty(View(), id, k) == ScanParty(u, id, 0)
          decreases |u.parties[id].members| - k
        {
          ScanMember(id, k);
          k := k + 1;
        }
      }
    }

    /** `order` is how the table lists its parties. */
    method Tick(frame: nat, order: seq<int>)
      requires forall i :: 0 <= i < |order| ==> order[i] in parties
      requires lastScanFrame <= frame
      modifies this
      ensures View() == F.Tick(old(View()), frame, order)
    {
      hide ExpireFrom, F.ScanMembers;
      ExpireNothing(View(), frame);
      ExpireParties(View(), 0, frame);
      if requests != [] {
        Expire(frame);
      }
      if parties != map[] && frame - lastScanFrame >= MEMBER_SCAN_FRAMES {
        lastScanFrame := frame;
        ScanMembers(order);
      }
    }
  }

  // ----- what the calls above leave alone

  lemma ExpireNothing(s: State, frame: nat)
    ensures s.requests == [] ==> ExpireFrom(s, 0, frame) == s
  {
  }

  lemma {:induction false} ExpireParties(s: State, i: nat, frame: nat)
    ensures ExpireFrom(s, i, frame).parties == s.parties && ExpireFrom(s, i, frame).lastScan == s.lastScan
    decreases |s.requests| - i
  {
    if i < |s.requests| {
      if frame < s.requests[i].expireFrame {
        ExpireParties(s, i + 1, frame);
      } else {
        var r := s.requests[i];
        var v := F.Tell(F.Say(F.TakeRequest(s, i), AskEnd(r.to, r.id, Expired)), r.origin, Expired, r.to);
        ExpireParties(if r.from != r.origin then F.Tell(v, r.from, Expired, r.to) else v, i, frame);
      }
    }
  }

  lemma {:induction false} InfoAllListed(s: State, to: seq<Member>, party: Party)
    ensures InfoAll(s, to, party).parties == s.parties
    decreases |to|
  {
    if to != [] { InfoAllListed(F.Say(s, Info(to[0].player, Some(party))), to[1..], party); }
  }

  lemma StaysListed(s: State, id: int)
    requires id in s.parties
    ensures F.BroadcastInfo(s, id).parties.Keys == s.parties.Keys
  {
    var party := s.parties[id].(members := Refreshed(s, s.parties[id].members));
    InfoAllListed(s.(parties := s.parties[id := party]), party.members, party);
  }

  lemma TellListed(s: State, id: int, code: Notice, actor: Actor)
    ensures F.Broadcast(s, id, code, actor).parties == s.parties
  {
    hide TellAll, Quiet;
    if id in s.parties { TellAllQuiet(s, s.parties[id].members, code, actor, None); }
  }

  lemma CancelListed(s: State, changed: Actor)
    ensures F.CancelRequestsOf(s, changed, None).parties == s.parties
  {
    hide CancelFrom, Others;
    CancelFromIs(s, 0, changed, None);
  }

  lemma TakenOutListed(s: State, id: int, p: Actor, code: Notice, notify: bool)
    requires id in s.parties
    ensures id in F.TakenOut(s, id, p, code, notify).parties
  {
    hide CancelFrom, Others;
    CancelFromIs(s, 0, p, if notify then None else Some(p));
  }
}
