/** What each party operation makes of the parties, the requests and everybody's screen, said in terms of who leads
    whom, who waits for whose answer, and what was sent. */
module PartyOutcomes {
  import opened Items
  import opened PartySteps
  import opened PartyInvariant
  import opened PartyKeeps
  import opened PartyChanges
  import opened PartyRuns

  // ----- what can be seen

  datatype Roster = Roster(leader: Actor, names: seq<Actor>)

  function Names(members: seq<Member>): seq<Actor> {
    seq(|members|, i requires 0 <= i < |members| => members[i].player)
  }

  function RosterOf(party: Party): Roster { Roster(party.leader, Names(party.members)) }

  /** Who leads whom, in joining order. */
  function Rosters(s: State): map<int, Roster> { map id | id in s.parties :: RosterOf(s.parties[id]) }

  function PartyTo(names: seq<Actor>, party: Party): seq<Event> {
    seq(|names|, i requires 0 <= i < |names| => Info(names[i], Some(party)))
  }

  function NoticeTo(names: seq<Actor>, code: Notice, actor: Actor): seq<Event> {
    seq(|names|, i requires 0 <= i < |names| => NoticeEvent(names[i], code, actor))
  }

  /** What is said of a cancelled request: its window closes, and whoever sent or made it, other than its receiver, is
      told, each once; `skip` hears nothing. */
  ghost predicate SaysCancelled(e: Event, r: Request, changed: Actor, skip: Option<Actor>) {
    && skip != Some(e.to)
    && (e == AskEnd(r.to, r.id, Cancelled)
        || (e == NoticeEvent(e.to, Cancelled, changed) && (e.to == r.origin || e.to == r.from) && e.to != r.to))
  }

  ghost predicate IsCancel(e: Event) {
    (e.AskEnd? && e.why == Cancelled) || (e.NoticeEvent? && e.code == Cancelled)
  }

  ghost predicate Cancels(news: seq<Event>) { forall i :: 0 <= i < |news| ==> IsCancel(news[i]) }

  /** Requests were cancelled, and then came `tail`. */
  ghost predicate SaidThen(s: State, v: State, tail: seq<Event>) {
    exists news :: Cancels(news) && v.log == s.log + news + tail
  }

  // ----- cancelling

  lemma CancelParts(s: State, p: Actor, skip: Option<Actor>)
    ensures var v := CancelRequestsOf(s, p, skip);
            && v == s.(requests := Others(s.requests, p), count := v.count, log := v.log)
            && s.log <= v.log && Cancels(v.log[|s.log|..])
  {
    hide Involves, TellCancelled, Seen, Others, CancelFrom;
    var v := CancelRequestsOf(s, p, skip);
    CancelFromIs(s, 0, p, skip);
    CancelSays(s, 0, p, skip);
  }

  function Unless(e: Event, skip: Option<Actor>): seq<Event> { if skip == Some(e.to) then [] else [e] }

  lemma SayUnlessIs(s: State, e: Event, skip: Option<Actor>)
    ensures SayUnless(s, e, skip) == s.(log := s.log + Unless(e, skip))
  {
    if skip == Some(e.to) { assert s.log + [] == s.log; }
  }

  /** The lines about one cancelled request, in order. */
  function LinesOf(r: Request, changed: Actor, skip: Option<Actor>): seq<Event> {
    Unless(AskEnd(r.to, r.id, Cancelled), skip)
    + (if r.origin != r.to then Unless(NoticeEvent(r.origin, Cancelled, changed), skip) else [])
    + (if r.from != r.origin && r.from != r.to then Unless(NoticeEvent(r.from, Cancelled, changed), skip) else [])
  }

  lemma LinesSay(r: Request, changed: Actor, skip: Option<Actor>)
    ensures var lines := LinesOf(r, changed, skip);
            && (forall e :: e in lines <==> SaysCancelled(e, r, changed, skip))
            && (forall i, j :: 0 <= i < j < |lines| ==> lines[i] != lines[j])
            && Cancels(lines)
  {
  }

  lemma TellSays(s: State, r: Request, changed: Actor, skip: Option<Actor>)
    ensures TellCancelled(s, r, changed, skip) == s.(log := s.log + LinesOf(r, changed, skip))
  {
    hide SayUnless, Unless;
    var e0, e1, e2 := AskEnd(r.to, r.id, Cancelled), NoticeEvent(r.origin, Cancelled, changed),
        NoticeEvent(r.from, Cancelled, changed);
    SayUnlessIs(s, e0, skip);
    var s1 := SayUnless(s, e0, skip);
    SayUnlessIs(s1, e1, skip);
    var s2 := if r.origin != r.to then SayUnless(s1, e1, skip) else s1;
    SayUnlessIs(s2, e2, skip);
    var n0, n1, n2 := Unless(e0, skip), if r.origin != r.to then Unless(e1, skip) else [],
        if r.from != r.origin && r.from != r.to then Unless(e2, skip) else [];
    assert s.log + n0 + n1 + n2 == s.log + (n0 + n1 + n2);
  }

  lemma {:induction false} CancelSays(s: State, i: nat, changed: Actor, skip: Option<Actor>)
    requires i <= |s.requests|
    ensures var v := CancelFrom(s, i, changed, skip);
            s.log <= v.log && Cancels(v.log[|s.log|..])
    decreases |s.requests| - i
  {
    hide Involves, TellCancelled, LinesOf, SaysCancelled;
    if i < |s.requests| {
      if !Involves(s.requests[i], changed) {
        CancelSays(s, i + 1, changed, skip);
      } else {
        var t := TakeRequest(s, i);
        var u := TellCancelled(t, s.requests[i], changed, skip);
        TellSays(t, s.requests[i], changed, skip);
        LinesSay(s.requests[i], changed, skip);
        assert u.log[|s.log|..] == LinesOf(s.requests[i], changed, skip);
        CancelSays(u, i, changed, skip);
        CancelsTrans(s.log, u.log, CancelFrom(u, i, changed, skip).log);
      }
    }
  }

  lemma CancelsTrans(a: seq<Event>, b: seq<Event>, c: seq<Event>)
    requires a <= b <= c && Cancels(b[|a|..]) && Cancels(c[|b|..])
    ensures Cancels(c[|a|..])
  {
    hide IsCancel;
    forall i | 0 <= i < |c[|a|..]| ensures IsCancel(c[|a|..][i]) {
      if i < |b| - |a| { assert c[|a|..][i] == b[|a|..][i]; } else { assert c[|a|..][i] == c[|b|..][i - (|b| - |a|)]; }
    }
  }

  /** Who hears of cancelled requests: exactly their receivers, senders and makers. */
  lemma {:induction false} CancelTells(s: State, i: nat, changed: Actor, skip: Option<Actor>, e: Event)
    requires i <= |s.requests| && forall j :: 0 <= j < i ==> !Involves(s.requests[j], changed)
    ensures var v := CancelFrom(s, i, changed, skip);
            && s.log <= v.log
            && (e in v.log[|s.log|..] <==>
                  exists r :: r in s.requests && Involves(r, changed) && SaysCancelled(e, r, changed, skip))
    decreases |s.requests| - i
  {
    hide Involves, TellCancelled, SaysCancelled, LinesOf;
    if i == |s.requests| {
      assert forall r :: r in s.requests ==> !Involves(r, changed);
    } else if !Involves(s.requests[i], changed) {
      CancelTells(s, i + 1, changed, skip, e);
    } else {
      var r, t := s.requests[i], TakeRequest(s, i);
      var u := TellCancelled(t, r, changed, skip);
      TellSays(t, r, changed, skip);
      CancelTells(u, i, changed, skip, e);
      var v := CancelFrom(u, i, changed, skip);
      assert v.log[|s.log|..] == u.log[|s.log|..] + v.log[|u.log|..];
      LinesSay(r, changed, skip);
      assert u.log[|s.log|..] == LinesOf(r, changed, skip);
      assert forall q :: q in s.requests <==> q == r || q in u.requests by { TakenIn(s.requests, i); }
    }
  }

  lemma TakenIn(rs: seq<Request>, i: nat)
    requires i < |rs|
    ensures forall q :: q in rs <==> q == rs[i] || q in rs[..i] + rs[i + 1..]
  {
    assert rs == rs[..i] + [rs[i]] + rs[i + 1..];
  }

  // ----- everybody is told

  lemma {:induction false} InfoAllIs(s: State, to: seq<Member>, party: Party)
    ensures InfoAll(s, to, party) == s.(log := s.log + PartyTo(Names(to), party))
    decreases |to|
  {
    if to == [] {
      assert s.log + PartyTo(Names(to), party) == s.log;
    } else {
      InfoAllIs(Say(s, Info(to[0].player, Some(party))), to[1..], party);
      assert PartyTo(Names(to), party) == [Info(to[0].player, Some(party))] + PartyTo(Names(to[1..]), party);
      assert s.log + [Info(to[0].player, Some(party))] + PartyTo(Names(to[1..]), party)
          == s.log + PartyTo(Names(to), party);
    }
  }

  lemma {:induction false} TellAllIs(s: State, to: seq<Member>, code: Notice, actor: Actor)
    ensures TellAll(s, to, code, actor) == s.(log := s.log + NoticeTo(Names(to), code, actor))
    decreases |to|
  {
    if to == [] {
      assert s.log + NoticeTo(Names(to), code, actor) == s.log;
    } else {
      TellAllIs(Tell(s, to[0].player, code, actor), to[1..], code, actor);
      assert NoticeTo(Names(to), code, actor)
             == [NoticeEvent(to[0].player, code, actor)] + NoticeTo(Names(to[1..]), code, actor);
      assert s.log + [NoticeEvent(to[0].player, code, actor)] + NoticeTo(Names(to[1..]), code, actor)
          == s.log + NoticeTo(Names(to), code, actor);
    }
  }

  /** The parties are as they were, and everybody in `id` has been sent it, and then the notice. */
  lemma AnnouncedIs(u: State, id: int, code: Notice, actor: Actor)
    requires id in u.parties
    ensures var v := Broadcast(BroadcastInfo(u, id), id, code, actor);
            var names := Names(u.parties[id].members);
            && id in v.parties && v == u.(parties := v.parties, log := v.log) && Rosters(v) == Rosters(u)
            && v.log == u.log + (PartyTo(names, v.parties[id]) + NoticeTo(names, code, actor))
  {
    hide InfoAll, TellAll;
    var f := Fresh(u, id);
    var names, party := Names(u.parties[id].members), f.parties[id];
    assert Names(party.members) == names;
    InfoAllIs(f, party.members, party);
    var b := BroadcastInfo(u, id);
    assert b == f.(log := u.log + PartyTo(names, party));
    TellAllIs(b, party.members, code, actor);
    assert u.log + PartyTo(names, party) + NoticeTo(names, code, actor)
        == u.log + (PartyTo(names, party) + NoticeTo(names, code, actor));
  }

  // ----- founding and joining

  /** A new party: its founder leads it, the other is its second member. */
  ghost predicate Founds(s: State, v: State, leader: Actor, first: Actor) {
    var id, names := s.nextParty, [leader, first];
    && Rosters(v) == Rosters(s)[id := Roster(leader, names)] && v.nextParty == id + 1
    && (forall p :: PartyIdOf(v, p) == if p in names then id else PartyIdOf(s, p))
    && v.requests == Others(Others(s.requests, leader), first) && v.nextRequest == s.nextRequest && v.shown == s.shown
    && id in v.parties && SaidThen(s, v, PartyTo(names, v.parties[id]) + NoticeTo(names, Joined, first))
  }

  /** One more member, at the end of the list. */
  ghost predicate Joins(s: State, v: State, id: int, p: Actor) {
    && id in s.parties
    && var names := Names(s.parties[id].members) + [p];
       && Rosters(v) == Rosters(s)[id := Roster(s.parties[id].leader, names)] && v.nextParty == s.nextParty
       && (forall q :: PartyIdOf(v, q) == if q == p then id else PartyIdOf(s, q))
       && v.requests == Others(s.requests, p) && v.nextRequest == s.nextRequest && v.shown == s.shown
       && id in v.parties && SaidThen(s, v, PartyTo(names, v.parties[id]) + NoticeTo(names, Joined, p))
  }

  lemma CreateFounds(s: State, leader: Actor, first: Actor)
    ensures Founds(s, Create(s, leader, first), leader, first)
  {
    hide CancelRequestsOf, Others, BroadcastInfo, Broadcast, Cancels;
    CancelParts(s, leader, None);
    var a := CancelRequestsOf(s, leader, None);
    CancelParts(a, first, None);
    var b := CancelRequestsOf(a, first, None);
    CancelsTrans(s.log, a.log, b.log);
    var u := Founded(b, leader, first);
    var id := s.nextParty;
    AnnouncedIs(u, id, Joined, first);
    var v := Create(s, leader, first);
    assert Names(u.parties[id].members) == [leader, first];
    assert Rosters(u) == Rosters(s)[id := Roster(leader, [leader, first])];
    assert b.log == s.log + b.log[|s.log|..];
  }

  lemma JoinJoins(s: State, id: int, p: Actor)
    requires id in s.parties
    ensures Joins(s, Join(s, id, p), id, p)
  {
    hide CancelRequestsOf, Others, BroadcastInfo, Broadcast, Cancels;
    CancelParts(s, p, None);
    var b := CancelRequestsOf(s, p, None);
    var u := Enrolled(b, id, p);
    AnnouncedIs(u, id, Joined, p);
    assert Names(u.parties[id].members) == Names(s.parties[id].members) + [p];
    assert Rosters(u) == Rosters(s)[id := Roster(s.parties[id].leader, Names(s.parties[id].members) + [p])];
    assert b.log == s.log + b.log[|s.log|..];
  }

  // ----- leaving

  function Minus(names: seq<Actor>, p: Actor): seq<Actor> {
    if names == [] then [] else (if names[0] == p then [] else [names[0]]) + Minus(names[1..], p)
  }

  function OthersAll(rs: seq<Request>, names: seq<Actor>): seq<Request>
    decreases |names|
  {
    if names == [] then rs else OthersAll(Others(rs, names[0]), names[1..])
  }

  function SentAway(names: seq<Actor>): seq<Event> {
    if names == [] then [] else [Info(names[0], None), NoticeEvent(names[0], Disbanded, 0)] + SentAway(names[1..])
  }

  /** The party is gone, and everybody in it is told. */
  ghost predicate Disbands(s: State, v: State, id: int) {
    && id in s.parties
    && var names := Names(s.parties[id].members);
       && Rosters(v) == Rosters(s) - {id} && v.nextParty == s.nextParty
       && (forall q :: PartyIdOf(v, q) == if q in names then 0 else PartyIdOf(s, q))
       && v.requests == OthersAll(s.requests, names) && v.nextRequest == s.nextRequest && v.shown == s.shown
       && SaidThen(s, v, SentAway(names))
  }

  lemma {:induction false} CancelAllIs(s: State, members: seq<Member>)
    ensures var v := CancelAll(s, members);
            && v == s.(requests := OthersAll(s.requests, Names(members)), count := v.count, log := v.log)
            && s.log <= v.log && Cancels(v.log[|s.log|..])
    decreases |members|
  {
    hide CancelRequestsOf, Others, Cancels, CancelFrom;
    if members == [] {
      assert Cancels([]) by { NoCancels(); }
      assert s.log[|s.log|..] == [];
    } else {
      var u := CancelRequestsOf(s, members[0].player, None);
      CancelParts(s, members[0].player, None);
      CancelAllIs(u, members[1..]);
      assert Names(members)[1..] == Names(members[1..]);
      CancelsTrans(s.log, u.log, CancelAll(s, members).log);
    }
  }

  lemma NoCancels()
    ensures Cancels([])
  {
  }

  lemma {:induction false} SendAwaySays(s: State, members: seq<Member>)
    ensures var v := SendAway(s, members);
            && v == s.(partyOf := v.partyOf, count := v.count, log := s.log + SentAway(Names(members)))
            && forall q :: PartyIdOf(v, q) == if q in Names(members) then 0 else PartyIdOf(s, q)
    decreases |members|
  {
    if members == [] {
      assert s.log + [] == s.log;
    } else {
      var m := members[0].player;
      var a := s.(partyOf := s.partyOf[m := 0],
                  count := s.count.(memberRemoved := s.count.memberRemoved + 1, members := s.count.members - 1));
      var u := Tell(Say(a, Info(m, None)), m, Disbanded, 0);
      SendAwaySays(u, members[1..]);
      assert Names(members) == [m] + Names(members[1..]);
      assert u.log + SentAway(Names(members[1..])) == s.log + SentAway(Names(members)) by {
        assert u.log == s.log + [Info(m, None), NoticeEvent(m, Disbanded, 0)];
      }
    }
  }

  lemma PartyDisbands(s: State, id: int)
    requires id in s.parties
    ensures Disbands(s, DisbandParty(s, id), id)
  {
    hide CancelAll, SendAway, OthersAll, Cancels, SentAway;
    var members := s.parties[id].members;
    var a := CancelAll(s, members);
    CancelAllIs(s, members);
    SendAwaySays(a, members);
    var v := DisbandParty(s, id);
    assert Rosters(v) == Rosters(s) - {id};
    assert a.log == s.log + a.log[|s.log|..];
  }

  /** What a departure leaves: nobody's party with one member, the next in joining order as leader when the leader goes,
      and the others as they were. */
  ghost predicate Leaves(s: State, v: State, id: int, p: Actor, code: Notice, told: bool) {
    && id in s.parties
    && var names, leads := Minus(Names(s.parties[id].members), p), s.parties[id].leader == p;
       && v.nextParty == s.nextParty && v.nextRequest == s.nextRequest && v.shown == s.shown
       && if |names| <= 1
          then && Rosters(v) == Rosters(s) - {id}
               && (forall q :: PartyIdOf(v, q) == if q == p || q in names then 0 else PartyIdOf(s, q))
               && v.requests == OthersAll(Others(s.requests, p), names)
               && SaidBetween(s, v, Farewell(p, code, told), SentAway(names))
          else var next := if leads then names[0] else s.parties[id].leader;
               && Rosters(v) == Rosters(s)[id := Roster(next, names)]
               && (forall q :: PartyIdOf(v, q) == if q == p then 0 else PartyIdOf(s, q))
               && v.requests == (if leads then Others(Others(s.requests, p), next) else Others(s.requests, p))
               && id in v.parties
               && SaidBetween(s, v, Farewell(p, code, told),
                              PartyTo(names, v.parties[id]) + NoticeTo(names, code, p)
                              + if leads then NoticeTo(names, NewLeader, next) else [])
  }

  function Farewell(p: Actor, code: Notice, told: bool): seq<Event> {
    if told then [Info(p, None), NoticeEvent(p, code, p)] else []
  }

  /** Requests were cancelled, then came `first`, then more were cancelled, and then came `tail`. */
  ghost predicate SaidBetween(s: State, v: State, first: seq<Event>, tail: seq<Event>) {
    exists a, b :: Cancels(a) && Cancels(b) && v.log == s.log + a + first + b + tail
  }

  lemma {:induction false} NamesDropped(members: seq<Member>, p: Actor)
    requires forall i, j :: 0 <= i < j < |members| ==> members[i].player != members[j].player
    ensures Names(Dropped(members, p)) == Minus(Names(members), p)
  {
    hide Dropped, Names;
    if members == [] {
      DroppedFirst(members, p);
      NoNames();
    } else {
      var m, rest := members[0], members[1..];
      assert members == [m] + rest;
      NamesCons(m, rest);
      DroppedFirst(members, p);
      if m.player == p {
        NotNamed(rest, p);
      } else {
        NamesDropped(rest, p);
        NamesCons(m, Dropped(rest, p));
      }
    }
  }

  lemma NoNames()
    ensures Names([]) == []
  {
  }

  lemma NamesCons(m: Member, rest: seq<Member>)
    ensures Names([m] + rest) == [m.player] + Names(rest)
  {
  }

  lemma DroppedFirst(members: seq<Member>, p: Actor)
    ensures Dropped(members, p) ==
              if members == [] then []
              else if members[0].player == p then members[1..] else [members[0]] + Dropped(members[1..], p)
  {
  }

  lemma {:induction false} NotNamed(members: seq<Member>, p: Actor)
    requires forall i :: 0 <= i < |members| ==> members[i].player != p
    ensures Minus(Names(members), p) == Names(members)
  {
    if members != [] {
      NotNamed(members[1..], p);
      assert Names(members)[1..] == Names(members[1..]);
      assert Names(members) == [members[0].player] + Names(members[1..]);
    }
  }

  lemma TakenOutIs(s: State, id: int, p: Actor, code: Notice, told: bool)
    requires Core(s, 0) && id in s.parties
    ensures var v := TakenOut(s, id, p, code, told);
            && id in v.parties && v.nextParty == s.nextParty && v.nextRequest == s.nextRequest && v.shown == s.shown
            && Names(v.parties[id].members) == Minus(Names(s.parties[id].members), p)
            && Rosters(v) == Rosters(s)[id := Roster(s.parties[id].leader, Minus(Names(s.parties[id].members), p))]
            && v.parties[id].leader == s.parties[id].leader
            && (forall q :: PartyIdOf(v, q) == if q == p then 0 else PartyIdOf(s, q))
            && v.requests == Others(s.requests, p) && SaidThen(s, v, Farewell(p, code, told))
  {
    hide Core, CancelRequestsOf, Others, Cancels, Dropped;
    var skip := if told then None else Some(p);
    CancelParts(s, p, skip);
    var a := CancelRequestsOf(s, p, skip);
    MembersOf(s, 0, id);
    NamesDropped(s.parties[id].members, p);
    var v := TakenOut(s, id, p, code, told);
    assert a.log == s.log + a.log[|s.log|..];
    assert v.log == s.log + a.log[|s.log|..] + Farewell(p, code, told);
  }

  lemma SaidJoin(s: State, u: State, v: State, first: seq<Event>, tail: seq<Event>)
    requires SaidThen(s, u, first) && SaidThen(u, v, tail)
    ensures SaidBetween(s, v, first, tail)
  {
    hide Cancels;
    var a :| Cancels(a) && u.log == s.log + a + first;
    var b :| Cancels(b) && v.log == u.log + b + tail;
    assert v.log == s.log + a + first + b + tail;
  }

  lemma Said(u: State, v: State, tail: seq<Event>)
    requires v.log == u.log + tail
    ensures SaidThen(u, v, tail)
  {
    NoCancels();
    assert v.log == u.log + [] + tail;
  }

  lemma RemovalLeaves(s: State, id: int, p: Actor, why: LeaveWhy)
    requires Core(s, 0) && id in s.parties
    ensures Leaves(s, RemoveMember(s, id, p, why), id, p, if why == ByKick then Kicked else Left, why != ByDisconnect)
  {
    hide Core, TakenOut, DisbandParty, Succeed, Broadcast, BroadcastInfo, Names, Minus, OthersAll, Others, SaidThen,
         SaidBetween, Rosters, PartyTo, NoticeTo, SentAway, Farewell;
    var code, told := if why == ByKick then Kicked else Left, why != ByDisconnect;
    var u := TakenOut(s, id, p, code, told);
    TakenOutIs(s, id, p, code, told);
    NamesSize(u.parties[id].members);
    if |u.parties[id].members| <= 1 {
      RemovalEnds(s, id, p, code, told);
    } else if s.parties[id].leader == p {
      SucceedLeads(u, id);
      RemovalSucceeds(s, id, p, code, told);
    } else {
      RemovalStays(s, id, p, code, told);
    }
  }

  lemma NamesSize(members: seq<Member>)
    ensures |Names(members)| == |members|
  {
  }

  lemma RemovalEnds(s: State, id: int, p: Actor, code: Notice, told: bool)
    requires Core(s, 0) && id in s.parties && id in TakenOut(s, id, p, code, told).parties
             && |TakenOut(s, id, p, code, told).parties[id].members| <= 1
    ensures Leaves(s, DisbandParty(TakenOut(s, id, p, code, told), id), id, p, code, told)
  {
    hide Core, TakenOut, DisbandParty, Names, Minus, OthersAll, Others, SaidThen, SaidBetween, SentAway, Farewell,
         PartyTo, NoticeTo;
    var u := TakenOut(s, id, p, code, told);
    TakenOutIs(s, id, p, code, told);
    PartyDisbands(u, id);
    var v := DisbandParty(u, id);
    NamesSize(u.parties[id].members);
    SaidJoin(s, u, v, Farewell(p, code, told), SentAway(Names(u.parties[id].members)));
    assert Rosters(v) == Rosters(s) - {id} by { assert Rosters(u)[id := RosterOf(u.parties[id])] == Rosters(u); }
  }

  lemma RemovalStays(s: State, id: int, p: Actor, code: Notice, told: bool)
    requires Core(s, 0) && id in s.parties && s.parties[id].leader != p && id in TakenOut(s, id, p, code, told).parties
             && |TakenOut(s, id, p, code, told).parties[id].members| > 1
    ensures Leaves(s, Broadcast(BroadcastInfo(TakenOut(s, id, p, code, told), id), id, code, p), id, p, code, told)
  {
    hide Core, TakenOut, Broadcast, BroadcastInfo, Names, Minus, OthersAll, Others, SaidThen, SaidBetween, Rosters,
         PartyTo, NoticeTo, SentAway, Farewell;
    var u := TakenOut(s, id, p, code, told);
    TakenOutIs(s, id, p, code, told);
    NamesSize(u.parties[id].members);
    AnnouncedIs(u, id, code, p);
    var v := Broadcast(BroadcastInfo(u, id), id, code, p);
    var names := Names(u.parties[id].members);
    var tail := PartyTo(names, v.parties[id]) + NoticeTo(names, code, p);
    Said(u, v, tail);
    SaidJoin(s, u, v, Farewell(p, code, told), tail);
    assert tail + [] == tail;
    SameIds(u, v);
  }

  /** The next member leads; requests that name it are gone. */
  lemma SucceedLeads(s: State, id: int)
    requires id in s.parties && s.parties[id].members != []
    ensures var v, next := Succeed(s, id), s.parties[id].members[0].player;
            && id in v.parties && Names(v.parties[id].members) == Names(s.parties[id].members)
            && Rosters(v) == Rosters(s)[id := Roster(next, Names(s.parties[id].members))]
            && v == s.(parties := v.parties, requests := Others(s.requests, next), count := v.count, log := v.log)
            && SaidThen(s, v, [])
  {
    hide CancelRequestsOf, Others, Cancels, Succeed;
    var next := s.parties[id].members[0].player;
    SucceedIs(s, id);
    CancelParts(s, next, None);
    var a := CancelRequestsOf(s, next, None);
    assert a.log == s.log + a.log[|s.log|..] + [];
  }

  lemma RemovalSucceeds(s: State, id: int, p: Actor, code: Notice, told: bool)
    requires Core(s, 0) && id in s.parties && s.parties[id].leader == p && id in TakenOut(s, id, p, code, told).parties
             && |TakenOut(s, id, p, code, told).parties[id].members| > 1
    requires id in Succeed(TakenOut(s, id, p, code, told), id).parties
    ensures var u := Succeed(TakenOut(s, id, p, code, told), id);
            var w := Broadcast(BroadcastInfo(u, id), id, code, p);
            && id in w.parties
            && Leaves(s, Broadcast(w, id, NewLeader, w.parties[id].leader), id, p, code, told)
  {
    hide Core, TakenOut, Broadcast, BroadcastInfo, Names, Minus, OthersAll, Others, SaidThen, SaidBetween, Rosters,
         Succeed, PartyTo, NoticeTo, SentAway, Farewell;
    var t := TakenOut(s, id, p, code, told);
    TakenOutIs(s, id, p, code, told);
    NamesSize(t.parties[id].members);
    SucceedLeads(t, id);
    var u := Succeed(t, id);
    AnnouncedIs(u, id, code, p);
    var w := Broadcast(BroadcastInfo(u, id), id, code, p);
    RosterIn(w, id);
    RosterIn(u, id);
    var names, next := Names(t.parties[id].members), w.parties[id].leader;
    FirstName(t.parties[id].members);
    var v := Broadcast(w, id, NewLeader, next);
    BroadcastIs(w, id, NewLeader, next);
    var tail := PartyTo(names, w.parties[id]) + NoticeTo(names, code, p);
    SaidMore(t, u, v, tail + NoticeTo(names, NewLeader, next)) by {
      assert v.log == u.log + (tail + NoticeTo(names, NewLeader, next));
    }
    SaidJoin(s, t, v, Farewell(p, code, told), tail + NoticeTo(names, NewLeader, next));
    SameIds(t, v);
    RostersOf(w, v);
    TwiceIn(Rosters(s), id, Roster(s.parties[id].leader, names), Roster(next, names));
  }

  lemma TwiceIn(m: map<int, Roster>, id: int, x: Roster, y: Roster)
    ensures m[id := x][id := y] == m[id := y]
  {
  }

  lemma SameIds(w: State, v: State)
    requires v.partyOf == w.partyOf
    ensures forall q :: PartyIdOf(v, q) == PartyIdOf(w, q)
  {
  }

  lemma RostersOf(w: State, v: State)
    requires v.parties == w.parties
    ensures Rosters(v) == Rosters(w)
  {
  }

  lemma SaidMore(t: State, u: State, v: State, tail: seq<Event>)
    requires SaidThen(t, u, []) && v.log == u.log + tail
    ensures SaidThen(t, v, tail)
  {
    hide Cancels;
    var a :| Cancels(a) && u.log == t.log + a + [];
    assert v.log == t.log + a + tail;
  }

  lemma BroadcastIs(w: State, id: int, code: Notice, actor: Actor)
    requires id in w.parties
    ensures Broadcast(w, id, code, actor) == w.(log := w.log + NoticeTo(Names(w.parties[id].members), code, actor))
  {
    TellAllIs(w, w.parties[id].members, code, actor);
  }

  lemma RosterIn(s: State, id: int)
    requires id in s.parties
    ensures Rosters(s)[id] == Roster(s.parties[id].leader, Names(s.parties[id].members))
  {
  }

  lemma FirstName(members: seq<Member>)
    requires members != []
    ensures Names(members) != [] && Names(members)[0] == members[0].player
  {
  }

  // ----- a new leader

  /** The member leads the party; requests of the old and of the new leader are gone. */
  ghost predicate HandsOver(s: State, v: State, id: int, p: Actor) {
    && id in s.parties
    && var names := Names(s.parties[id].members);
       && Rosters(v) == Rosters(s)[id := Roster(p, names)] && v.nextParty == s.nextParty
       && (forall q :: PartyIdOf(v, q) == PartyIdOf(s, q))
       && v.requests == Others(Others(s.requests, s.parties[id].leader), p) && v.nextRequest == s.nextRequest
       && v.shown == s.shown
       && id in v.parties && SaidThen(s, v, PartyTo(names, v.parties[id]) + NoticeTo(names, NewLeader, p))
  }

  lemma LeaderChanges(s: State, id: int, p: Actor)
    requires id in s.parties
    ensures HandsOver(s, ChangeLeader(s, id, p), id, p)
  {
    hide CancelRequestsOf, Others, BroadcastInfo, Broadcast, Cancels;
    var l := s.parties[id].leader;
    CancelParts(s, l, None);
    var a := CancelRequestsOf(s, l, None);
    CancelParts(a, p, None);
    var b := CancelRequestsOf(a, p, None);
    CancelsTrans(s.log, a.log, b.log);
    var u := b.(parties := b.parties[id := b.parties[id].(leader := p)]);
    AnnouncedIs(u, id, NewLeader, p);
    assert Rosters(u) == Rosters(s)[id := Roster(p, Names(s.parties[id].members))];
    assert b.log == s.log + b.log[|s.log|..];
  }

  // ----- asking

  /** Nothing but these lines. */
  ghost predicate OnlySays(s: State, v: State, lines: seq<Event>) { v == s.(log := s.log + lines) }

  /** One more request, under the next number, good for thirty seconds; its receiver is asked, then come `lines`. */
  ghost predicate Puts(s: State, v: State, kind: AskKind, origin: Actor, from: Actor, to: Actor, about: Option<Actor>,
                       frame: nat, lines: seq<Event>) {
    && v == s.(requests := s.requests + [Request(s.nextRequest, kind, origin, from, to, about, frame + 750)],
               nextRequest := if s.nextRequest < 0xFFFF_FFFF then s.nextRequest + 1 else 1, count := v.count,
               log := s.log + [AskEvent(to, s.nextRequest, kind, from, about)] + lines)
  }

  /** Whose request goes to whom. Between two without a party it is an invitation; a leader invites as well, another
      member suggests to its leader, and who asks a member of a party applies to that party's leader. */
  lemma AskOutcome(s: State, me: Actor, target: Option<Actor>, frame: nat)
    requires Inv(s)
    ensures var v := Ask(s, me, target, frame);
            if target == None then OnlySays(s, v, [NoticeEvent(me, NoTarget, 0)])
            else
              var t := target.value;
              var mine, theirs := PartyIdOf(s, me), PartyIdOf(s, t);
              if t == me then OnlySays(s, v, [NoticeEvent(me, Self, me)])
              else if exists r :: r in s.requests && r.origin == me then OnlySays(s, v, [NoticeEvent(me, SelfBusy, 0)])
              else if mine != 0 && theirs != 0 then
                OnlySays(s, v, [NoticeEvent(me, if mine == theirs then SameParty else BothInParty, t)])
              else if FullParty(s, mine) || FullParty(s, theirs) then OnlySays(s, v, [NoticeEvent(me, Full, t)])
              else
                var leader := Leader(s, if theirs != 0 then theirs else mine);
                var to := if (theirs == 0 && mine == 0) || leader == me then t else leader;
                if exists r :: r in s.requests && r.to == to then OnlySays(s, v, [NoticeEvent(me, TargetBusy, to)])
                else if theirs != 0 then Puts(s, v, Apply, me, me, to, None, frame, [NoticeEvent(me, SentApply, to)])
                else if to == t then Puts(s, v, Invite, me, me, t, None, frame, [NoticeEvent(me, SentInvite, t)])
                else Puts(s, v, Suggest, me, me, to, Some(t), frame, [NoticeEvent(me, SentSuggest, to)])
  {
    hide Inv, Put, IsMember;
    PartyIs(s, me);
    HasSentIs(s, me);
    if target.Some? {
      var t := target.value;
      PartyIs(s, t);
      if PartyOf(s, me).Some? { LeaderIn(s, PartyIdOf(s, me)); }
      if PartyOf(s, t).Some? { LeaderIn(s, PartyIdOf(s, t)); }
      forall to, kind, about, sent {
        PutOutcome(s, to, kind, me, about, sent, frame);
      }
    }
  }

  predicate FullParty(s: State, id: int) { id != 0 && id in s.parties && |s.parties[id].members| >= 8 }

  function Leader(s: State, id: int): Actor { if id in s.parties then s.parties[id].leader else 0 }

  lemma HasSentIs(s: State, p: Actor)
    ensures HasSent(s, p) <==> exists r :: r in s.requests && r.origin == p
    ensures HasReceived(s, p) <==> exists r :: r in s.requests && r.to == p
  {
    if r :| r in s.requests && r.origin == p { var i :| 0 <= i < |s.requests| && s.requests[i] == r; }
    if r :| r in s.requests && r.to == p { var i :| 0 <= i < |s.requests| && s.requests[i] == r; }
  }

  lemma PutOutcome(s: State, to: Actor, kind: AskKind, me: Actor, about: Option<Actor>, sent: Notice, frame: nat)
    ensures var v := Put(s, to, kind, me, about, sent, frame);
            if exists r :: r in s.requests && r.to == to then OnlySays(s, v, [NoticeEvent(me, TargetBusy, to)])
            else Puts(s, v, kind, me, me, to, about, frame, [NoticeEvent(me, sent, to)])
  {
    HasSentIs(s, to);
  }

  // ----- answering

  function Less(rs: seq<Request>, r: Request): seq<Request> {
    if rs == [] then [] else if rs[0] == r then rs[1..] else [rs[0]] + Less(rs[1..], r)
  }

  lemma {:induction false} TakenIs(rs: seq<Request>, i: nat)
    requires i < |rs| && forall j :: 0 <= j < i ==> rs[j] != rs[i]
    ensures rs[..i] + rs[i + 1..] == Less(rs, rs[i])
  {
    if i == 0 {
      assert rs[..0] + rs[1..] == rs[1..];
    } else {
      TakenIs(rs[1..], i - 1);
      assert rs[..i] + rs[i + 1..] == [rs[0]] + (rs[1..][..i - 1] + rs[1..][i..]);
    }
  }

  /** Declined. */
  lemma DeclineOutcome(s: State, me: Actor, id: nat, frame: nat, r: Request)
    requires Inv(s) && r in s.requests && r.to == me && r.id == id
    ensures var v, t := Answer(s, me, id, false, frame), s.(requests := Less(s.requests, r));
            OnlySays(t, v.(count := s.count), [NoticeEvent(r.from, Declined, me)] +
                                              if r.origin != r.from then [NoticeEvent(r.origin, Declined, me)] else [])
  {
    hide Inv;
    Found(s, me, id, r);
  }

  lemma NobodyAsked(s: State, me: Actor, id: nat, accept: bool, frame: nat)
    requires forall r :: r in s.requests ==> r.id != id || r.to != me
    ensures OnlySays(s, Answer(s, me, id, accept, frame), [NoticeEvent(me, NoRequest, 0)])
  {
    assert forall j :: 0 <= j < |s.requests| ==> s.requests[j] in s.requests;
  }

  lemma Found(s: State, me: Actor, id: nat, r: Request)
    requires Inv(s) && r in s.requests && r.to == me && r.id == id
    ensures var i := FindRequest(s.requests, id, me);
            && i < |s.requests| && s.requests[i] == r
            && s.requests[..i] + s.requests[i + 1..] == Less(s.requests, r)
  {
    hide Core, SeenOk, FindRequest, Less;
    assert OnePerPlayer(s.requests) by { OnlyOne(s); }
    var k :| 0 <= k < |s.requests| && s.requests[k] == r;
    FindsOne(s.requests, id, me, k);
    TakenIs(s.requests, k);
  }

  lemma OnlyOne(s: State)
    requires Core(s, 0)
    ensures OnePerPlayer(s.requests)
  {
    hide CountersOk, RolesOk, MembersOk, PartyOk, Belongs;
  }

  lemma {:induction false} FindsOne(rs: seq<Request>, id: nat, to: Actor, k: nat)
    requires k < |rs| && rs[k].id == id && rs[k].to == to && forall j :: 0 <= j < |rs| && j != k ==> rs[j].to != to
    ensures FindRequest(rs, id, to) == k
  {
    if k > 0 { FindsOne(rs[1..], id, to, k - 1); }
  }

  /** Accepted. An invitation from somebody without a party founds one that the inviter leads; any other invitation adds
      the invited player to the inviter's party, an application the applicant to the answering leader's; at eight
      members nobody is added. A suggestion becomes an invitation in the leader's name, made by the member. */
  lemma AcceptOutcome(s: State, me: Actor, id: nat, frame: nat, r: Request)
    requires Inv(s) && r in s.requests && r.to == me && r.id == id
    ensures var v, t := Answer(s, me, id, true, frame), s.(requests := Less(s.requests, r));
            var mine, theirs := PartyIdOf(s, me), PartyIdOf(s, r.from);
            match r.kind
            case Invite =>
              && mine == 0
              && (if theirs == 0 then Founds(t, v, r.from, me)
                  else
                    && Leader(s, theirs) == r.from
                    && if FullParty(s, theirs)
                       then OnlySays(t, v.(count := s.count),
                                     [NoticeEvent(me, Full, r.from), NoticeEvent(r.from, Full, me)] +
                                     if r.origin != r.from then [NoticeEvent(r.origin, Full, me)] else [])
                       else Joins(t, v, theirs, me))
            case Apply =>
              && mine != 0 && Leader(s, mine) == me && theirs == 0
              && if FullParty(s, mine)
                 then OnlySays(t, v.(count := s.count), [NoticeEvent(me, Full, r.from), NoticeEvent(r.from, Full, me)])
                 else Joins(t, v, mine, r.from)
            case Suggest =>
              && mine != 0 && Leader(s, mine) == me && theirs == mine && r.about.Some?
              && var x := r.about.value;
                 && PartyIdOf(s, x) == 0
                 && if FullParty(s, mine)
                    then OnlySays(t, v.(count := s.count), [NoticeEvent(me, Full, x), NoticeEvent(r.from, Full, x)])
                    else if exists q :: q in t.requests && q.to == x
                    then OnlySays(t, v.(count := s.count),
                                  [NoticeEvent(me, TargetBusy, x), NoticeEvent(r.from, TargetBusy, x)])
                    else Puts(t, v.(count := s.count), Invite, r.origin, me, x, Some(r.from), frame,
                              [NoticeEvent(me, SentInvite, x), NoticeEvent(r.from, SentInvite, x)])
  {
    hide Inv, Create, Join, Founds, Joins;
    Found(s, me, id, r);
    var i := FindRequest(s.requests, id, me);
    var u := TakeRequest(s, i);
    AnswerAsserts(s, i);
    PartyIs(s, me);
    PartyIs(s, r.from);
    TakenKeeps(s, i);
    match r.kind
    case Invite =>
      if PartyIdOf(s, r.from) == 0 {
        CreateFounds(u, r.from, me);
        FoundsToo(u, s.(requests := u.requests), Create(u, r.from, me), r.from, me);
      } else if !FullParty(s, PartyIdOf(s, r.from)) {
        JoinJoins(u, PartyIdOf(s, r.from), me);
        JoinsToo(u, s.(requests := u.requests), Join(u, PartyIdOf(s, r.from), me), PartyIdOf(s, r.from), me);
      }
    case Apply =>
      if !FullParty(s, PartyIdOf(s, me)) {
        JoinJoins(u, PartyIdOf(s, me), r.from);
        JoinsToo(u, s.(requests := u.requests), Join(u, PartyIdOf(s, me), r.from), PartyIdOf(s, me), r.from);
      }
    case Suggest =>
      MemberIn(s, PartyIdOf(s, me), r.from);
      PartyIs(s, r.about.value);
      HasSentIs(u, r.about.value);
  }

  lemma FoundsToo(u: State, t: State, v: State, leader: Actor, first: Actor)
    requires Founds(u, v, leader, first) && t == u.(count := t.count)
    ensures Founds(t, v, leader, first)
  {
    hide Others, Cancels;
  }

  lemma JoinsToo(u: State, t: State, v: State, id: int, p: Actor)
    requires Joins(u, v, id, p) && t == u.(count := t.count)
    ensures Joins(t, v, id, p)
  {
    hide Others, Cancels;
  }

  // ----- what members and leaders may do

  lemma LeaveOutcome(s: State, me: Actor)
    requires Inv(s)
    ensures var v, id := Leave(s, me), PartyIdOf(s, me);
            if id == 0 then OnlySays(s, v, [NoticeEvent(me, NotInParty, 0)]) else Leaves(s, v, id, me, Left, true)
  {
    hide Core, SeenOk, RemoveMember, Leaves;
    PartyIs(s, me);
    if PartyIdOf(s, me) != 0 { RemovalLeaves(s, PartyIdOf(s, me), me, Leaving); }
  }

  /** What keeps a player from doing something to another: no party, not its leader, not a member, oneself. */
  function Barred(s: State, me: Actor, target: Actor): Option<Event> {
    var id := PartyIdOf(s, me);
    if id == 0 then Some(NoticeEvent(me, NotInParty, 0))
    else if Leader(s, id) != me then Some(NoticeEvent(me, NotLeader, 0))
    else if PartyIdOf(s, target) != id then Some(NoticeEvent(me, NotMember, target))
    else if target == me then Some(NoticeEvent(me, Self, me))
    else None
  }

  lemma BarredIs(s: State, me: Actor, target: Actor)
    requires Inv(s)
    ensures Refusal(s, me, target) == Barred(s, me, target)
    ensures Barred(s, me, target) == None ==> PartyIdOf(s, me) in s.parties
  {
    hide Core, SeenOk, IsMember;
    PartyIs(s, me);
    PartyIs(s, target);
    if PartyIdOf(s, me) != 0 && IsMember(s.parties[PartyIdOf(s, me)], target) { MemberIn(s, PartyIdOf(s, me), target); }
  }

  lemma KickOutcome(s: State, me: Actor, target: Actor)
    requires Inv(s)
    ensures var v, no := Kick(s, me, target), Barred(s, me, target);
            if no.Some? then OnlySays(s, v, [no.value]) else Leaves(s, v, PartyIdOf(s, me), target, Kicked, true)
  {
    hide Core, SeenOk, RemoveMember, Leaves, Refusal, Barred;
    BarredIs(s, me, target);
    if Barred(s, me, target) == None { RemovalLeaves(s, PartyIdOf(s, me), target, ByKick); }
  }

  lemma SetLeaderOutcome(s: State, me: Actor, target: Actor)
    requires Inv(s)
    ensures var v, no := SetLeader(s, me, target), Barred(s, me, target);
            if no.Some? then OnlySays(s, v, [no.value]) else HandsOver(s, v, PartyIdOf(s, me), target)
  {
    hide Core, SeenOk, ChangeLeader, HandsOver, Refusal, Barred;
    BarredIs(s, me, target);
    if Barred(s, me, target) == None { LeaderChanges(s, PartyIdOf(s, me), target); }
  }

  lemma DisbandOutcome(s: State, me: Actor)
    requires Inv(s)
    ensures var v, id := Disband(s, me), PartyIdOf(s, me);
            if id == 0 then OnlySays(s, v, [NoticeEvent(me, NotInParty, 0)])
            else if Leader(s, id) != me then OnlySays(s, v, [NoticeEvent(me, NotLeader, 0)])
            else Disbands(s, v, id)
  {
    hide Core, SeenOk, DisbandParty, Disbands;
    PartyIs(s, me);
    if PartyIdOf(s, me) != 0 { PartyDisbands(s, PartyIdOf(s, me)); }
  }

  /** Forgetting is leaving unheard, after the player's requests are gone. */
  lemma ForgetOutcome(s: State, p: Actor)
    requires Inv(s)
    ensures var v, u, id := Forget(s, p), s.(requests := Others(s.requests, p)), PartyIdOf(s, p);
            && (id == 0 ==> v.parties == s.parties && v.partyOf == s.partyOf && v.requests == u.requests)
            && (id != 0 ==> exists t: State :: t == u.(count := t.count, log := t.log) && SaidThen(s, t, []) &&
                                        Leaves(t, v, id, p, Left, false))
  {
    hide Core, SeenOk, RemoveMember, Leaves, CancelRequestsOf, Others, Cancels;
    PartyIs(s, p);
    CancelParts(s, p, Some(p));
    var t := CancelRequestsOf(s, p, Some(p));
    CancelCore(s, 0, p, Some(p));
    assert t.log == s.log + t.log[|s.log|..] + [];
    if PartyIdOf(s, p) != 0 { RemovalLeaves(t, PartyIdOf(s, p), p, ByDisconnect); }
  }

  // ----- from the first click to the party

  /** Two players without a party: whoever asked leads the party that comes of it. */
  lemma InvitationFounds(s: State, me: Actor, t: Actor, frame: nat, later: nat)
    requires Inv(s) && me in s.shown && t in s.shown && me != t && PartyIdOf(s, me) == 0 && PartyIdOf(s, t) == 0
    requires forall r :: r in s.requests ==> r.origin != me && r.to != t
    ensures var v := Answer(Ask(s, me, Some(t), frame), t, s.nextRequest, true, later);
            && Rosters(v) == Rosters(s)[s.nextParty := Roster(me, [me, t])]
            && PartyIdOf(v, me) == PartyIdOf(v, t) == s.nextParty
  {
    hide Inv, Ask, Answer;
    AskOutcome(s, me, Some(t), frame);
    AskKeeps(s, me, Some(t), frame);
    var u := Ask(s, me, Some(t), frame);
    var r := Request(s.nextRequest, Invite, me, me, t, None, frame + 750);
    assert u.requests[|s.requests|] == r;
    AcceptOutcome(u, t, s.nextRequest, later, r);
    RostersOf(s, u);
  }

  /** Somebody without a party asks a member of one with room: if that party's leader agrees, it is the next member. */
  lemma ApplicationJoins(s: State, me: Actor, t: Actor, frame: nat, later: nat)
    requires Inv(s) && me in s.shown && t in s.shown && me != t && PartyIdOf(s, me) == 0 && PartyIdOf(s, t) != 0
    requires !FullParty(s, PartyIdOf(s, t))
    requires forall r :: r in s.requests ==> r.origin != me && r.to != Leader(s, PartyIdOf(s, t))
    ensures var id := PartyIdOf(s, t);
            var v := Answer(Ask(s, me, Some(t), frame), Leader(s, id), s.nextRequest, true, later);
            && id in s.parties && PartyIdOf(v, me) == id
            && Rosters(v) == Rosters(s)[id := Roster(Leader(s, id), Names(s.parties[id].members) + [me])]
  {
    hide Inv, Ask, Answer, Names;
    AskOutcome(s, me, Some(t), frame);
    AskKeeps(s, me, Some(t), frame);
    var id := PartyIdOf(s, t);
    PartyIs(s, t);
    PartyIs(s, me);
    LeaderIn(s, id);
    var l := Leader(s, id);
    var u := Ask(s, me, Some(t), frame);
    var r := Request(s.nextRequest, Apply, me, me, l, None, frame + 750);
    assert u.requests[|s.requests|] == r;
    AcceptOutcome(u, l, s.nextRequest, later, r);
    RostersOf(s, u);
  }

  /** A member suggests somebody without a party, the leader agrees, and so does the newcomer: it is the next member of
      the leader's party. */
  lemma SuggestionJoins(s: State, me: Actor, t: Actor, f1: nat, f2: nat, f3: nat)
    requires Inv(s) && me in s.shown && t in s.shown && PartyIdOf(s, me) != 0 && PartyIdOf(s, t) == 0
    requires !FullParty(s, PartyIdOf(s, me)) && Leader(s, PartyIdOf(s, me)) != me
    requires forall r :: r in s.requests ==> r.origin != me && r.to != t && r.to != Leader(s, PartyIdOf(s, me))
    ensures var id := PartyIdOf(s, me);
            var asked := Ask(s, me, Some(t), f1);
            var agreed := Answer(asked, Leader(s, id), s.nextRequest, true, f2);
            var v := Answer(agreed, t, asked.nextRequest, true, f3);
            && id in s.parties && PartyIdOf(v, t) == id
            && Rosters(v) == Rosters(s)[id := Roster(Leader(s, id), Names(s.parties[id].members) + [t])]
  {
    hide Inv, Ask, Answer, Names;
    var id := PartyIdOf(s, me);
    AskOutcome(s, me, Some(t), f1);
    AskKeeps(s, me, Some(t), f1);
    PartyIs(s, me);
    PartyIs(s, t);
    LeaderIn(s, id);
    var l := Leader(s, id);
    var u := Ask(s, me, Some(t), f1);
    var r := Request(s.nextRequest, Suggest, me, me, l, Some(t), f1 + 750);
    assert u.requests[|s.requests|] == r;
    AcceptOutcome(u, l, s.nextRequest, f2, r);
    AnswerKeeps(u, l, s.nextRequest, true, f2);
    LessIn(u.requests, r);
    var a := Answer(u, l, s.nextRequest, true, f2);
    var q := Request(u.nextRequest, Invite, me, l, t, Some(me), f2 + 750);
    assert a.requests[|Less(u.requests, r)|] == q;
    AcceptOutcome(a, t, u.nextRequest, f3, q);
    RostersOf(s, a);
  }

  lemma {:induction false} LessIn(rs: seq<Request>, r: Request)
    ensures forall q :: q in Less(rs, r) ==> q in rs
  {
    if rs != [] { LessIn(rs[1..], r); }
  }

  // ----- ticks

  /** What is said of an expired request: its window closes, and its maker and its sender are told, each once. */
  function ExpiredLines(r: Request): seq<Event> {
    [AskEnd(r.to, r.id, Expired), NoticeEvent(r.origin, Expired, r.to)]
    + if r.from != r.origin then [NoticeEvent(r.from, Expired, r.to)] else []
  }

  function AllExpired(rs: seq<Request>, frame: nat): seq<Event> {
    if rs == [] then []
    else (if rs[0].expireFrame <= frame then ExpiredLines(rs[0]) else []) + AllExpired(rs[1..], frame)
  }

  lemma {:induction false} NoneExpired(rs: seq<Request>, frame: nat)
    requires forall j :: 0 <= j < |rs| ==> frame < rs[j].expireFrame
    ensures AllExpired(rs, frame) == []
  {
    if rs != [] { NoneExpired(rs[1..], frame); }
  }

  /** The first request that is due has the first lines. */
  lemma {:induction false} FirstExpired(rs: seq<Request>, i: nat, frame: nat)
    requires i < |rs| && rs[i].expireFrame <= frame && forall j :: 0 <= j < i ==> frame < rs[j].expireFrame
    ensures AllExpired(rs, frame) == ExpiredLines(rs[i]) + AllExpired(rs[..i] + rs[i + 1..], frame)
  {
    hide ExpiredLines;
    if i == 0 {
      assert rs[..0] + rs[1..] == rs[1..];
    } else {
      FirstExpired(rs[1..], i - 1, frame);
      var rest := rs[1..][..i - 1] + rs[1..][i..];
      assert rs[..i] + rs[i + 1..] == [rs[0]] + rest;
      assert ([rs[0]] + rest)[1..] == rest;
      assert AllExpired(rs, frame) == [] + AllExpired(rs[1..], frame);
      assert AllExpired([rs[0]] + rest, frame) == [] + AllExpired(rest, frame);
    }
  }

  lemma {:induction false} ExpireSays(s: State, i: nat, frame: nat)
    requires i <= |s.requests| && forall j :: 0 <= j < i ==> frame < s.requests[j].expireFrame
    ensures var v := ExpireFrom(s, i, frame);
            v == s.(requests := v.requests, count := v.count, log := s.log + AllExpired(s.requests, frame))
    decreases |s.requests| - i
  {
    hide ExpiredLines, AllExpired;
    if i == |s.requests| {
      NoneExpired(s.requests, frame);
      assert s.log + [] == s.log;
    } else if frame < s.requests[i].expireFrame {
      ExpireSays(s, i + 1, frame);
    } else {
      var r, t := s.requests[i], TakeRequest(s, i);
      var v := Tell(Say(t, AskEnd(r.to, r.id, Expired)), r.origin, Expired, r.to);
      var u := if r.from != r.origin then Tell(v, r.from, Expired, r.to) else v;
      ExpiredSays(t, r);
      assert |u.requests| == |s.requests| - 1;
      ExpireSays(u, i, frame);
      FirstExpired(s.requests, i, frame);
      var rest := AllExpired(u.requests, frame);
      assert s.log + ExpiredLines(r) + rest == s.log + (ExpiredLines(r) + rest);
    }
  }

  lemma ExpiredSays(t: State, r: Request)
    ensures var v := Tell(Say(t, AskEnd(r.to, r.id, Expired)), r.origin, Expired, r.to);
            (if r.from != r.origin then Tell(v, r.from, Expired, r.to) else v) == t.(log := t.log + ExpiredLines(r))
  {
  }

  lemma {:induction false} WaitingIs(rs: seq<Request>, frame: nat)
    ensures forall r :: r in StillWaiting(rs, frame) <==> r in rs && frame < r.expireFrame
  {
    if rs != [] {
      WaitingIs(rs[1..], frame);
      assert forall r :: r in rs <==> r == rs[0] || r in rs[1..];
    }
  }

  /** A scan changes what was last sent, and nothing about who is in which party. */
  ghost predicate OnlySent(s: State, v: State) {
    && v == s.(parties := v.parties, log := v.log) && Rosters(v) == Rosters(s)
  }

  lemma ScanMemberSends(s: State, id: int, k: nat)
    requires id in s.parties && k < |s.parties[id].members|
    ensures OnlySent(s, ScanMember(s, id, k))
  {
    var party := s.parties[id];
    var m := party.members[k];
    var now := ShownOf(s, m.player);
    if now != m.sent {
      var u := s.(parties := s.parties[id := party.(members := party.members[k := Member(m.player, now)])]);
      RowAllSends(u, party.members, m.player, now);
      assert Names(party.members[k := Member(m.player, now)]) == Names(party.members);
    }
  }

  lemma {:induction false} RowAllSends(s: State, to: seq<Member>, member: Actor, shown: Shown)
    ensures var v := RowAll(s, to, member, shown); v == s.(log := v.log)
    decreases |to|
  {
    if to != [] { RowAllSends(Say(s, Row(to[0].player, member, shown)), to[1..], member, shown); }
  }

  lemma {:induction false} ScanPartySends(s: State, id: int, k: nat)
    ensures OnlySent(s, ScanParty(s, id, k))
    decreases if id in s.parties then |s.parties[id].members| - k else 0
  {
    hide ScanMember, Rosters;
    if id in s.parties && k < |s.parties[id].members| {
      ScanMemberSends(s, id, k);
      var v := ScanMember(s, id, k);
      if id in v.parties && |v.parties[id].members| == |s.parties[id].members| { ScanPartySends(v, id, k + 1); }
    }
  }

  lemma {:induction false} ScanSends(s: State, order: seq<int>)
    ensures OnlySent(s, ScanMembers(s, order))
    decreases |order|
  {
    hide ScanParty, Rosters;
    if order != [] {
      ScanPartySends(s, order[0], 0);
      ScanSends(ScanParty(s, order[0], 0), order[1..]);
    }
  }

  /** A tick: exactly the requests that are due are gone, each with its lines; and half a second after the last scan, if
      there is a party, everybody's last sent values are the present ones. */
  lemma TickOutcome(s: State, frame: nat, order: seq<int>)
    requires Inv(s) && forall id :: id in s.parties ==> id in order
    ensures var v, scans := Tick(s, frame, order), s.parties != map[] && frame >= s.lastScan + 12;
            && Rosters(v) == Rosters(s) && (forall p :: PartyIdOf(v, p) == PartyIdOf(s, p))
            && (forall r :: r in v.requests <==> r in s.requests && frame < r.expireFrame)
            && s.log + AllExpired(s.requests, frame) <= v.log
            && (scans ==>
                  && v.lastScan == frame
                  && forall id, i :: id in v.parties && 0 <= i < |v.parties[id].members| ==>
                       v.parties[id].members[i].sent == ShownOf(s, v.parties[id].members[i].player))
            && (!scans ==> v.parties == s.parties && v.lastScan == s.lastScan
                           && v.log == s.log + AllExpired(s.requests, frame))
  {
    hide Inv, ExpireFrom, ScanMembers, Rosters, StillWaiting, AllExpired;
    ExpireKeeps(s, 0, frame);
    ExpireIsExact(s, 0, frame);
    ExpireSays(s, 0, frame);
    WaitingIs(s.requests, frame);
    var u := ExpireFrom(s, 0, frame);
    RostersOf(s, u);
    SameIds(s, u);
    if u.parties != map[] && frame >= u.lastScan + 12 {
      var w := u.(lastScan := frame);
      ScanClock(u, frame);
      ScanKeeps(w, order);
      ScanSends(w, order);
      ScanGrows(w, order);
      RostersOf(s, w);
      SameIds(s, ScanMembers(w, order));
    }
  }

  lemma {:induction false} ScanGrows(s: State, order: seq<int>)
    ensures s.log <= ScanMembers(s, order).log
    decreases |order|
  {
    hide ScanParty;
    if order != [] {
      PartyGrows(s, order[0], 0);
      ScanGrows(ScanParty(s, order[0], 0), order[1..]);
    }
  }

  lemma {:induction false} PartyGrows(s: State, id: int, k: nat)
    ensures s.log <= ScanParty(s, id, k).log
    decreases if id in s.parties then |s.parties[id].members| - k else 0
  {
    if id in s.parties && k < |s.parties[id].members| {
      var m := s.parties[id].members[k];
      var now := ShownOf(s, m.player);
      var v := ScanMember(s, id, k);
      if now != m.sent {
        var party := s.parties[id];
        RowsGrow(s.(parties := s.parties[id := party.(members := party.members[k := Member(m.player, now)])]),
                 party.members,
                 m.player, now);
      }
      if id in v.parties && |v.parties[id].members| == |s.parties[id].members| { PartyGrows(v, id, k + 1); }
    }
  }

  lemma {:induction false} RowsGrow(s: State, to: seq<Member>, member: Actor, shown: Shown)
    ensures s.log <= RowAll(s, to, member, shown).log
    decreases |to|
  {
    if to != [] { RowsGrow(Say(s, Row(to[0].player, member, shown)), to[1..], member, shown); }
  }
}
