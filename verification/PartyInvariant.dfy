/** What holds between any two calls into the party system. */
module PartyInvariant {
  import opened Items
  import opened PartySteps

  /** A player's standing: its party, and whether it leads it. Requests are valid while nobody's standing changes. */
  datatype Standing = Standing(party: int, leads: bool)

  function StandingOf(s: State, p: Actor): Standing {
    Standing(PartyIdOf(s, p), PartyOf(s, p).Some? && PartyOf(s, p).value.leader == p)
  }

  const ALONE := Standing(0, false)

  /** The roles a request was made with. */
  ghost predicate RolesOk(s: State, r: Request) {
    var from, to := StandingOf(s, r.from), StandingOf(s, r.to);
    match r.kind
    case Invite =>
      && to == ALONE && r.from != r.to
      && (from == ALONE || from.leads)
      && (match r.about
          case None => r.origin == r.from
          case Some(m) => r.origin == m && from.leads && StandingOf(s, m) == Standing(from.party, false))
    case Apply => to.leads && from == ALONE && r.origin == r.from && r.about == None
    case Suggest =>
      && to.leads && from == Standing(to.party, false) && r.origin == r.from
      && r.about.Some? && StandingOf(s, r.about.value) == ALONE
  }

  ghost predicate Present(s: State, r: Request) {
    r.origin in s.shown && r.from in s.shown && r.to in s.shown && (r.about.Some? ==> r.about.value in s.shown)
  }

  ghost predicate RequestsOk(s: State) {
    && (forall i :: 0 <= i < |s.requests| ==> Present(s, s.requests[i]) && RolesOk(s, s.requests[i]))
    && OnePerPlayer(s.requests)
  }

  /** Nobody has two requests out, and nobody has two to answer. */
  ghost predicate OnePerPlayer(rs: seq<Request>) {
    forall i, j :: 0 <= i < j < |rs| ==> rs[i].origin != rs[j].origin && rs[i].to != rs[j].to
  }

  ghost predicate MembersOk(s: State, id: int)
    requires id in s.parties
  {
    var q := s.parties[id];
    && q.id == id && 0 < id < s.nextParty
    && |q.members| <= PARTY_MAX_MEMBERS
    && (forall i, j :: 0 <= i < j < |q.members| ==> q.members[i].player != q.members[j].player)
    && (forall i :: 0 <= i < |q.members| ==> PartyIdOf(s, q.members[i].player) == id && q.members[i].player in s.shown)
  }

  ghost predicate PartyOk(s: State, id: int)
    requires id in s.parties
  {
    MembersOk(s, id) && |s.parties[id].members| >= 2 && IsMember(s.parties[id], s.parties[id].leader)
  }

  ghost predicate Belongs(s: State, p: Actor) {
    PartyIdOf(s, p) != 0 ==> PartyIdOf(s, p) in s.parties && IsMember(s.parties[PartyIdOf(s, p)], p)
  }

  function InParties(s: State): set<Actor> { set p | p in s.partyOf && s.partyOf[p] != 0 }

  /** The three counter equations, and what the gauges count. */
  ghost predicate CountersOk(s: State) {
    && s.count.requests == s.count.requestsEnded + s.count.pending && s.count.pending == |s.requests|
    && s.count.created == s.count.ended + s.count.active && s.count.active == |s.parties|
    && s.count.memberAdded == s.count.memberRemoved + s.count.members && s.count.members == |InParties(s)|
  }

  /** The state is in order; party `but`, if any, may be short of members or of its leader. */
  ghost predicate Core(s: State, but: int) {
    && s.nextParty > 0
    && (forall id :: id in s.parties ==> MembersOk(s, id) && (id != but ==> PartyOk(s, id)))
    && (forall p :: Belongs(s, p))
    && RequestsOk(s)
    && CountersOk(s)
  }

  /** What one more event makes of a player's picture of its party. */
  function After(seen: Option<Party>, e: Event, p: Actor): Option<Party> {
    if e.Info? && e.to == p then e.party
    else if e.Row? && e.to == p then WithRow(seen, e.member, e.shown)
    else seen
  }

  /** What the events so far have told a player: the last whole party, with the rows that came after it. */
  function Seen(log: seq<Event>, p: Actor): Option<Party> {
    if log == [] then None else After(Seen(log[..|log| - 1], p), log[|log| - 1], p)
  }

  function WithRow(party: Option<Party>, member: Actor, shown: Shown): Option<Party> {
    match party
    case None => None
    case Some(q) => Some(q.(members := RowSet(q.members, member, shown)))
  }

  function RowSet(members: seq<Member>, p: Actor, shown: Shown): seq<Member> {
    seq(|members|, i requires 0 <= i < |members| => if members[i].player == p then Member(p, shown) else members[i])
  }

  /** Everybody in the game, except the members of party `but` and except `gone`, sees its party as it is. */
  ghost predicate SeenOk(s: State, but: int, gone: Option<Actor>) {
    forall p ::
          p in s.shown && gone != Some(p) && (but == 0 || PartyIdOf(s, p) != but) ==> Seen(s.log, p) == PartyOf(s, p)
  }

  ghost predicate Inv(s: State) { Core(s, 0) && SeenOk(s, 0, None) }

  /** Events were only added, none of them to `p`. */
  ghost predicate NothingTo(s: State, v: State, p: Option<Actor>) {
    s.log <= v.log && (p.Some? ==> forall i :: |s.log| <= i < |v.log| ==> v.log[i].to != p.value)
  }

  // ----- events that change nobody's view

  ghost predicate Quiet(s: State, v: State, skip: Option<Actor>) {
    && v == s.(requests := v.requests, nextRequest := v.nextRequest, count := v.count, log := v.log)
    && v.count == s.count.(requests := v.count.requests, requestsEnded := v.count.requestsEnded,
                           pending := v.count.pending)
    && NothingTo(s, v, skip)
    && (forall p :: Seen(v.log, p) == Seen(s.log, p))
  }

  lemma QuietTrans(s: State, u: State, v: State, skip: Option<Actor>)
    requires Quiet(s, u, skip) && Quiet(u, v, skip)
    ensures Quiet(s, v, skip)
  {
    hide Seen;
    if skip.Some? {
      forall i | |s.log| <= i < |v.log| ensures v.log[i].to != skip.value {
        if i < |u.log| { assert v.log[i] == u.log[i]; }
      }
    }
  }

  lemma SeenSnoc(log: seq<Event>, e: Event, p: Actor)
    ensures Seen(log + [e], p) == After(Seen(log, p), e, p)
  {
    assert (log + [e])[..|log|] == log;
  }

  lemma SayQuiet(s: State, e: Event, skip: Option<Actor>)
    requires !e.Info? && !e.Row? && skip != Some(e.to)
    ensures Quiet(s, Say(s, e), skip)
  {
    forall p ensures Seen(s.log + [e], p) == Seen(s.log, p) { SeenSnoc(s.log, e, p); }
  }

  lemma SelfQuiet(s: State, skip: Option<Actor>)
    ensures Quiet(s, s, skip)
  {
  }

  lemma {:induction false} TellAllQuiet(s: State, to: seq<Member>, code: Notice, actor: Actor, skip: Option<Actor>)
    requires skip.Some? ==> forall i :: 0 <= i < |to| ==> to[i].player != skip.value
    ensures Quiet(s, TellAll(s, to, code, actor), skip)
    ensures TellAll(s, to, code, actor) == s.(log := TellAll(s, to, code, actor).log)
    decreases |to|
  {
    hide Quiet;
    if to == [] {
      SelfQuiet(s, skip);
    } else {
      var u := Tell(s, to[0].player, code, actor);
      SayQuiet(s, NoticeEvent(to[0].player, code, actor), skip);
      TellAllQuiet(u, to[1..], code, actor, skip);
      QuietTrans(s, u, TellAll(u, to[1..], code, actor), skip);
    }
  }

  // ----- cancelling

  lemma TakenQuiet(s: State, i: nat, skip: Option<Actor>)
    requires i < |s.requests|
    ensures Quiet(s, TakeRequest(s, i), skip)
  {
  }

  lemma SayUnlessQuiet(s: State, e: Event, skip: Option<Actor>)
    requires !e.Info? && !e.Row?
    ensures Quiet(s, SayUnless(s, e, skip), skip)
    ensures SayUnless(s, e, skip) == s.(log := SayUnless(s, e, skip).log)
  {
    hide Quiet;
    if skip == Some(e.to) { SelfQuiet(s, skip); } else { SayQuiet(s, e, skip); }
  }

  lemma ToldQuiet(s: State, gone: Request, changed: Actor, skip: Option<Actor>)
    ensures Quiet(s, TellCancelled(s, gone, changed, skip), skip)
    ensures TellCancelled(s, gone, changed, skip) == s.(log := TellCancelled(s, gone, changed, skip).log)
  {
    hide Quiet, SayUnless;
    var s1 := SayUnless(s, AskEnd(gone.to, gone.id, Cancelled), skip);
    SayUnlessQuiet(s, AskEnd(gone.to, gone.id, Cancelled), skip);
    var s2 := if gone.origin != gone.to then SayUnless(s1, NoticeEvent(gone.origin, Cancelled, changed), skip) else s1;
    SayUnlessQuiet(s1, NoticeEvent(gone.origin, Cancelled, changed), skip);
    if gone.origin != gone.to { QuietTrans(s, s1, s2, skip); }
    SayUnlessQuiet(s2, NoticeEvent(gone.from, Cancelled, changed), skip);
    QuietTrans(s, s2, SayUnless(s2, NoticeEvent(gone.from, Cancelled, changed), skip), skip);
  }

  function Others(rs: seq<Request>, p: Actor): seq<Request> {
    if rs == [] then []
    else if Involves(rs[0], p) then Others(rs[1..], p) else [rs[0]] + Others(rs[1..], p)
  }

  lemma {:induction false} OthersConcat(x: seq<Request>, y: seq<Request>, p: Actor)
    ensures Others(x + y, p) == Others(x, p) + Others(y, p)
  {
    if x == [] {
      assert x + y == y;
    } else {
      OthersConcat(x[1..], y, p);
      assert (x + y)[1..] == x[1..] + y;
    }
  }

  lemma {:induction false} OthersAre(rs: seq<Request>, p: Actor)
    ensures forall r :: r in Others(rs, p) <==> r in rs && !Involves(r, p)
    ensures |Others(rs, p)| <= |rs|
    ensures OnePerPlayer(rs) ==> OnePerPlayer(Others(rs, p))
  {
    if rs != [] {
      var rest := Others(rs[1..], p);
      OthersAre(rs[1..], p);
      assert rs == [rs[0]] + rs[1..];
      if OnePerPlayer(rs) {
        assert OnePerPlayer(rs[1..]) by {
          forall i, j | 0 <= i < j < |rs[1..]|
              ensures rs[1..][i].origin != rs[1..][j].origin && rs[1..][i].to != rs[1..][j].to {
            assert rs[1..][i] == rs[i + 1] && rs[1..][j] == rs[j + 1];
          }
        }
        forall r | r in rest ensures r.origin != rs[0].origin && r.to != rs[0].to {
          assert r in rs[1..];
          var k :| 0 <= k < |rs[1..]| && rs[1..][k] == r;
          assert rs[k + 1] == r;
        }
      }
    }
  }

  /** Exactly the requests that name the player are gone, the counters keep up, and `skip` hears nothing. */
  lemma {:induction false} CancelFromIs(s: State, i: nat, changed: Actor, skip: Option<Actor>)
    requires i <= |s.requests| && forall j :: 0 <= j < i ==> !Involves(s.requests[j], changed)
    ensures var v := CancelFrom(s, i, changed, skip);
            && Quiet(s, v, skip) && v.requests == Others(s.requests, changed) && v.nextRequest == s.nextRequest
            && v.count.requests == s.count.requests
            && v.count.requestsEnded - s.count.requestsEnded == |s.requests| - |v.requests|
            && v.count.pending - s.count.pending == |v.requests| - |s.requests|
    decreases |s.requests| - i
  {
    hide Quiet, TellCancelled, Involves;
    if i == |s.requests| {
      NoneInvolved(s.requests, changed);
      SelfQuiet(s, skip);
    } else if !Involves(s.requests[i], changed) {
      CancelFromIs(s, i + 1, changed, skip);
    } else {
      var t := TakeRequest(s, i);
      var v := TellCancelled(t, s.requests[i], changed, skip);
      TakenQuiet(s, i, skip);
      ToldQuiet(t, s.requests[i], changed, skip);
      QuietTrans(s, t, v, skip);
      CancelFromIs(v, i, changed, skip);
      QuietTrans(s, v, CancelFrom(v, i, changed, skip), skip);
      OneLess(s.requests, i, changed);
    }
  }

  lemma {:induction false} NoneInvolved(rs: seq<Request>, p: Actor)
    requires forall j :: 0 <= j < |rs| ==> !Involves(rs[j], p)
    ensures Others(rs, p) == rs
  {
    hide Involves;
    if rs != [] { NoneInvolved(rs[1..], p); }
  }

  lemma OneLess(rs: seq<Request>, i: nat, p: Actor)
    requires i < |rs| && Involves(rs[i], p)
    ensures Others(rs[..i] + rs[i + 1..], p) == Others(rs, p)
  {
    hide Involves;
    assert rs == rs[..i] + ([rs[i]] + rs[i + 1..]);
    OthersConcat(rs[..i], rs[i + 1..], p);
    OthersConcat(rs[..i], [rs[i]] + rs[i + 1..], p);
    assert ([rs[i]] + rs[i + 1..])[1..] == rs[i + 1..];
  }
}
