/** The party rules as functions on their state: parties, the table of pending requests, and what has been sent. */
module PartySteps {
  import opened Items

  type Actor = int

  const PARTY_MAX_MEMBERS: nat := 8
  const FRAME_PER_SEC: nat := 25
  const ASK_TIMEOUT_FRAMES: nat := 30 * FRAME_PER_SEC
  const MEMBER_SCAN_FRAMES: nat := FRAME_PER_SEC / 2
  const REQUEST_ID_MAX: nat := 0xFFFF_FFFF

  datatype AskKind = Invite | Apply | Suggest

  datatype Notice = NoTarget | Self | SelfBusy | SameParty | BothInParty | Full | TargetBusy | SentInvite | SentSuggest
      | SentApply
                  | NoRequest | Declined | Joined | NotInParty | NotLeader | NotMember | Kicked | Left | NewLeader
                      | Disbanded
                  | Expired | Cancelled

  /** What other members see of a member: the values last sent. */
  datatype Shown = Shown(hp: int, maxHp: int, level: int, mapId: int)

  const NOT_SENT := Shown(0, 0, 0, -1)

  datatype Member = Member(player: Actor, sent: Shown)

  datatype Party = Party(id: int, leader: Actor, members: seq<Member>)

  datatype Request = Request(id: nat, kind: AskKind, origin: Actor, from: Actor, to: Actor, about: Option<Actor>,
                             expireFrame: nat)

  datatype Event =
    | AskEvent(to: Actor, id: nat, kind: AskKind, from: Actor, about: Option<Actor>)
    | AskEnd(to: Actor, id: nat, why: Notice)
    | NoticeEvent(to: Actor, code: Notice, actor: Actor)
    | Info(to: Actor, party: Option<Party>)
    | Row(to: Actor, member: Actor, shown: Shown)

  datatype Counters = Counters(requests: nat, requestsEnded: nat, pending: int, created: nat, ended: nat, active: int,
                               memberAdded: nat, memberRemoved: nat, members: int)

  datatype State = State(
    shown: map<Actor, Shown>,        // everybody in the game, with the values others may see
    partyOf: map<Actor, int>,
    parties: map<int, Party>,
    requests: seq<Request>,
    nextParty: int, nextRequest: nat, lastScan: nat,
    count: Counters,
    log: seq<Event>)

  // ----- looking

  function PartyIdOf(s: State, p: Actor): int { if p in s.partyOf then s.partyOf[p] else 0 }

  function PartyOf(s: State, p: Actor): Option<Party> {
    if PartyIdOf(s, p) != 0 && PartyIdOf(s, p) in s.parties then Some(s.parties[PartyIdOf(s, p)]) else None
  }

  predicate IsMember(party: Party, p: Actor) { exists i :: 0 <= i < |party.members| && party.members[i].player == p }

  predicate HasReceived(s: State, p: Actor) { exists i :: 0 <= i < |s.requests| && s.requests[i].to == p }

  predicate HasSent(s: State, p: Actor) { exists i :: 0 <= i < |s.requests| && s.requests[i].origin == p }

  function ShownOf(s: State, p: Actor): Shown { if p in s.shown then s.shown[p] else NOT_SENT }

  // ----- sending

  function Say(s: State, e: Event): State { s.(log := s.log + [e]) }

  function Tell(s: State, to: Actor, code: Notice, actor: Actor): State { Say(s, NoticeEvent(to, code, actor)) }

  /** The same line to each of them in turn. */
  function TellAll(s: State, to: seq<Member>, code: Notice, actor: Actor): State
    decreases |to|
  {
    if to == [] then s else TellAll(Tell(s, to[0].player, code, actor), to[1..], code, actor)
  }

  function NextRequest(n: nat): nat { if n >= REQUEST_ID_MAX then 1 else n + 1 }

  function AskFor(s: State, to: Actor, kind: AskKind, origin: Actor, from: Actor, about: Option<Actor>,
                  frame: nat): State {
    Say(s.(requests := s.requests + [Request(s.nextRequest, kind, origin, from, to, about, frame + ASK_TIMEOUT_FRAMES)],
           nextRequest := NextRequest(s.nextRequest),
           count := s.count.(requests := s.count.requests + 1, pending := s.count.pending + 1)),
        AskEvent(to, s.nextRequest, kind, from, about))
  }

  function TakeRequest(s: State, i: nat): State
    requires i < |s.requests|
  {
    s.(requests := s.requests[..i] + s.requests[i + 1..],
       count := s.count.(requestsEnded := s.count.requestsEnded + 1, pending := s.count.pending - 1))
  }

  // ----- requests of somebody whose standing has changed

  predicate Involves(r: Request, p: Actor) { r.origin == p || r.from == p || r.to == p || r.about == Some(p) }

  function SayUnless(s: State, e: Event, skip: Option<Actor>): State { if skip == Some(e.to) then s else Say(s, e) }

  /** The receiver's window closes; the sender and the maker are told, each once. */
  function TellCancelled(s: State, gone: Request, changed: Actor, skip: Option<Actor>): State {
    var s1 := SayUnless(s, AskEnd(gone.to, gone.id, Cancelled), skip);
    var s2 := if gone.origin != gone.to then SayUnless(s1, NoticeEvent(gone.origin, Cancelled, changed), skip) else s1;
    if gone.from != gone.origin && gone.from != gone.to
       then SayUnless(s2, NoticeEvent(gone.from, Cancelled, changed), skip) else s2
  }

  function CancelFrom(s: State, i: nat, changed: Actor, skip: Option<Actor>): State
    decreases |s.requests| - i
  {
    if i >= |s.requests| then s
    else if !Involves(s.requests[i], changed) then CancelFrom(s, i + 1, changed, skip)
    else
      var v := TellCancelled(TakeRequest(s, i), s.requests[i], changed, skip);
      assert |v.requests| == |s.requests| - 1;
      CancelFrom(v, i, changed, skip)
  }

  function CancelRequestsOf(s: State, changed: Actor, skip: Option<Actor>): State { CancelFrom(s, 0, changed, skip) }

  // ----- asking

  function Ask(s: State, me: Actor, target: Option<Actor>, frame: nat): State {
    if target == None then Tell(s, me, NoTarget, 0)
    else
      var t := target.value;
      if t == me then Tell(s, me, Self, me)
      else if HasSent(s, me) then Tell(s, me, SelfBusy, 0)
      else
        var mine, theirs := PartyOf(s, me), PartyOf(s, t);
        if mine.Some? && theirs.Some? then
          Tell(s, me, if PartyIdOf(s, me) == PartyIdOf(s, t) then SameParty else BothInParty, t)
        else if mine.Some? && |mine.value.members| >= PARTY_MAX_MEMBERS then Tell(s, me, Full, t)
        else if theirs.Some? && |theirs.value.members| >= PARTY_MAX_MEMBERS then Tell(s, me, Full, t)
        else if mine.None? && theirs.None? then Put(s, t, Invite, me, None, SentInvite, frame)
        else if mine.Some? then
          if mine.value.leader == me then Put(s, t, Invite, me, None, SentInvite, frame)
          else Put(s, mine.value.leader, Suggest, me, Some(t), SentSuggest, frame)
        else Put(s, theirs.value.leader, Apply, me, None, SentApply, frame)
  }

  function Put(s: State, to: Actor, kind: AskKind, me: Actor, about: Option<Actor>, sent: Notice, frame: nat): State {
    if HasReceived(s, to) then Tell(s, me, TargetBusy, to)
    else Tell(AskFor(s, to, kind, me, me, about, frame), me, sent, to)
  }

  // ----- answering

  /** The first request with this number that waits for this player. */
  function FindRequest(rs: seq<Request>, id: nat, to: Actor): (i: nat)
    ensures i <= |rs|
    ensures i < |rs| ==> rs[i].id == id && rs[i].to == to
  {
    if rs == [] then 0 else if rs[0].id == id && rs[0].to == to then 0 else FindRequest(rs[1..], id, to) + 1
  }

  function Answer(s: State, me: Actor, id: nat, accept: bool, frame: nat): State {
    var i := FindRequest(s.requests, id, me);
    if i == |s.requests| then Tell(s, me, NoRequest, 0)
    else
      var r := s.requests[i];
      var v := TakeRequest(s, i);
      if !accept then
        var d := Tell(v, r.from, Declined, me);
        if r.origin != r.from then Tell(d, r.origin, Declined, me) else d
      else Accept(v, me, r, frame)
  }

  function Accept(s: State, me: Actor, r: Request, frame: nat): State {
    match r.kind
    case Invite =>
      var party := PartyOf(s, r.from);
      if party.None? then Create(s, r.from, me)
      else if |party.value.members| >= PARTY_MAX_MEMBERS then
        var f := Tell(Tell(s, me, Full, r.from), r.from, Full, me);
        if r.origin != r.from then Tell(f, r.origin, Full, me) else f
      else Join(s, party.value.id, me)
    case Apply =>
      var party := PartyOf(s, me);
      if party.None? then s
      else if |party.value.members| >= PARTY_MAX_MEMBERS then Tell(Tell(s, me, Full, r.from), r.from, Full, me)
      else Join(s, party.value.id, r.from)
    case Suggest =>
      var party := PartyOf(s, me);
      if party.None? || r.about.None? then s
      else
        var about := r.about.value;
        if |party.value.members| >= PARTY_MAX_MEMBERS then Tell(Tell(s, me, Full, about), r.from, Full, about)
        else if HasReceived(s, about) then Tell(Tell(s, me, TargetBusy, about), r.from, TargetBusy, about)
        else
          Tell(Tell(AskFor(s, about, Invite, r.origin, me, Some(r.from), frame), me, SentInvite, about), r.from,
               SentInvite, about)
  }

  // ----- members

  function Refreshed(s: State, members: seq<Member>): seq<Member> {
    seq(|members|, i requires 0 <= i < |members| => Member(members[i].player, ShownOf(s, members[i].player)))
  }

  function InfoAll(s: State, to: seq<Member>, party: Party): State
    decreases |to|
  {
    if to == [] then s else InfoAll(Say(s, Info(to[0].player, Some(party))), to[1..], party)
  }

  /** Everybody's values are brought up to date, then everybody gets the whole party. */
  function BroadcastInfo(s: State, id: int): State
    requires id in s.parties
  {
    var party := s.parties[id].(members := Refreshed(s, s.parties[id].members));
    InfoAll(s.(parties := s.parties[id := party]), party.members, party)
  }

  function Broadcast(s: State, id: int, code: Notice, actor: Actor): State {
    if id in s.parties then TellAll(s, s.parties[id].members, code, actor) else s
  }

  function Create(s: State, leader: Actor, first: Actor): State {
    var v := CancelRequestsOf(CancelRequestsOf(s, leader, None), first, None);
    var id := v.nextParty;
    var u := v.(nextParty := id + 1,
                parties := v.parties[id := Party(id, leader, [Member(leader, NOT_SENT), Member(first, NOT_SENT)])],
                partyOf := v.partyOf[leader := id][first := id],
                count := v.count.(created := v.count.created + 1, active := v.count.active + 1,
                                  memberAdded := v.count.memberAdded + 2, members := v.count.members + 2));
    Broadcast(BroadcastInfo(u, id), id, Joined, first)
  }

  function Join(s: State, id: int, p: Actor): State {
    var v := CancelRequestsOf(s, p, None);
    if id !in v.parties then v
    else
      var u := v.(parties := v.parties[id := v.parties[id].(members := v.parties[id].members + [Member(p, NOT_SENT)])],
                  partyOf := v.partyOf[p := id],
                  count := v.count.(memberAdded := v.count.memberAdded + 1, members := v.count.members + 1));
      Broadcast(BroadcastInfo(u, id), id, Joined, p)
  }

  function IndexOf(members: seq<Member>, p: Actor): (i: nat)
    ensures i <= |members|
    ensures i < |members| ==> members[i].player == p
    ensures forall j :: 0 <= j < i ==> members[j].player != p
  {
    if members == [] then 0 else if members[0].player == p then 0 else IndexOf(members[1..], p) + 1
  }

  function Dropped(members: seq<Member>, p: Actor): seq<Member> {
    var i := IndexOf(members, p);
    if i < |members| then members[..i] + members[i + 1..] else members
  }

  datatype LeaveWhy = Leaving | ByKick | ByDisconnect

  /** The member is out of the list, and told so unless its session is gone. */
  function TakenOut(s: State, id: int, p: Actor, code: Notice, notify: bool): State
    requires id in s.parties
  {
    var v := CancelRequestsOf(s, p, if notify then None else Some(p));
    var party := s.parties[id].(members := Dropped(s.parties[id].members, p));
    var u := v.(parties := v.parties[id := party], partyOf := v.partyOf[p := 0],
                count := v.count.(memberRemoved := v.count.memberRemoved + 1, members := v.count.members - 1));
    if notify then Tell(Say(u, Info(p, None)), p, code, p) else u
  }

  /** After somebody left: one member alone disbands, a missing leader is followed by the next in joining order. */
  function RemoveMember(s: State, id: int, p: Actor, why: LeaveWhy): State
    requires id in s.parties
  {
    var code := if why == ByKick then Kicked else Left;
    var wasLeader := s.parties[id].leader == p;
    var v := TakenOut(s, id, p, code, why != ByDisconnect);
    if id !in v.parties then v
    else if |v.parties[id].members| <= 1 then DisbandParty(v, id)
    else
      var u := if wasLeader then Succeed(v, id) else v;
      if id !in u.parties then u
      else
        var w := Broadcast(BroadcastInfo(u, id), id, code, p);
        if wasLeader && id in w.parties then Broadcast(w, id, NewLeader, w.parties[id].leader) else w
  }

  function Succeed(s: State, id: int): State
    requires id in s.parties && s.parties[id].members != []
  {
    var next := s.parties[id].members[0].player;
    CancelRequestsOf(s.(parties := s.parties[id := s.parties[id].(leader := next)]), next, None)
  }

  function CancelAll(s: State, members: seq<Member>): State
    decreases |members|
  {
    if members == [] then s else CancelAll(CancelRequestsOf(s, members[0].player, None), members[1..])
  }

  function SendAway(s: State, members: seq<Member>): State
    decreases |members|
  {
    if members == [] then s
    else
      var m := members[0].player;
      var v := s.(partyOf := s.partyOf[m := 0],
                  count := s.count.(memberRemoved := s.count.memberRemoved + 1, members := s.count.members - 1));
      SendAway(Tell(Say(v, Info(m, None)), m, Disbanded, 0), members[1..])
  }

  function DisbandParty(s: State, id: int): State
    requires id in s.parties
  {
    var members := s.parties[id].members;
    var v := SendAway(CancelAll(s, members), members);
    v.(parties := v.parties - {id}, count := v.count.(ended := v.count.ended + 1, active := v.count.active - 1))
  }

  function ChangeLeader(s: State, id: int, p: Actor): State
    requires id in s.parties
  {
    var v := CancelRequestsOf(CancelRequestsOf(s, s.parties[id].leader, None), p, None);
    if id !in v.parties then v
    else Broadcast(BroadcastInfo(v.(parties := v.parties[id := v.parties[id].(leader := p)]), id), id, NewLeader, p)
  }

  // ----- what players can do

  function Leave(s: State, me: Actor): State {
    if PartyOf(s, me).None? then Tell(s, me, NotInParty, 0) else RemoveMember(s, PartyIdOf(s, me), me, Leaving)
  }

  /** What a leader may do to another member; otherwise the refusal. */
  function Refusal(s: State, me: Actor, target: Actor): Option<Event> {
    var party := PartyOf(s, me);
    if party.None? then Some(NoticeEvent(me, NotInParty, 0))
    else if party.value.leader != me then Some(NoticeEvent(me, NotLeader, 0))
    else if !IsMember(party.value, target) then Some(NoticeEvent(me, NotMember, target))
    else if target == me then Some(NoticeEvent(me, Self, me))
    else None
  }

  function Kick(s: State, me: Actor, target: Actor): State {
    var no := Refusal(s, me, target);
    if no.Some? then Say(s, no.value)
    else if PartyIdOf(s, me) in s.parties then RemoveMember(s, PartyIdOf(s, me), target, ByKick) else s
  }

  function SetLeader(s: State, me: Actor, target: Actor): State {
    var no := Refusal(s, me, target);
    if no.Some? then Say(s, no.value)
    else if PartyIdOf(s, me) in s.parties then ChangeLeader(s, PartyIdOf(s, me), target) else s
  }

  function Disband(s: State, me: Actor): State {
    var party := PartyOf(s, me);
    if party.None? then Tell(s, me, NotInParty, 0)
    else if party.value.leader != me then Tell(s, me, NotLeader, 0)
    else DisbandParty(s, PartyIdOf(s, me))
  }

  function Forget(s: State, p: Actor): State {
    var v := CancelRequestsOf(s, p, Some(p));
    if PartyOf(v, p).Some? then RemoveMember(v, PartyIdOf(v, p), p, ByDisconnect) else v
  }

  // ----- ticks

  function ExpireFrom(s: State, i: nat, frame: nat): State
    decreases |s.requests| - i
  {
    if i >= |s.requests| then s
    else if frame < s.requests[i].expireFrame then ExpireFrom(s, i + 1, frame)
    else
      var r := s.requests[i];
      var v := Tell(Say(TakeRequest(s, i), AskEnd(r.to, r.id, Expired)), r.origin, Expired, r.to);
      var u := if r.from != r.origin then Tell(v, r.from, Expired, r.to) else v;
      ExpireFrom(u, i, frame)
  }

  function RowAll(s: State, to: seq<Member>, member: Actor, shown: Shown): State
    decreases |to|
  {
    if to == [] then s else RowAll(Say(s, Row(to[0].player, member, shown)), to[1..], member, shown)
  }

  /** The `k`th member's values are compared with what was last sent; if they differ, everybody gets the row. */
  function ScanMember(s: State, id: int, k: nat): State
    requires id in s.parties && k < |s.parties[id].members|
  {
    var party := s.parties[id];
    var m := party.members[k];
    var now := ShownOf(s, m.player);
    if now == m.sent then s
    else RowAll(s.(parties := s.parties[id := party.(members := party.members[k := Member(m.player, now)])]),
                party.members, m.player, now)
  }

  function ScanParty(s: State, id: int, k: nat): State
    decreases if id in s.parties then |s.parties[id].members| - k else 0
  {
    if id in s.parties && k < |s.parties[id].members| then
      var v := ScanMember(s, id, k);
      if id in v.parties && |v.parties[id].members| == |s.parties[id].members| then ScanParty(v, id, k + 1) else v
    else s
  }

  /** `order` is how the table lists its parties. */
  function ScanMembers(s: State, order: seq<int>): State
    decreases |order|
  {
    if order == [] then s else ScanMembers(ScanParty(s, order[0], 0), order[1..])
  }

  function Tick(s: State, frame: nat, order: seq<int>): State {
    var v := ExpireFrom(s, 0, frame);
    if v.parties != map[] && frame - v.lastScan >= MEMBER_SCAN_FRAMES then ScanMembers(v.(lastScan := frame), order)
       else v
  }
}
