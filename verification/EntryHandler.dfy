/** Entering the game: the table of sessions that are connected but not in the game yet, its two gauges, and the
    eviction of an older session of the same account.

    A session number is a slot index and a generation; only the whole number names a session. */
module Entry {
  import opened Items

  type Account = int

  datatype Session = Session(index: nat, generation: nat)

  datatype EnterState = Waiting | Loading

  datatype Pending = Pending(session: Option<Session>, account: Account, actor: int, state: EnterState)

  datatype InGame = InGame(session: Session, account: Account)

  datatype Outcome = Ignored | OutOfRange | Refused | Promoted

  datatype LoadCode = Found | NotFound | Failed

  const EMPTY_SLOT := Pending(None, 0, 0, Waiting)

  /** Chosen account numbers start here; automatic ones are character numbers and stay below. */
  const ACCOUNT_ID_MIN: int := 0x8000_0000

  // ----- the gauges

  function Is(x: Pending, state: EnterState): nat { if x.session.Some? && x.state == state then 1 else 0 }

  function CountOf(slots: seq<Pending>, state: EnterState): nat {
    if slots == [] then 0 else Is(slots[0], state) + CountOf(slots[1..], state)
  }

  lemma {:induction false} CountSet(slots: seq<Pending>, i: nat, x: Pending, state: EnterState)
    requires i < |slots|
    ensures CountOf(slots[i := x], state) == CountOf(slots, state) - Is(slots[i], state) + Is(x, state)
  {
    if i == 0 {
      assert slots[0 := x][1..] == slots[1..];
    } else {
      CountSet(slots[1..], i - 1, x, state);
      assert slots[i := x][1..] == slots[1..][i - 1 := x];
    }
  }

  lemma {:induction false} CountNone(slots: seq<Pending>, state: EnterState)
    requires forall i :: 0 <= i < |slots| ==> slots[i] == EMPTY_SLOT
    ensures CountOf(slots, state) == 0
  {
    if slots != [] { CountNone(slots[1..], state); }
  }

  // ----- who holds an account

  /** Slot `i` holds account `a`: its session is loading it or playing it. */
  predicate Loads(slots: seq<Pending>, i: nat, a: Account) {
    i < |slots| && slots[i].session.Some? && slots[i].state == Loading && slots[i].account == a
  }

  predicate Plays(hub: seq<Option<InGame>>, i: nat, a: Account) {
    i < |hub| && hub[i].Some? && hub[i].value.account == a
  }

  /** Every account is loading or playing in one slot at most, and not in both ways. */
  ghost predicate OneSessionEach(slots: seq<Pending>, hub: seq<Option<InGame>>) {
    && (forall i, j, a :: Loads(slots, i, a) && Loads(slots, j, a) ==> i == j)
    && (forall i, j, a :: Plays(hub, i, a) && Plays(hub, j, a) ==> i == j)
    && (forall i, j, a :: !(Loads(slots, i, a) && Plays(hub, j, a)))
  }

  predicate KnownAccount(a: Account, nextActor: nat) { 0 < a < nextActor || a >= ACCOUNT_ID_MIN }

  ghost predicate AccountsOk(slots: seq<Pending>, hub: seq<Option<InGame>>, nextActor: nat) {
    && (forall i, a :: Loads(slots, i, a) ==> KnownAccount(a, nextActor))
    && (forall i, a :: Plays(hub, i, a) ==> KnownAccount(a, nextActor))
  }

  /** A session has one place: a slot of its own index in the table, or in the hub, or none. */
  ghost predicate PlacesOk(slots: seq<Pending>, hub: seq<Option<InGame>>, used: set<Session>) {
    && |slots| == |hub|
    && (forall i :: 0 <= i < |slots| && slots[i].session.Some? ==>
          && slots[i].session.value.index == i && slots[i].session.value in used
          && hub[i] == None)
    && (forall i :: 0 <= i < |hub| && hub[i].Some? ==> hub[i].value.session.index == i && hub[i].value.session in used)
  }

  /** A load that is still out was asked for by a session that is loading that account, or is gone. */
  ghost predicate AskedOk(slots: seq<Pending>, hub: seq<Option<InGame>>, asked: map<Session, Account>,
                          used: set<Session>) {
    && (forall s :: s in asked ==>
          && s in used && s.index < |slots|
          && (slots[s.index].session == Some(s) ==> Loads(slots, s.index, asked[s]))
          && (s.index < |hub| && hub[s.index].Some? ==> hub[s.index].value.session != s))
    && (forall i ::
          0 <= i < |slots| && slots[i].session.Some? && slots[i].state == Loading ==> slots[i].session.value in asked)
  }

  /** Session `t` loads account `a` or plays it. */
  ghost predicate Holds(slots: seq<Pending>, hub: seq<Option<InGame>>, t: Session, a: Account) {
    || (exists i: nat :: Loads(slots, i, a) && slots[i].session.value == t)
    || (exists i: nat :: Plays(hub, i, a) && hub[i].value.session == t)
  }

  /** Exactly whoever loaded or played account `a` is out of its slot; those and no others, which is one at most, are
      `gone`. */
  ghost predicate Evicted(slots: seq<Pending>, hub: seq<Option<InGame>>, slots': seq<Pending>,
                          hub': seq<Option<InGame>>, a: Account, gone: seq<Session>) {
    && |slots'| == |slots| && |hub'| == |hub|
    && (forall i :: 0 <= i < |slots| ==> slots'[i] == if Loads(slots, i, a) then EMPTY_SLOT else slots[i])
    && (forall i :: 0 <= i < |hub| ==> hub'[i] == if Plays(hub, i, a) then None else hub[i])
    && |gone| <= 1 && forall t :: t in gone <==> Holds(slots, hub, t, a)
  }

  /** What an enter request does to the others: whoever held the wanted account is evicted if the request gets that far.
      Those are asked to be disconnected, and after them `s` itself if it is turned away, and nobody else. */
  ghost predicate Answered(slots: seq<Pending>, hub: seq<Option<InGame>>, slots': seq<Pending>,
                           hub': seq<Option<InGame>>, s: Session, wanted: Account, outcome: Outcome,
                               more: seq<Session>) {
    && (outcome == OutOfRange || outcome == Refused ==> more != [] && more[|more| - 1] == s)
    && var gone := if outcome == OutOfRange || outcome == Refused then more[..|more| - 1] else more;
       if wanted != 0 && (outcome == Refused || outcome == Promoted)
       then Evicted(slots, hub, slots', hub', wanted, gone)
       else slots' == slots && hub' == hub && gone == []
  }

  lemma AnsweredSo(slots: seq<Pending>, hub: seq<Option<InGame>>, slots': seq<Pending>, hub': seq<Option<InGame>>,
                   s: Session, wanted: Account, outcome: Outcome, gone: seq<Session>)
    requires wanted != 0 && (outcome == Refused || outcome == Promoted) ==>
               Evicted(slots, hub, slots', hub', wanted, gone)
    requires wanted == 0 || !(outcome == Refused || outcome == Promoted) ==>
               slots' == slots && hub' == hub && gone == []
    ensures var more := gone + (if outcome == OutOfRange || outcome == Refused then [s] else []);
            Answered(slots, hub, slots', hub', s, wanted, outcome, more)
  {
    hide Evicted;
    assert (gone + [s])[..|gone|] == gone && gone + [] == gone;
  }

  lemma NotEvicted(slots: seq<Pending>, hub: seq<Option<InGame>>, slots': seq<Pending>, hub': seq<Option<InGame>>,
                   a: Account, gone: seq<Session>, i: nat)
    requires Evicted(slots, hub, slots', hub', a, gone) && i < |slots| && slots[i].state == Waiting
    ensures i < |slots'| && slots'[i] == slots[i]
  {
  }

  class EntryHandler {
    const pending: array<Pending>
    const hub: array<Option<InGame>>
    var loadingCount: int
    var waitingCount: int
    var nextActor: nat
    var disconnects: seq<Session>           // sessions asked to be disconnected, in order
    ghost var asked: map<Session, Account>  // loads that have not come back
    ghost var used: set<Session>            // session numbers seen so far

    ghost predicate Valid()
      reads this, pending, hub
    {
      && pending != hub as object
      && PlacesOk(pending[..], hub[..], used)
      && OneSessionEach(pending[..], hub[..])
      && AccountsOk(pending[..], hub[..], nextActor)
      && AskedOk(pending[..], hub[..], asked, used)
      && loadingCount == CountOf(pending[..], Loading) && waitingCount == CountOf(pending[..], Waiting)
      && nextActor > 0
    }

    constructor (maxClients: nat)
      ensures Valid() && fresh(pending) && fresh(hub)
      ensures pending.Length == maxClients
              && forall i :: 0 <= i < maxClients ==> pending[i] == EMPTY_SLOT && hub[i] == None
    {
      pending := new Pending[maxClients](i => EMPTY_SLOT);
      hub := new Option<InGame>[maxClients](i => None);
      loadingCount, waitingCount, nextActor, disconnects := 0, 0, 1, [];
      asked, used := map[], {};
      new;
      CountNone(pending[..], Loading);
      CountNone(pending[..], Waiting);
    }

    // ----- the three places that change the table, and its gauges

    method AdjustPendingCount(state: EnterState, delta: int)
      modifies this`loadingCount, this`waitingCount
      ensures loadingCount == old(loadingCount) + (if state == Loading then delta else 0)
      ensures waitingCount == old(waitingCount) + (if state == Waiting then delta else 0)
    {
      if state == Loading {
        loadingCount := loadingCount + delta;
      } else {
        waitingCount := waitingCount + delta;
      }
    }

    ghost predicate GaugesOk()
      reads this, pending
    {
      loadingCount == CountOf(pending[..], Loading) && waitingCount == CountOf(pending[..], Waiting)
    }

    method SetPendingEnter(s: Session, account: Account, actor: int, state: EnterState)
      requires s.index < pending.Length && GaugesOk()
      modifies pending, this`loadingCount, this`waitingCount
      ensures GaugesOk() && pending[..] == old(pending[..])[s.index := Pending(Some(s), account, actor, state)]
    {
      ghost var before := pending[..];
      var i := s.index;
      if pending[i].session.Some? {
        AdjustPendingCount(pending[i].state, -1);
      }
      CountSet(before, i, Pending(Some(s), account, actor, state), Loading);
      CountSet(before, i, Pending(Some(s), account, actor, state), Waiting);
      pending[i] := Pending(Some(s), account, actor, state);
      AdjustPendingCount(state, 1);
      assert pending[..] == before[i := pending[i]];
    }

    method PromotePendingEnter(s: Session, account: Account, actor: int) returns (promoted: bool)
      requires s.index < pending.Length && GaugesOk()
      modifies pending, this`loadingCount, this`waitingCount
      ensures GaugesOk()
      ensures promoted == (old(pending[s.index]).session == Some(s) && old(pending[s.index]).state == Waiting)
      ensures pending[..] == if promoted then old(pending[..])[s.index := Pending(Some(s), account, actor, Loading)]
              else old(pending[..])
    {
      ghost var before := pending[..];
      var i := s.index;
      if pending[i].session != Some(s) || pending[i].state != Waiting {
        return false;
      }
      AdjustPendingCount(Waiting, -1);
      CountSet(before, i, Pending(Some(s), account, actor, Loading), Loading);
      CountSet(before, i, Pending(Some(s), account, actor, Loading), Waiting);
      pending[i] := pending[i].(account := account, actor := actor, state := Loading);
      AdjustPendingCount(Loading, 1);
      assert pending[..] == before[i := pending[i]];
      return true;
    }

    method TakePendingEnter(s: Session) returns (gone: Option<Pending>)
      requires s.index < pending.Length && GaugesOk()
      modifies pending, this`loadingCount, this`waitingCount
      ensures GaugesOk()
      ensures gone == if old(pending[s.index]).session == Some(s) then Some(old(pending[s.index])) else None
      ensures pending[..] == if gone.Some? then old(pending[..])[s.index := EMPTY_SLOT] else old(pending[..])
    {
      ghost var before := pending[..];
      var i := s.index;
      if pending[i].session != Some(s) {
        return None;
      }
      gone := Some(pending[i]);
      AdjustPendingCount(pending[i].state, -1);
      CountSet(before, i, EMPTY_SLOT, Loading);
      CountSet(before, i, EMPTY_SLOT, Waiting);
      pending[i] := EMPTY_SLOT;
      assert pending[..] == before[i := EMPTY_SLOT];
    }

    // ----- connecting and disconnecting

    /** The network numbers every connection anew, and reports a slot's disconnect before its next connect. */
    method OnConnected(s: Session)
      requires Valid() && s.index < pending.Length && s !in used
      requires hub[s.index] == None
      modifies this, pending
      ensures Valid()
      ensures pending[..] == old(pending[..])[s.index := Pending(Some(s), 0, 0, Waiting)] && hub[..] == old(hub[..])
      ensures used == old(used) + {s} && asked == old(asked)
      ensures nextActor == old(nextActor) && disconnects == old(disconnects)
    {
      ghost var before := pending[..];
      SetPendingEnter(s, 0, 0, Waiting);
      used := used + {s};
      WaitingKeeps(before, hub[..], s, nextActor, asked, used - {s});
    }

    method OnDisconnected(s: Session)
      requires Valid() && s.index < pending.Length
      modifies this, pending, hub
      ensures Valid()
      ensures pending[s.index].session != Some(s) && (hub[s.index].Some? ==> hub[s.index].value.session != s)
      ensures forall i :: 0 <= i < pending.Length ==>
                && (old(pending[i]).session != Some(s) ==> pending[i] == old(pending[i]))
                && (old(pending[i]).session == Some(s) ==> pending[i] == EMPTY_SLOT)
      ensures forall i :: 0 <= i < hub.Length ==>
                hub[i] == if old(hub[i]).Some? && old(hub[i]).value.session == s then None else old(hub[i])
      ensures used == old(used) && asked == old(asked) && nextActor == old(nextActor) && disconnects == old(disconnects)
    {
      ghost var before, players := pending[..], hub[..];
      var _ := TakePendingEnter(s);
      ClearedKeeps(before, players, s.index, nextActor, asked, used);
      if hub[s.index].Some? && hub[s.index].value.session == s {
        hub[s.index] := None;
        assert hub[..] == players[s.index := None];
        GoneKeeps(pending[..], players, s.index, nextActor, asked, used);
      }
    }

    // ----- entering

    /** Whoever else has the account leaves: the player in the game after its final save, or the one still loading. */
    method KickDuplicateAccount(a: Account, except: Session)
      requires Valid() && except.index < pending.Length
      requires pending[except.index].session == Some(except) && pending[except.index].state == Waiting
      modifies pending, hub, this`loadingCount, this`waitingCount, this`disconnects
      ensures Valid()
      ensures forall i: nat :: !Loads(pending[..], i, a) && !Plays(hub[..], i, a)
      ensures old(disconnects) <= disconnects
      ensures Evicted(old(pending[..]), old(hub[..]), pending[..], hub[..], a, disconnects[|old(disconnects)|..])
    {
      KickPlaying(a, except);
      KickLoading(a, except);
    }

    method KickPlaying(a: Account, except: Session)
      requires Valid() && except.index < pending.Length && pending[except.index].session == Some(except)
      modifies hub, this`disconnects
      ensures Valid()
      ensures forall i: nat :: !Plays(hub[..], i, a)
      ensures forall i :: 0 <= i < hub.Length ==> hub[i] == if Plays(old(hub[..]), i, a) then None else old(hub[i])
      ensures forall i: nat :: Plays(old(hub[..]), i, a) ==>
                disconnects == old(disconnects) + [old(hub[..])[i].value.session]
      ensures (forall i: nat :: !Plays(old(hub[..]), i, a)) ==> disconnects == old(disconnects)
    {
      ghost var players := hub[..];
      var i := 0;
      while i < hub.Length
        invariant 0 <= i <= hub.Length
        invariant forall j :: 0 <= j < i ==> !Plays(players, j, a)
      {
        if hub[i].Some? && hub[i].value.account == a && hub[i].value.session != except {
          assert Plays(players, i, a);
          disconnects := disconnects + [hub[i].value.session];
          hub[i] := None;
          assert hub[..] == players[i := None];
          GoneKeeps(pending[..], players, i, nextActor, asked, used);
          forall j: nat ensures !Plays(hub[..], j, a) { assert Plays(hub[..], j, a) ==> Plays(players, j, a); }
          return;
        }
        i := i + 1;
      }
    }

    method KickLoading(a: Account, except: Session)
      requires Valid() && except.index < pending.Length
      requires pending[except.index].session == Some(except) && pending[except.index].state == Waiting
      modifies pending, this`loadingCount, this`waitingCount, this`disconnects
      ensures Valid()
      ensures forall i: nat :: !Loads(pending[..], i, a)
      ensures forall i :: 0 <= i < pending.Length ==>
                pending[i] == if Loads(old(pending[..]), i, a) then EMPTY_SLOT else old(pending[i])
      ensures forall i: nat :: Loads(old(pending[..]), i, a) ==>
                disconnects == old(disconnects) + [old(pending[..])[i].session.value]
      ensures (forall i: nat :: !Loads(old(pending[..]), i, a)) ==> disconnects == old(disconnects)
    {
      ghost var before := pending[..];
      var i := 0;
      while i < pending.Length
        invariant 0 <= i <= pending.Length
        invariant forall j :: 0 <= j < i ==> !Loads(before, j, a)
      {
        var slot := pending[i];
        if slot.session.Some? && slot.state == Loading && slot.account == a && slot.session != Some(except) {
          assert Loads(before, i, a);
          var old' := slot.session.value;
          var _ := TakePendingEnter(old');
          ClearedKeeps(before, hub[..], i, nextActor, asked, used);
          disconnects := disconnects + [old'];
          return;
        }
        i := i + 1;
      }
    }

    /** C2S_ENTER_GAME: `wanted` is the account number the client sent, or 0; `room` is whether the load is queued.
        Character numbers come from a 32-bit counter, so they stay below the chosen account numbers. */
    method RecvEnterGame(s: Session, wanted: Account, room: bool) returns (outcome: Outcome)
      requires Valid() && s.index < pending.Length && nextActor < ACCOUNT_ID_MIN
      requires s in used
      modifies this, pending, hub
      ensures Valid()
      ensures outcome ==
                if old(pending[s.index]).session != Some(s) || old(pending[s.index]).state != Waiting then Ignored
                else if wanted != 0 && wanted < ACCOUNT_ID_MIN then OutOfRange
                else if !room then Refused else Promoted
      ensures var account := if wanted != 0 then wanted else old(nextActor);
              && pending[s.index] == (if outcome == Promoted then Pending(Some(s), account, old(nextActor), Loading)
                                      else if outcome == Ignored then old(pending[s.index]) else EMPTY_SLOT)
              && asked == (if outcome == Promoted then old(asked)[s := account] else old(asked))
      ensures nextActor == old(nextActor) + (if outcome == Promoted || outcome == Refused then 1 else 0)
      ensures used == old(used) && old(disconnects) <= disconnects
      ensures Answered(old(pending[..]), old(hub[..]), pending[..][s.index := old(pending[s.index])], hub[..], s,
                       wanted,
                       outcome, disconnects[|old(disconnects)|..])
    {
      hide Answered;
      if pending[s.index].session != Some(s) || pending[s.index].state != Waiting {
        assert pending[..][s.index := pending[s.index]] == pending[..];
        assert disconnects[|disconnects|..] == [] + [];
        AnsweredSo(pending[..], hub[..], pending[..], hub[..], s, wanted, Ignored, []);
        return Ignored;
      }
      hide Evicted, PlacesOk, OneSessionEach, AccountsOk, AskedOk, CountOf, Loads, Plays;
      if wanted != 0 && wanted < ACCOUNT_ID_MIN {
        ghost var slots := pending[..];
        DropAndDisconnect(s);
        assert pending[..][s.index := slots[s.index]] == slots;
        assert disconnects[|disconnects| - 1..] == [] + [s];
        AnsweredSo(slots, hub[..], slots, hub[..], s, wanted, OutOfRange, []);
        return OutOfRange;
      }
      var actor := nextActor;
      nextActor := nextActor + 1;
      MoreActors(pending[..], hub[..], actor);
      var account := if wanted != 0 then wanted else actor;
      ghost var slots, players, before := pending[..], hub[..], |disconnects|;
      if wanted != 0 {
        KickDuplicateAccount(account, s);
        NotEvicted(slots, players, pending[..], hub[..], account, disconnects[before..], s.index);
      }
      ghost var evicted, gone := pending[..], disconnects[before..];
      if !room {
        DropAndDisconnect(s);
        assert pending[..][s.index := slots[s.index]] == evicted;
        assert disconnects[before..] == gone + [s];
        AnsweredSo(slots, players, evicted, hub[..], s, wanted, Refused, gone);
        return Refused;
      }
      NotHeld(evicted, hub[..], account, actor, wanted);
      Ask(s, account, actor);
      assert pending[..][s.index := slots[s.index]] == evicted;
      assert disconnects[before..] == gone + [];
      AnsweredSo(slots, players, evicted, hub[..], s, wanted, Promoted, gone);
      return Promoted;
    }

    /** The load is queued: the session, which still waits, is promoted. */
    method Ask(s: Session, account: Account, actor: int)
      requires Valid() && s.index < pending.Length && s in used && KnownAccount(account, nextActor)
      requires pending[s.index].session == Some(s) && pending[s.index].state == Waiting
      requires forall i: nat :: !Loads(pending[..], i, account) && !Plays(hub[..], i, account)
      modifies pending, this`loadingCount, this`waitingCount, this`asked
      ensures Valid() && asked == old(asked)[s := account]
      ensures pending[..] == old(pending[..])[s.index := Pending(Some(s), account, actor, Loading)]
    {
      hide PlacesOk, OneSessionEach, AccountsOk, AskedOk, CountOf, Loads, Plays;
      ghost var before, out := pending[..], asked;
      NotAsked(before, hub[..], s, asked, used);
      asked := asked[s := account];
      assert asked - {s} == out;
      var promoted := PromotePendingEnter(s, account, actor);
      assert promoted;
      PromotedKeeps(before, hub[..], s, account, actor, nextActor, asked, used);
    }

    method DropAndDisconnect(s: Session)
      requires Valid() && s.index < pending.Length && pending[s.index].session == Some(s)
      modifies pending, this`loadingCount, this`waitingCount, this`disconnects
      ensures Valid() && pending[..] == old(pending[..])[s.index := EMPTY_SLOT] && disconnects == old(disconnects) + [s]
    {
      ghost var before := pending[..];
      var _ := TakePendingEnter(s);
      ClearedKeeps(before, hub[..], s.index, nextActor, asked, used);
      disconnects := disconnects + [s];
    }

    /** A load comes back: to its session, if it is still waiting for it, or to nobody. A failed load never lets the
        player in. */
    method OnCharacterLoaded(s: Session, code: LoadCode, zoneFound: bool) returns (spawned: Option<InGame>)
      requires Valid() && s in asked
      modifies this, pending, hub
      ensures Valid()
      ensures spawned.Some? <==> old(pending[s.index]).session == Some(s) && code != Failed && zoneFound
      ensures spawned.Some? ==> spawned.value == InGame(s, old(asked)[s]) && hub[s.index] == spawned
      ensures hub[..] == if spawned.Some? then old(hub[..])[s.index := spawned] else old(hub[..])
      ensures pending[..] == if old(pending[s.index]).session == Some(s) then old(pending[..])[s.index := EMPTY_SLOT]
              else old(pending[..])
      ensures asked == old(asked) - {s} && used == old(used) && nextActor == old(nextActor)
      ensures disconnects == old(disconnects) + if spawned.None? && old(pending[s.index]).session == Some(s) then [s]
              else []
    {
      assert hub.Length == pending.Length;
      hide OneSessionEach, AccountsOk, CountOf, PlacesOk;
      ghost var before, players := pending[..], hub[..];
      ghost var account := asked[s];
      assert s.index < pending.Length && (pending[s.index].session == Some(s) ==> pending[s.index].account == account);
      hide AskedOk, Loads;
      var taken := TakePendingEnter(s);
      ClearedKeeps(before, players, s.index, nextActor, asked, used);
      asked := asked - {s};
      AnsweredKeeps(pending[..], players, s, asked, used, account);
      if taken.None? {
        return None;
      }
      if code == Failed || !zoneFound {
        disconnects := disconnects + [s];
        return None;
      }
      hub[s.index] := Some(InGame(s, taken.value.account));
      assert hub[..] == players[s.index := Some(InGame(s, taken.value.account))];
      SpawnedKeeps(before, players, s, taken.value.account, nextActor, asked, used);
      return hub[s.index];
    }
  }

  // ----- what each change keeps

  ghost predicate TablesOk(slots: seq<Pending>, hub: seq<Option<InGame>>, nextActor: nat, asked: map<Session, Account>,
                           used: set<Session>) {
    PlacesOk(slots, hub, used) && OneSessionEach(slots, hub) && AccountsOk(slots, hub, nextActor)
        && AskedOk(slots, hub, asked, used)
  }

  lemma WaitingKeeps(slots: seq<Pending>, hub: seq<Option<InGame>>, s: Session, nextActor: nat,
                     asked: map<Session, Account>, used: set<Session>)
    requires TablesOk(slots, hub, nextActor, asked, used) && s.index < |slots| && s !in used && hub[s.index] == None
    ensures TablesOk(slots[s.index := Pending(Some(s), 0, 0, Waiting)], hub, nextActor, asked, used + {s})
  {
    var v := slots[s.index := Pending(Some(s), 0, 0, Waiting)];
    assert forall i: nat, a :: Loads(v, i, a) ==> Loads(slots, i, a);
  }

  lemma ClearedKeeps(slots: seq<Pending>, hub: seq<Option<InGame>>, i: nat, nextActor: nat,
                     asked: map<Session, Account>, used: set<Session>)
    requires TablesOk(slots, hub, nextActor, asked, used) && i < |slots|
    ensures TablesOk(slots[i := EMPTY_SLOT], hub, nextActor, asked, used)
  {
    var v := slots[i := EMPTY_SLOT];
    assert forall j: nat, a :: Loads(v, j, a) ==> Loads(slots, j, a);
  }

  lemma GoneKeeps(slots: seq<Pending>, hub: seq<Option<InGame>>, i: nat, nextActor: nat, asked: map<Session, Account>,
                  used: set<Session>)
    requires TablesOk(slots, hub, nextActor, asked, used) && i < |hub|
    ensures TablesOk(slots, hub[i := None], nextActor, asked, used)
  {
    var v := hub[i := None];
    assert forall j: nat, a :: Plays(v, j, a) ==> Plays(hub, j, a);
  }

  lemma MoreActors(slots: seq<Pending>, hub: seq<Option<InGame>>, n: nat)
    requires AccountsOk(slots, hub, n)
    ensures AccountsOk(slots, hub, n + 1)
  {
  }

  /** An automatic number is new, and a chosen one has just been freed. */
  lemma NotHeld(slots: seq<Pending>, hub: seq<Option<InGame>>, account: Account, actor: nat, wanted: Account)
    requires 0 < actor < ACCOUNT_ID_MIN && account == (if wanted != 0 then wanted else actor)
    requires wanted != 0 ==> forall i: nat :: !Loads(slots, i, account) && !Plays(hub, i, account)
    requires wanted == 0 ==> AccountsOk(slots, hub, actor)
    ensures forall i: nat :: !Loads(slots, i, account) && !Plays(hub, i, account)
  {
    if wanted == 0 {
      forall i: nat ensures !Loads(slots, i, account) && !Plays(hub, i, account) {
        assert !KnownAccount(account, actor);
      }
    }
  }

  lemma NotAsked(slots: seq<Pending>, hub: seq<Option<InGame>>, s: Session, asked: map<Session, Account>,
                 used: set<Session>)
    requires AskedOk(slots, hub, asked, used) && s.index < |slots| && slots[s.index].session == Some(s)
             && slots[s.index].state == Waiting
    ensures s !in asked
  {
  }

  lemma PromotedKeeps(slots: seq<Pending>, hub: seq<Option<InGame>>, s: Session, account: Account, actor: int,
                      nextActor: nat, asked: map<Session, Account>, used: set<Session>)
    requires s in asked && asked[s] == account && s in used
    requires TablesOk(slots, hub, nextActor, asked - {s}, used) && s.index < |slots|
             && slots[s.index].session == Some(s)
    requires KnownAccount(account, nextActor)
    requires forall i: nat :: !Loads(slots, i, account) && !Plays(hub, i, account)
    ensures TablesOk(slots[s.index := Pending(Some(s), account, actor, Loading)], hub, nextActor, asked, used)
  {
    var v := slots[s.index := Pending(Some(s), account, actor, Loading)];
    assert forall j: nat, a :: Loads(v, j, a) ==> (j == s.index && a == account) || Loads(slots, j, a);
    assert Loads(v, s.index, account);
  }

  lemma AnsweredKeeps(slots: seq<Pending>, hub: seq<Option<InGame>>, s: Session, asked: map<Session, Account>,
                      used: set<Session>, account: Account)
    requires AskedOk(slots, hub, asked[s := account], used) && s !in asked && s.index < |slots|
             && slots[s.index].session != Some(s)
    requires forall i :: 0 <= i < |slots| && slots[i].session.Some? ==> slots[i].session.value.index == i
    ensures AskedOk(slots, hub, asked, used)
  {
  }

  lemma SpawnedKeeps(slots: seq<Pending>, hub: seq<Option<InGame>>, s: Session, account: Account, nextActor: nat,
                     asked: map<Session, Account>, used: set<Session>)
    requires PlacesOk(slots, hub, used) && OneSessionEach(slots, hub) && AccountsOk(slots, hub, nextActor)
    requires s.index < |slots| && AskedOk(slots[s.index := EMPTY_SLOT], hub, asked, used) && s !in asked
    requires slots[s.index].session == Some(s) && Loads(slots, s.index, account) && hub[s.index] == None
    ensures TablesOk(slots[s.index := EMPTY_SLOT], hub[s.index := Some(InGame(s, account))], nextActor, asked, used)
  {
    var v, h := slots[s.index := EMPTY_SLOT], hub[s.index := Some(InGame(s, account))];
    assert forall j: nat, a :: Loads(v, j, a) ==> j != s.index && Loads(slots, j, a);
    assert forall j: nat, a :: Plays(h, j, a) ==> (j == s.index && a == account) || Plays(hub, j, a);
  }
}
