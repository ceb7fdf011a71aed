/** The entry handler and the saving side by side: whom the handler lets in, the save protocol admits. */
module SaveEntries {
  import opened Items
  import opened Seqs
  import opened SaveTypes
  import opened SaveSteps
  import opened SaveViews
  import opened SaveReplies
  import opened SaveArrivals
  import opened SaveRuns
  import E = Entry

  /** The number the network gives to a session. No two sessions have the same, and none has the number that stands for
      a player who has left. */
  ghost predicate Numbers(number: E.Session -> Session) {
    && (forall s, t :: number(s) == number(t) ==> s == t)
    && forall s :: number(s) != LEFT
  }

  predicate InTable(slots: seq<E.Pending>, s: E.Session) {
    s.index < |slots| && slots[s.index].session == Some(s)
  }

  /** The hub's players are the handler's and the world's alike; who has been in the game was a session of the handler,
      and is not in its table again. */
  ghost predicate Joined(number: E.Session -> Session, slots: seq<E.Pending>, hub: seq<Option<E.InGame>>,
                         used: set<E.Session>, w: World) {
    && (forall a :: a in w.owner ==> exists i: nat :: E.Plays(hub, i, a))
    && (forall i: nat, a :: E.Plays(hub, i, a) ==> a in w.owner && IsPlayer(w, number(hub[i].value.session), a))
    && forall s :: number(s) in w.used ==> s in used && !InTable(slots, s)
  }

  predicate IsPlayer(w: World, s: Session, a: Account) { s in w.players && w.players[s].account == a }

  /** At the start. */
  lemma StartJoined(number: E.Session -> Session, slots: seq<E.Pending>, hub: seq<Option<E.InGame>>,
                    used: set<E.Session>, w: World)
    requires Initial(w) && forall i :: 0 <= i < |hub| ==> hub[i] == None
    ensures Joined(number, slots, hub, used, w)
  {
  }

  // ----- who enters

  /** A load that is handed on to the session that asked for it, still in its slot: the save protocol admits the
      entry. */
  lemma EntryIsAdmitted(number: E.Session -> Session, slots: seq<E.Pending>, hub: seq<Option<E.InGame>>, nextActor: nat,
                        asked: map<E.Session, Account>, used: set<E.Session>, w: World, s: E.Session, r: LoadResult)
    requires Numbers(number) && E.TablesOk(slots, hub, nextActor, asked, used) && Joined(number, slots, hub, used, w)
    requires s in asked && InTable(slots, s) && r.session == number(s) && r.account == asked[s] && HandsOn(w, r)
    ensures Admits(w, r)
  {
    assert E.Loads(slots, s.index, asked[s]);
    assert forall i: nat :: !E.Plays(hub, i, asked[s]);
  }

  /** The entry itself, on both sides. */
  lemma EntryJoins(number: E.Session -> Session, slots: seq<E.Pending>, hub: seq<Option<E.InGame>>, nextActor: nat,
                   asked: map<E.Session, Account>, used: set<E.Session>, w: World, s: E.Session, place: Place,
                       values: Values,
                   saved: Values, dirty: bool)
    requires Numbers(number) && E.TablesOk(slots, hub, nextActor, asked, used) && Joined(number, slots, hub, used, w)
    requires w.loads != [] && s in asked && InTable(slots, s) && w.loads[0].session == number(s)
             && w.loads[0].account == asked[s]
    requires HandsOn(w, w.loads[0])
    ensures Enabled(w, HandOn(true, place, values, saved, dirty))
    ensures Joined(number, slots[s.index := E.EMPTY_SLOT], hub[s.index := Some(E.InGame(s, asked[s]))], used,
                   Step(w, HandOn(true, place, values, saved, dirty)))
  {
    var r := w.loads[0];
    EntryIsAdmitted(number, slots, hub, nextActor, asked, used, w, s, r);
    hide Admits, E.TablesOk, E.Plays, Joined, HandsOn;
    var v := HandedOn(w, true, place, values, saved, dirty);
    assert v.owner == w.owner[r.account := r.session] && v.used == w.used + {r.session}
      && v.players == w.players[r.session := v.players[r.session]] && v.players[r.session].account == r.account by {
      hide SpawnedPlayer, EnteredHist, ComesBack, Stored;
      assert SpawnedPlayer(w.(loads := w.loads[1..]), r, place, values, saved, dirty).account == r.account by {
        SpawnedFor(w, r, place, values, saved, dirty);
      }
    }
    PutInHub(number, slots, hub, nextActor, asked, used, w, v, s);
  }

  lemma SpawnedFor(w: World, r: LoadResult, place: Place, values: Values, saved: Values, dirty: bool)
    requires w.loads != []
    ensures SpawnedPlayer(w.(loads := w.loads[1..]), r, place, values, saved, dirty).account == r.account
  {
    hide ReadMoney, ReadBag;
  }

  lemma PutInHub(number: E.Session -> Session, slots: seq<E.Pending>, hub: seq<Option<E.InGame>>, nextActor: nat,
                 asked: map<E.Session, Account>, used: set<E.Session>, w: World, v: World, s: E.Session)
    requires Numbers(number) && E.TablesOk(slots, hub, nextActor, asked, used) && Joined(number, slots, hub, used, w)
    requires s in asked && InTable(slots, s)
    requires v.owner == w.owner[asked[s] := number(s)] && v.used == w.used + {number(s)}
    requires number(s) in v.players && v.players == w.players[number(s) := v.players[number(s)]]
             && v.players[number(s)].account == asked[s]
    ensures Joined(number, slots[s.index := E.EMPTY_SLOT], hub[s.index := Some(E.InGame(s, asked[s]))], used, v)
  {
    var after, a := hub[s.index := Some(E.InGame(s, asked[s]))], asked[s];
    assert E.Plays(after, s.index, a);
    forall b | b in v.owner ensures exists i: nat :: E.Plays(after, i, b) {
      if b != a {
        var i: nat :| E.Plays(hub, i, b);
        assert E.Plays(after, i, b);
      }
    }
    forall i: nat, b | E.Plays(after, i, b) ensures b in v.owner && IsPlayer(v, number(after[i].value.session), b) {
      if i != s.index {
        assert E.Plays(hub, i, b);
        assert after[i].value.session != s;
      }
    }
  }

  // ----- who leaves, and who comes

  /** A departure, on both sides. */
  lemma LeaveJoins(number: E.Session -> Session, slots: seq<E.Pending>, hub: seq<Option<E.InGame>>, nextActor: nat,
                   asked: map<E.Session, Account>, used: set<E.Session>, w: World, i: nat, a: Account)
    requires Numbers(number) && E.TablesOk(slots, hub, nextActor, asked, used) && Joined(number, slots, hub, used, w)
    requires E.Plays(hub, i, a)
    ensures Enabled(w, Depart(number(hub[i].value.session)))
    ensures Joined(number, slots, hub[i := None], used, Step(w, Depart(number(hub[i].value.session))))
  {
    var n := number(hub[i].value.session);
    assert IsPlayer(w, n, a);
    LeftIs(w, n);
    var after, v := hub[i := None], Leave(w, n);
    assert v.owner == w.owner - {a} && v.used == w.used;
    hide Leave;
    forall b | b in v.owner ensures exists j: nat :: E.Plays(after, j, b) {
      var j: nat :| E.Plays(hub, j, b);
      assert E.Plays(after, j, b);
    }
    forall j: nat, b | E.Plays(after, j, b) ensures b in v.owner && IsPlayer(v, number(after[j].value.session), b) {
      assert E.Plays(hub, j, b);
      assert number(after[j].value.session) != n;
    }
  }

  lemma LeftIs(w: World, s: Session)
    requires s in w.players
    ensures var v := Leave(w, s);
            && v.owner == w.owner - {w.players[s].account} && v.used == w.used && v.players == w.players - {s}
            && v.queueMax == w.queueMax
            && v.pairs == if w.players[s].flight.paired then Detach(w.pairs, w.players[s].account) else w.pairs
  {
    hide SendLeaveRecord, Detach, LastRecord, Emptied;
    if !w.players[s].flight.paired { RecordKeepsHub(Departed(w, s), w.players[s].account); }
  }

  /** A new session in the table, which no one has had before. */
  lemma ConnectJoins(number: E.Session -> Session, slots: seq<E.Pending>, hub: seq<Option<E.InGame>>,
                     used: set<E.Session>, w: World, s: E.Session, x: E.Pending)
    requires Numbers(number) && Joined(number, slots, hub, used, w) && s !in used && s.index < |slots|
             && x.session == Some(s)
    ensures Joined(number, slots[s.index := x], hub, used + {s}, w)
  {
  }

  /** Slots promoted or emptied. */
  lemma SlotsJoin(number: E.Session -> Session, slots: seq<E.Pending>, slots': seq<E.Pending>,
                  hub: seq<Option<E.InGame>>, used: set<E.Session>, w: World)
    requires Joined(number, slots, hub, used, w) && |slots'| == |slots|
    requires forall i :: 0 <= i < |slots| ==> slots'[i].session == slots[i].session || slots'[i].session == None
    ensures Joined(number, slots', hub, used, w)
  {
  }

  // ----- everything else the program does

  /** No pair is in flight. */
  predicate Idle(pairs: seq<PairLink>) { forall i :: 0 <= i < |pairs| ==> !pairs[i].inFlight }

  /** The same players are in the game; and queues too short for a pair have not taken one. */
  ghost predicate Steady(w: World, v: World) {
    && v.queueMax == w.queueMax && (w.queueMax < 2 && Idle(w.pairs) ==> Idle(v.pairs))
    && v.owner == w.owner && v.used == w.used && v.players.Keys == w.players.Keys
    && forall s :: s in w.players ==> v.players[s].account == w.players[s].account
  }

  /** No other step of the save protocol touches who is in the game. */
  lemma OtherStepsJoin(number: E.Session -> Session, slots: seq<E.Pending>, hub: seq<Option<E.InGame>>,
                       used: set<E.Session>, w: World, act: Action)
    requires Joined(number, slots, hub, used, w) && Enabled(w, act) && !act.Depart? && !(act.HandOn? && act.enter)
    ensures Joined(number, slots, hub, used, Step(w, act))
  {
    hide Enabled, Step;
    OtherKeepsHub(w, act);
    var v := Step(w, act);
    forall i: nat, a | E.Plays(hub, i, a) ensures a in v.owner && IsPlayer(v, number(hub[i].value.session), a) {
      assert IsPlayer(w, number(hub[i].value.session), a);
    }
  }

  lemma SteadyTrans(w: World, u: World, v: World)
    requires Steady(w, u) && Steady(u, v)
    ensures Steady(w, v)
  {
  }

  lemma OnePlayer(w: World, v: World, s: Session, p: Player)
    requires s in w.players && p.account == w.players[s].account && v.owner == w.owner && v.used == w.used
    requires v.players == w.players[s := p] && v.pairs == w.pairs && v.queueMax == w.queueMax
    ensures Steady(w, v)
  {
  }

  lemma SameAccount(p: Player, n: nat)
    ensures Committed(Prepared(p), n).account == p.account && Aborted(Prepared(p)).account == p.account
  {
  }

  lemma PushKeepsHub(w: World, x: Write)
    ensures var v := PushSave(w, x);
            && v.owner == w.owner && v.used == w.used && v.players == w.players && v.pairs == w.pairs
                 && v.queueMax == w.queueMax
  {
    hide Bump, Route, Issued;
  }

  lemma SendKeepsHub(w: World, s: Session)
    requires s in w.players
    ensures Steady(w, SendBundle(w, s))
  {
    hide SaveFits, BundleOf, Prepared, Committed, Aborted, PushSave, Top, Steady;
    var p := w.players[s];
    var x := BundleOf(p, s, None, Top(w, p.account));
    SameAccount(p, x.bundleNo);
    PushKeepsHub(w, x);
    Same(w, w);
    OnePlayer(w, w.(players := w.players[s := p.(flight := p.flight.(again := true))]), s,
              p.(flight := p.flight.(again := true)));
    OnePlayer(w, w.(players := w.players[s := Aborted(Prepared(p))]), s, Aborted(Prepared(p)));
    var v := PushSave(w, x).(players := w.players[s := Committed(Prepared(p), x.bundleNo)], inflight := w.inflight + 1);
    OnePlayer(w, v, s, Committed(Prepared(p), x.bundleNo));
  }

  lemma AskKeepsHub(w: World, s: Session)
    requires s in w.players
    ensures Steady(w, RequestSave(w, s))
  {
  }

  lemma RecordKeepsHub(w: World, a: Account)
    requires a in w.leave
    ensures var v := SendLeaveRecord(w, a);
            && v.owner == w.owner && v.used == w.used && v.players == w.players && v.pairs == w.pairs
                 && v.queueMax == w.queueMax
    ensures Steady(w, SendLeaveRecord(w, a))
  {
    hide LeaveWrite, SaveFits, NextNo;
  }

  lemma SideKeepsHub(w: World, sd: Side)
    requires SideReady(w, sd)
    ensures Steady(w, Flown(w, sd)) && Steady(w, Dropped(w, sd))
    ensures Flown(w, sd).pairs == w.pairs && Dropped(w, sd).pairs == w.pairs
  {
    hide NextNo, Prepared, Committed, Aborted, Steady;
    if sd.session != LEFT {
      var p := w.players[sd.session];
      SameAccount(p, p.flight.nextNo);
      OnePlayer(w, Flown(w, sd), sd.session, Committed(Prepared(p), p.flight.nextNo));
      OnePlayer(w, Dropped(w, sd), sd.session, Aborted(Prepared(p)));
    } else {
      Same(w, Flown(w, sd));
      Same(w, Dropped(w, sd));
    }
  }

  lemma TooShort(w: World, x: Write, y: Write)
    requires PairFits(w, x, y)
    ensures w.queueMax >= 2
  {
  }

  lemma PairKeepsHub(w: World, i: nat)
    requires i < |w.pairs| && TwoSided(w.pairs[i])
    ensures Steady(w, SendPair(w, i))
  {
    hide PairFits, HeadOf, Flown, Dropped, FlownLink, SideReady, PushPair, Steady;
    var l := w.pairs[i];
    var d0, d1 := l.sides[0], l.sides[1];
    Same(w, w);
    if SideReady(w, d0) {
      var f, g := Flown(w, d0), Dropped(w, d0);
      SideKeepsHub(w, d0);
      if SideReady(f, d1) {
        SideKeepsHub(f, d1);
        SteadyTrans(w, f, Flown(f, d1));
        var x, y := HeadOf(w, d0, d1.account), HeadOf(f, d1, d0.account);
        if PairFits(w, x, y) {
          TooShort(w, x, y);
          PushedSteady(w, Flown(f, d1), x, y, w.pairs[i := FlownLink(l, x.bundleNo, y.bundleNo)]);
        } else if SideReady(g, d1) {
          SideKeepsHub(g, d1);
          SteadyTrans(w, g, Dropped(g, d1));
          LinksSteady(w, Dropped(g, d1), w.pairs[i := l.(inFlight := false)]);
        }
      }
    }
  }

  lemma PushedSteady(w: World, v: World, x: Write, y: Write, pairs: seq<PairLink>)
    requires Steady(w, v) && w.queueMax >= 2
    ensures Steady(w, PushPair(v, x, y).(pairs := pairs))
  {
    hide Bump, RouteOf, Issued;
  }

  lemma LinksSteady(w: World, v: World, pairs: seq<PairLink>)
    requires Steady(w, v) && (Idle(w.pairs) ==> Idle(pairs))
    ensures Steady(w, v.(pairs := pairs))
  {
  }

  lemma SwapKeepsHub(w: World, s: Session, t: Session, p: Player, q: Player)
    requires s in w.players && t in w.players && s != t && p.account == w.players[s].account
             && q.account == w.players[t].account
    ensures Steady(w, SaveTrade(Swapped(w, s, t, p, q), s, t))
  {
    hide SendPair, SaveTrade, HistOf, Top;
    var u := Swapped(w, s, t, p, q);
    TradeIs(u, s, t);
    PairKeepsHub(Tied(u, s, t), |u.pairs|);
  }

  lemma ReplyKeepsHub(w: World, r: Reply)
    ensures Steady(w, OnSaveReply(w, r))
  {
    hide ForLive, ForRecord, RequestSave, Aborted;
    if r.session != LEFT && ForLive(w, r) { LiveReplyKeepsHub(w, r); }
  }

  lemma LandedAccount(p: Player, r: Reply)
    ensures LandedOk(p).account == p.account && LandedFailed(p, r).account == p.account
  {
  }

  lemma LiveReplyKeepsHub(w: World, r: Reply)
    requires r.session != LEFT && ForLive(w, r)
    ensures Steady(w, OnSaveReply(w, r))
  {
    hide RequestSave, LandedOk, LandedFailed, Steady;
    var p := w.players[r.session];
    var v := w.(inflight := w.inflight - 1,
                players := w.players[r.session := if r.ok then LandedOk(p) else LandedFailed(p, r)]);
    LandedAccount(p, r);
    OnePlayer(w, v, r.session, if r.ok then LandedOk(p) else LandedFailed(p, r));
    AskKeepsHub(v, r.session);
    SteadyTrans(w, v, RequestSave(v, r.session));
  }

  lemma LetGo(w: World, s: Session)
    requires s in w.players
    ensures var p := w.players[s];
            Steady(w, RequestSave(w.(players := w.players[s := p.(flight := p.flight.(paired := false))]), s))
  {
    hide RequestSave, Steady, Idle;
    var p := w.players[s];
    var q := p.(flight := p.flight.(paired := false));
    var v := w.(players := w.players[s := q]);
    OnePlayer(w, v, s, q);
    AskKeepsHub(v, s);
    SteadyTrans(w, v, RequestSave(v, s));
  }

  lemma RecordLetGo(w: World, a: Account)
    requires a in w.leave
    ensures var v := w.(leave := w.leave[a := w.leave[a].(paired := false)]);
            Steady(w, v) && Steady(w, SendLeaveRecord(v, a))
  {
    hide SendLeaveRecord, Steady, Idle;
    var v := w.(leave := w.leave[a := w.leave[a].(paired := false)]);
    Same(w, v);
    RecordKeepsHub(v, a);
    SteadyTrans(w, v, SendLeaveRecord(v, a));
  }

  lemma ReleaseKeepsHub(w: World, sd: Side)
    ensures Steady(w, ReleasePairSide(w, sd))
  {
    hide SendLeaveRecord, RequestSave, Steady, Idle;
    Same(w, w);
    if sd.session != LEFT {
      if sd.session in w.players && w.players[sd.session].account == sd.account { LetGo(w, sd.session); }
    } else if sd.account in w.leave && w.leave[sd.account].paired {
      RecordLetGo(w, sd.account);
    }
  }

  lemma BothKeepHub(w: World, rest: seq<PairLink>, d0: Side, d1: Side)
    requires Idle(w.pairs) ==> Idle(rest)
    ensures Steady(w, ReleasePairSide(ReleasePairSide(w.(pairs := rest), d0), d1))
  {
    hide ReleasePairSide, Steady;
    var v := w.(pairs := rest);
    Same(w, v);
    ReleaseKeepsHub(v, d0);
    ReleaseKeepsHub(ReleasePairSide(v, d0), d1);
    SteadyTrans(w, v, ReleasePairSide(v, d0));
    SteadyTrans(w, ReleasePairSide(v, d0), ReleasePairSide(ReleasePairSide(v, d0), d1));
  }

  lemma NotIdle(pairs: seq<PairLink>, i: nat)
    requires i < |pairs| && pairs[i].inFlight
    ensures !Idle(pairs)
  {
  }

  /** A reply to a pair in flight is noted on its link, or both sides are released. */
  lemma PairReplyIs(w: World, r: Reply) returns (noted: seq<PairLink>, rest: seq<PairLink>, d0: Side, d1: Side)
    ensures OnPairReply(w, r) != w ==> !Idle(w.pairs)
    ensures OnPairReply(w, r) == w || OnPairReply(w, r) == w.(pairs := noted)
            || OnPairReply(w, r) == ReleasePairSide(ReleasePairSide(w.(pairs := rest), d0), d1)
  {
    hide ReleasePairSide, FindPair, Without, Idle;
    var i := FindPair(w.pairs, r.account);
    noted, rest, d0, d1 := w.pairs, w.pairs, Side(0, 0, 0, false, 0), Side(0, 0, 0, false, 0);
    if i < |w.pairs| && TwoSided(w.pairs[i]) && w.pairs[i].inFlight {
      NotIdle(w.pairs, i);
      var l := w.pairs[i];
      var k := SideOf(l, r.account);
      var m := l.(sides := l.sides[k := l.sides[k].(replied := true)], ok := l.ok && r.ok);
      noted := w.pairs[i := if l.sides[1 - k].replied then m.(inFlight := false) else m];
      rest, d0, d1 := Without(w.pairs, i), m.sides[0], m.sides[1];
    }
  }

  lemma PairReplyKeepsHub(w: World, r: Reply)
    ensures Steady(w, OnPairReply(w, r))
  {
    hide OnPairReply, ReleasePairSide, Steady, Idle;
    var noted, rest, d0, d1 := PairReplyIs(w, r);
    Same(w, w);
    if OnPairReply(w, r) != w {
      LinksSteady(w, w, noted);
      BothKeepHub(w, rest, d0, d1);
    }
  }

  lemma AnswerKeepsHub(w: World)
    requires w.replies != []
    ensures Steady(w, HandleReply(w))
  {
    hide OnSaveReply, OnPairReply;
    var r, u := w.replies[0], w.(replies := w.replies[1..]);
    ReplyKeepsHub(u, r);
    PairReplyKeepsHub(OnSaveReply(u, r), r);
  }

  lemma EndTickKeepsHub(w: World)
    requires w.tickEnd != []
    ensures Steady(w, EndTickOne(w))
  {
    hide SendBundle, ShouldSave;
    var s, v := w.tickEnd[0], w.(tickEnd := w.tickEnd[1..]);
    if s in v.players {
      var u := v.(players := v.players[s := Unlisted(v.players[s])]);
      OnePlayer(w, u, s, Unlisted(v.players[s]));
      SendKeepsHub(u, s);
    }
  }

  lemma LoadKeepsHub(w: World, s: Session, a: Account)
    ensures Steady(w, RequestLoad(w, s, a))
  {
    hide SendLeaveRecord, FindPair, Issued;
    if a in w.leave { RecordKeepsHub(w, a); }
  }

  lemma WorkKeepsHub(w: World, k: nat, commit: bool, ok: bool)
    requires k < |w.jobs|
    ensures Steady(w, Execute(w, k, commit, ok))
  {
    hide Reads, Answers, Without, StoreJob, Steady;
    StoreKeepsHub(w, w.jobs[k]);
    Same(w, Execute(w, k, commit, ok));
  }

  lemma StoreKeepsHub(w: World, j: Job)
    ensures var v := StoreJob(w, j);
            && v.owner == w.owner && v.used == w.used && v.players == w.players && v.pairs == w.pairs
                 && v.queueMax == w.queueMax
  {
    hide Upsert, DbOf;
  }

  lemma OtherKeepsHub(w: World, act: Action)
    requires Enabled(w, act) && !act.Depart? && !(act.HandOn? && act.enter)
    ensures Steady(w, Step(w, act))
  {
    hide Steady, SendBundle, RequestSave, EndTickOne, SendLeaveRecord, SendPair, SaveTrade, Swapped, RequestLoad, Fetch,
         Execute, HandleReply, HistOf, SnapOf, CanSaveTradeNow, ShouldSave, Admits, GoodBag, GoodMoney, Marked;
    match act
    case Play(s, p) => OnePlayer(w, Played(w, s, p), s, p);
    case Ask(s) => AskKeepsHub(w, s);
    case EndTick => EndTickKeepsHub(w);
    case Period(s) => SendKeepsHub(w, s); Same(w, w);
    case Retry(a) => RecordKeepsHub(w, a);
    case RetryPair(i) => PairKeepsHub(w, i);
    case Swap(s, t, p, q) => SwapKeepsHub(w, s, t, p, q);
    case AskLoad(s, a) => LoadKeepsHub(w, s, a);
    case ReadFirst(k) => FetchKeepsHub(w, k);
    case Work(k, commit, ok) => WorkKeepsHub(w, k, commit, ok);
    case Take(k) => Same(w, TakeOver(w, k));
    case Reorder(i) => Same(w, Slip(w, i));
    case Answer => AnswerKeepsHub(w);
    case HandOn(enter, _, _, _, _) => Same(w, w.(loads := w.loads[1..]));
    case Depart(s) => assert false;
  }

  lemma FetchKeepsHub(w: World, k: nat)
    requires k < |w.jobs| && w.jobs[k].Load?
    ensures Steady(w, Fetch(w, k))
  {
    hide RowNow;
  }

  lemma Same(w: World, v: World)
    requires v.owner == w.owner && v.used == w.used && v.players == w.players && v.queueMax == w.queueMax
    requires w.queueMax < 2 && Idle(w.pairs) ==> Idle(v.pairs)
    ensures Steady(w, v)
  {
  }
}
