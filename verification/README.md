# A verified model of the MMO server's stateful core

Dafny 4.11 models of the parts of the MMO server in which state changes in place over many steps, and proofs of what
they promise. `dafny verify dfyconfig.toml` checks the whole project.

Classes carry the source's own fields and change them in place; their contracts equate the new state with a function of
the old one, or say outright what it is. The theorems are about these functions, over every run.

| area | files | main results |
|---|---|---|
| save protocol | `Save*.dfy`, `DbWorker.dfy`, `CharacterStore.dfy`, `Items.dfy`, `Seqs.dfy` | `SaveTheorems`, `SaveRows`, `SaveHalts`, `SaveProgress`, `SaveAnswers`, `SaveMissing`, `SaveStaleLoad`, `SaveTornLoad`, `SaveTangles` |
| parties | `Party*.dfy` | `PartyRuns`, `PartyOutcomes` |
| entering the game | `EntryHandler.dfy`, `SaveEntries.dfy` | `Entry.EntryHandler`, `SaveEntries.EntryIsAdmitted` |
| bag | `BagRules.dfy`, `Inventory.dfy` | `BagRules.AddedAll`, `BagRules.FitsIffRoom` |
| spawn points | `Monsters.dfy` | `Monsters.RunSound`, `Monsters.RefillsOnTime`, `Monsters.NotBeforeTime` |
| timed effects | `Buffs.dfy` | `Buffs.BuffSystem` |
| zones and channels | `Maps.dfy`, `MapManager.dfy` | `Maps.GetZoneIsFindChannel` |
| cooldown and effect bytes and times | `Blobs.dfy`, `BlobCodec.dfy`, `Timers.dfy`, `EffectTimers.dfy` | `Timers.CooldownsSurviveLogout`, `EffectTimers.EffectsSurviveLogout` |
| movement budget | `Movement.dfy` | `Movement.WindowBound`, `Movement.RestRefills` |
| stream assembly | `Streams.dfy` | `Streams.WebSplitsAgree`, `Streams.ThreadSplitsAgree` |

## How the save protocol is modelled

A `World` holds the players of the hub with their flight records, the leave records, the pair links, the tick-end list,
the queued jobs, the replies and loads that have come back, and the database. `SaveSteps` gives each operation of the
store as a function of the world, `SaveRuns` the steps a run is made of, and `CharacterStore.dfy` the class whose methods
are proved to compute these functions.

- The workers: one queue in arrival order of which each worker takes its own first job, which is one FIFO a worker; a pair
  is one transaction; a good report is never given for a failed transaction, a failed report may hide a commit; queues may
  refuse. A load is two steps, the row and then the bag, and other workers commit in between: no transaction surrounds
  the two selects. Replies of different accounts may come back in either order, the two of a pair included, since each is
  pushed under a lock of its own. These facts are from `DB/DBWorker.cpp`.
- The database is read through the loader: a row that does not fit its slot reads as empty, bad money as 0.
- `hist`, `dbAt`, `issued`, `trades`, `used`, `stale`, a player's `track` and the fields `at`, `alone`, `after`, `hid`,
  `seen`, `rowAt`, `bagAt`, `whole` are history: no step of the program looks at them. `hist` lists the states an account has been in, `dbAt` which of them is
  stored, `track` whether a failed report has hidden a commit and whether the player has stopped without being marked.
- A player enters from any load that is handed on as usable, under a new session number, with its account neither in the
  hub nor a leave record. That is all the program asks for: `ProcessDbResults` looks at leave records, and
  `SaveEntries.EntryIsAdmitted` gets the rest from the entry handler's own invariant.

The theorems start from `Initial` worlds. Two conditions, on which nothing in the program insists, are named where they
are needed:

- a free run (`FreeRun`) is one in which nobody enters while a link still has a side of the account. `SaveLinkedEntry`
  says when such an entry is possible (one reply of a pair handled, the other not) and shows a trade it breaks.
  `SaveTangles.LinkedEntryCanBreakATrade` shows that nothing weaker would do: after any such entry the program can go on
  so that a trade is stored for one account only;
- an account is stale (`stale`) while it last entered with another bag than the stored one; it is stored whole again once
  its player enters with the stored bag. Everything said of trades, rows, histories, links and gauges holds of stale
  accounts as well; what is said of whole bags does not. `SaveStaleLoad` says when an entry is stale and shows an item it
  duplicates. An entry with the stored bag and an older row makes no account stale: it is a state the account is in from
  then on, and what is said of rows holds of it.

`SaveRows`, `SaveStaleLoad`, `SaveTornLoad`, `SaveHalfAnswer` and `SaveLinkedEntry` hold the runs written out step by step.

## Where the code does less than it says

- Loads. `ProcessDbResults` handles all replies of a drain before its loads, so a retry queued behind a load can be
  confirmed in the same drain, and the load, read before it, is handed on (CharacterStore.cpp:908-982).
  `SaveStaleLoad.StaleLoadIsHandedOn` is such a run, `SaveStaleLoad.StaleEntryDuplicates` what can become of it.
- Loads of two parts. `RunLoadOnce` selects the row and then, in `RunInventoryLoad`, the bag (DBWorker.cpp:712-835). A pair
  is written by the worker of its smaller account, so it can be committed between the two, and the load that is handed on
  has the money from before a trade and the items from after it: `SaveTornLoad.TornLoadIsHandedOn`, and
  `SaveTornLoad.TornEntryDuplicates` for the money that is there twice. `SaveTheorems.HandedOnLoadIsFresh` says of row and
  bag separately when they are fresh, and when the two together are a state of the account.
- Entries on a link. The two replies of a pair are pushed under two locks (DBWorker.cpp:369-380), so one drain may see only
  one of them; a player may then enter while a link still has its account.
  `SaveLinkedEntry.LinkedEntryBreaksATrade` is a run in which a trade made by that player is stored for one of its two
  accounts, `SaveTangles.LinkedEntryCanBreakATrade` the proof that every such entry can come to that.
- Shutdown. For that reason a link one of whose sides has been confirmed, record and all, reaches the "side missing"
  branch of `SendPair` while shutting down, and no other link does (`SaveMissing.LinkFindsBoth`). The other side's last
  state is then never written: it is lost, and counted, unless it was stored before (`SaveMissing.OtherSideIsLost`,
  `SaveHalfAnswer.StoppedHalfAnswered`). Nothing is lost uncounted: `SaveHalts.ShutdownLosesNothingUncounted`.
- Failed replies. A failed report may hide a commit, after which the copy in `_dbSaved` and the row differ and `ShouldSave`
  need not notice: `SaveRows.HiddenCommitIsMissed`. `SaveRows.RowIsCovered` says what the row is after that, and
  `SaveRows.NotSavedIsStored` when a player who is not to be saved is stored as it is.
- Stopping unmarked. Death stops a player without marking its place (CombatSystem.cpp:282, Combat.cpp:68). If it revives on
  the spot with the values of the copy before the period comes round (CombatHandler.cpp:342-365, taken when there is no
  town to revive in), the place is not saved until something else changes: `SaveRows.UnmarkedStopIsMissed`.
- Web client. A bad size throws away what happens to have arrived: `Streams.WebSplitsAgree` says exactly when the split
  matters. The native client stops instead and does not depend on the split.

## Model

| member | source | states |
|---|---|---|
| `SaveTheorems.DatabaseHoldsAState` | MMOServer/MMOServer/CharacterStore.cpp:602-654 | at every moment of every free run what is stored of an account, read as the loader reads, is one of the states the account has been in, row and whole bag together, although a bundle only carries marked slots; of a stale account, the row of one of them |
| `SaveTheorems.NeverGoesBack` | MMOServer/MMOServer/CharacterStore.cpp:602-676 | in every free run the stored state of every account, stale or not, only moves forward in the account's history, whatever mix of solo bundles, leave records, retries and pairs commits |
| `SaveTheorems.CommitStoresItsSnapshot` | MMOServer/MMOServer/CharacterStore.cpp:602-654 | in every free run each committed write carries a snapshot at least as new as what was stored, and exactly that snapshot is stored then, read as the loader reads; of a stale account, its row |
| `SaveTheorems.TradesAreAtomic` | MMOServer/MMOServer/CharacterStore.cpp:433-593 | after any prefix of a free run, commits included, a trade is stored for both accounts or for neither; failed, resent and hidden commits, departures and stale entries included |
| `SaveTheorems.TradeIsRecorded` | MMOServer/MMOServer/CharacterStore.cpp:440-452 | a trade step adds one state to each of the two histories and is noted with exactly these two states, neither of which is stored yet |
| `SaveTheorems.PairStoresOneInstant` | MMOServer/MMOServer/CharacterStore.cpp:471-546 | committing a pair, however much later in a free run, makes both accounts equal their states of the one moment at which the pair was sent; of a stale account, the row |
| `SaveTheorems.LiveIsCovered` | MMOServer/MMOServer/CharacterStore.cpp:595-676 | in every free run, of an account that is not stale, a slot outside the marks and the flight slots equals its stored slot, and a slot only in flight equals its row in the one outstanding bundle; of any account, nothing in flight means nothing outstanding |
| `SaveRows.RowIsCovered` | MMOServer/MMOServer/CharacterStore.cpp:93-155 | of a player with nothing in flight and a good reply: the stored values are the saved copy if and only if no failed report has hidden a commit since, or the hidden row has these values; the stored place is the player's unless it is to be saved anyway or has stopped unmarked |
| `SaveRows.NotSavedIsStored` | MMOServer/MMOServer/CharacterStore.cpp:93-118 | a player ShouldSave leaves out is stored as it is, row and bag, unless a commit was hidden or it stopped unmarked; after a hidden commit, if and only if its row is the hidden one |
| `SaveRows.HiddenCommitIsMissed` | MMOServer/MMOServer/CharacterStore.cpp:634-645 | without the first of these conditions that is false: a run with a commit reported as a failure, after which the values return and ShouldSave says no, while the row holds the hidden values |
| `SaveRows.UnmarkedStopIsMissed` | MMOServer/MMOServer/CombatSystem.cpp:282-282 | without the second it is false: a run in which a player dies on the way and revives on the spot, after which ShouldSave says no, while the row holds the old place |
| `SaveTheorems.GaugeIsExact` | MMOServer/MMOServer/CharacterStore.cpp:595-600 | in every free run, stale entries included, the in-flight gauge is the number of players whose bundle number is not zero |
| `SaveTheorems.PairSidesArePresent` | MMOServer/MMOServer/CharacterStore.cpp:471-530 | in every free run, whenever a link is not in flight both sides can supply their heads, so the asserts of SendPair hold and its "side missing" branch is dead while the server runs |
| `SaveMissing.LinkFindsBoth` | MMOServer/MMOServer/CharacterStore.cpp:390-391 | while the server stops, a link finds both sides if and only if none of them was confirmed, record and all, with the link still waiting for the other: SendPair's "side missing" branch is taken exactly then |
| `SaveMissing.OtherSideIsLost` | MMOServer/MMOServer/CharacterStore.cpp:498-509 | if so, nothing more is written for the other account whatever else happens while the server stops: what is stored of it stays, so its last state is lost if and only if it was not stored before, and then it is counted |
| `SaveHalfAnswer.StoppedHalfAnswered` | MMOServer/MMOServer/CharacterStore.cpp:373-421 | a run that gets there: however the server is stopped then, the last state of the player who stayed is never stored, and its record is counted |
| `SaveTheorems.NoRecordIsOverwritten` | MMOServer/MMOServer/CharacterStore.cpp:806-815 | in every free run no player in the game has a leave record, so PutLeaveRecord never overwrites one |
| `SaveTheorems.LeftStateIsLast` | MMOServer/MMOServer/CharacterStore.cpp:780-804 | in every free run the state a player leaves in is the last one of its account, and leaving adds none |
| `SaveTheorems.LeaveIsComplete` | MMOServer/MMOServer/CharacterStore.cpp:755-900 | in every free run, once an account is neither in the game nor a leave record, its row and whole bag in the database are its last state, whichever way the bundles in flight at departure ended; of a stale account, the row |
| `SaveTheorems.HandedOnLoadIsFresh` | MMOServer/MMOServer/CharacterStore.cpp:908-982 | of a load that is handed on, row and bag being read one after the other with commits of other workers in between: the row read is that of the state stored then, so that of the last state if and only if that state has it; the bag likewise at its own later moment, unless the account was stale then; both are one state if and only if the two states have the same row; nothing read is out of date if no write was executed since, and none was if the account was on no link and none was queued after the request |
| `SaveTornLoad.TornLoadIsHandedOn` | MMOServer/MMOServer/DB/DBWorker.cpp:712-835 | a load can be handed on that reads no state the account was ever in: a run in which a pair of another worker commits between the two selects, with no account stale |
| `SaveTornLoad.TornEntryDuplicates` | MMOServer/MMOServer/DB/DBWorker.cpp:712-835 | what that breaks: two players trade money for a sword, and after the entry both have the hundred that only one of them had |
| `SaveLoads.FetchLoads` | MMOServer/MMOServer/DB/DBWorker.cpp:712-773 | a worker reading the row of a load keeps what is known of every load |
| `SaveLoads.SlipKeeps` | MMOServer/MMOServer/DB/DBWorker.cpp:369-380 | two replies of different accounts, the two of a pair included, may come in either order: the invariant is kept |
| `SaveStaleLoad.StaleLoadIsHandedOn` | MMOServer/MMOServer/CharacterStore.cpp:933-982 | without that freshness is false: a run in which a retry queued behind the load is confirmed in the same drain, and the load is handed on with a bag that is not stored any more |
| `SaveStaleLoad.WhenEntriesAreStale` | MMOServer/MMOServer/EntryHandler.cpp:188-304 | what a player enters with: the money of the state stored when the row was read; afterwards its account is stale if and only if its bag is not the stored one, of an account stored whole if and only if the state stored when the bag was read has another bag than the last; neither is out of date if the account was on no link and no write was queued after the request |
| `SaveStaleLoad.StaleEntryDuplicates` | MMOServer/MMOServer/EntryHandler.cpp:188-304 | what a stale entry breaks: the run goes on, the player moves the item once more, and the database holds it twice, while in every state of the account there was one |
| `SaveLinkedEntry.WhenEntriesAreLinked` | MMOServer/MMOServer/CharacterStore.cpp:548-571 | an account that may enter is on a link if and only if one side of a link was confirmed, record and all, with the link still waiting for the reply of the other |
| `SaveLinkedEntry.LinkedEntryBreaksATrade` | MMOServer/MMOServer/EntryHandler.cpp:188-304 | what a linked entry breaks: a run with two workers in which a player enters from before a trade, trades once more, and the second trade is stored for one account only |
| `SaveTangles.LinkedEntryCanBreakATrade` | MMOServer/MMOServer/EntryHandler.cpp:188-304 | and every one can: from the first linked entry of any run, whoever enters and whatever else is queued, the program can go on so that a trade is stored for one of its accounts only; so free runs are the most for which trades stay atomic |
| `SaveEntries.EntryIsAdmitted` | MMOServer/MMOServer/EntryHandler.cpp:188-220 | whom the entry handler lets in, the save protocol admits: the account is not in the game and the session has not been |
| `SaveEntries.StartJoined` | MMOServer/MMOServer/EntryHandler.cpp:64-73 | a handler and a store just started agree on who is in the game: nobody |
| `SaveEntries.EntryJoins` | MMOServer/MMOServer/EntryHandler.cpp:188-304 | handler and save protocol take the same step at an entry, and agree afterwards on who is in the game |
| `SaveEntries.LeaveJoins` | MMOServer/MMOServer/PlayerPlacement.cpp:99-116 | so they do at a departure |
| `SaveEntries.ConnectJoins` | MMOServer/MMOServer/EntryHandler.cpp:408-454 | a new session in the table has not been in the game |
| `SaveEntries.SlotsJoin` | MMOServer/MMOServer/EntryHandler.cpp:155-186 | a session promoted to loading or dropped from the table changes nothing of that |
| `SaveEntries.OtherStepsJoin` | MMOServer/MMOServer/CharacterStore.cpp:433-982 | no other step of the save protocol changes who is in the game |
| `SaveLoads.LoadIsFresh` | MMOServer/MMOServer/CharacterStore.cpp:908-931 | what such a load read equals what is stored when its reply is handled |
| `SaveLoads.ExecuteLoads` | MMOServer/MMOServer/DB/DBWorker.cpp:281-393 | executing any job keeps, for every load asked for alone, that every earlier write of the account is executed or ahead of it in the account's queue |
| `SaveHalts.ShutdownLosesNothingUncounted` | MMOServer/MMOServer/CharacterStore.cpp:373-421 | however the last bundles, the retries, the last pairs and the last replies interleave with the workers, every account without a leave record is stored in its last state (of a stale account, the row); so with nothing left over, everything is |
| `SaveHalts.ShutdownKeepsTrades` | MMOServer/MMOServer/CharacterStore.cpp:373-421 | at every moment of a shutdown, workers and pairs resent while in flight included, trades are atomic, no account goes back, and each holds one of its states (of a stale account, its row) |
| `SaveHalts.HaltKeeps` | MMOServer/MMOServer/CharacterStore.cpp:373-421 | every step of a shutdown, and of a worker in between, keeps its invariant: up to the last bundle the one of runs, from then on that each record's attempts all carry the last state and that a good answer means it is stored |
| `SaveHalts.SaveAllGets` | MMOServer/MMOServer/CharacterStore.cpp:373-392 | SaveAllPlayers in the order of the code, undisturbed by workers, is one of these ways of stopping |
| `SaveRuns.StepKeeps` | MMOServer/MMOServer/CharacterStore.cpp:433-982 | every step of game thread, workers and entry, stale entries included, keeps the invariant and only moves histories and database forward, if nobody enters by it while on a link |
| `SaveRuns.RunKeeps` | MMOServer/MMOServer/CharacterStore.cpp:433-982 | so does every run in which nobody enters while on a link |
| `SaveRuns.InitialSound` | MMOServer/MMOServer/CharacterStore.cpp:25-45 | a freshly started server over any database contents satisfies the invariant |
| `SaveKeeps.SendBundleKeeps` | MMOServer/MMOServer/CharacterStore.cpp:656-676 | a solo bundle, taken or refused, keeps the invariant |
| `SaveKeeps.RequestSaveKeeps` | MMOServer/MMOServer/CharacterStore.cpp:678-686 | a save request keeps the invariant |
| `SaveKeeps.SendLeaveRecordKeeps` | MMOServer/MMOServer/CharacterStore.cpp:827-843 | an attempt at a leave record keeps the invariant |
| `SaveKeeps.LeaveKeeps` | MMOServer/MMOServer/CharacterStore.cpp:755-825 | a departure, on a link or not, with or without a bundle in flight, keeps the invariant |
| `SavePairs.SidesReady` | MMOServer/MMOServer/CharacterStore.cpp:471-546 | a link that is not in flight has two sides that can both supply a head |
| `SavePairs.SendPairKeeps` | MMOServer/MMOServer/CharacterStore.cpp:471-546 | sending a pair, taken or refused, keeps the invariant |
| `SaveWorker.ExecuteKeeps` | MMOServer/MMOServer/DB/DBWorker.cpp:281-393 | executing the next job of any worker, committed or not and reported either way a failure allows, keeps the invariant |
| `SaveWorker.TakeOverKeeps` | MMOServer/MMOServer/DB/DBWorker.cpp:281-393 | a worker taking its queue over keeps the invariant |
| `SaveReplies.HandledOk` | MMOServer/MMOServer/CharacterStore.cpp:845-900 | handling the first reply of an account leaves its view in order: an ok reply drops the flight marks, a failed one gives them back, a reply to nobody changes nothing |
| `SaveRelease.HandleReplyKeeps` | MMOServer/MMOServer/CharacterStore.cpp:548-593 | handling a reply, including the release of a link once both answers are good, keeps the invariant |
| `SaveArrivals.SpawnKeeps` | MMOServer/MMOServer/EntryHandler.cpp:307-406 | a player that enters from any load that is handed on, fresh or not, with its account on no link, keeps the invariant |
| `SaveArrivals.TradeKeeps` | MMOServer/MMOServer/CharacterStore.cpp:440-452 | a swap followed by SaveTrade keeps the invariant |
| `SaveViews.UpsertReads` | MMOServer/MMOServer/CharacterStore.cpp:1004-1054 | upserting the rows of a write over what is stored makes the loader read exactly the state the write was taken from, malformed rows reading as empty and bad money as 0 |
| `SaveViews.LeftView` | MMOServer/MMOServer/CharacterStore.cpp:755-804 | the last bundle of a leaving player covers marked and flight slots, so it makes up for the bundle in flight however that one ends |
| `SaveBatch.BatchIsFold` | MMOServer/MMOServer/CharacterStore.cpp:688-733 | the period batch, queued worker by worker, has the effect of looking at one player after the other |
| `SaveBatch.BatchDone` | MMOServer/MMOServer/CharacterStore.cpp:688-733 | in whatever order outcomes are written back, the state is that of one player after the other |
| `SaveProgress.PeriodSaves` | MMOServer/MMOServer/CharacterStore.cpp:688-753 | a tick with a period, whatever order the tables are listed in: every player that needs saving and no link holds is in flight, its state and all that was marked queued as one job under its number, or noted as again if it was in flight, or its queue is full and no mark is lost; every record that no link holds is in flight, queued with its row and rows under its number, or its queue is full; every link that was not in flight is, the states of both sides queued as one job, or its queue is full and both keep all they had |
| `SaveProgress.QuietTickSaves` | MMOServer/MMOServer/CharacterStore.cpp:740-753 | at the end of any other tick that is so of whoever was listed, and nothing else is touched |
| `SaveProgress.SavesAll` | MMOServer/MMOServer/CharacterStore.cpp:373-392 | after SaveAllPlayers every player is a leave record with its last state and all that was marked or in flight; every record that no link holds is in flight, queued with its row and rows, or its queue is full; every link with both its records is in flight as one job with their rows, or its queue is full; no record there was is altered |
| `SaveProgress.LookedAt` | MMOServer/MMOServer/CharacterStore.cpp:656-733 | one look at one player has that effect, and touches nobody else |
| `SaveProgress.SentRecord` | MMOServer/MMOServer/CharacterStore.cpp:827-843 | one attempt at a record: in flight and queued with its row and rows under its number, or its queue is full; no other record changes |
| `SaveProgress.PairTries` | MMOServer/MMOServer/CharacterStore.cpp:471-546 | one attempt at a link: both sides in flight under the numbers the link notes, the states of both queued as one job naming each other, or no room for two and both keep all they had; nobody else is touched |
| `SaveAnswers.ListIsExact` | MMOServer/MMOServer/CharacterStore.cpp:678-753 | in every run, linked entries included, the tick-end list holds exactly the players noted as listed, each once |
| `SaveAnswers.AskedIsSaved` | MMOServer/MMOServer/CharacterStore.cpp:678-753 | a player that asks to be saved is attended to at the end of the tick |
| `SaveAnswers.LiveAnswered` | MMOServer/MMOServer/CharacterStore.cpp:845-880 | the answer to a live bundle: nothing is in flight any more; a good one keeps the marks made since, and lists the player if it needed saving meanwhile; a failed one gives back slots, copy and place |
| `SaveAnswers.RecordAnswered` | MMOServer/MMOServer/CharacterStore.cpp:881-900 | a good answer ends the leave record, a failed one leaves it to be tried again; no other record changes |
| `SaveAnswers.NobodyAnswered` | MMOServer/MMOServer/CharacterStore.cpp:845-900 | an answer whose session, account or number nobody waits for changes nothing |
| `SaveAnswers.PairAnswered` | MMOServer/MMOServer/CharacterStore.cpp:548-593 | the answer to one side of a link is noted; with both in and not both good the link waits to be sent again; with both good it is gone, a player it held is free and listed, a record it held is in flight or its queue is full; nobody else is touched |
| `SaveAnswers.LoadAsked` | MMOServer/MMOServer/CharacterStore.cpp:908-931 | ahead of a load a record that is neither in flight nor held is tried once more; the load is queued behind it exactly when its worker has room for loads; nothing else changes |
| `SaveAnswers.TradeIsSent` | MMOServer/MMOServer/CharacterStore.cpp:440-452 | after a trade one new link holds both players, and the states of both are queued as one job, or there is no room for two and both keep all they had |
| `SaveAnswers.LeaveIsSent` | MMOServer/MMOServer/CharacterStore.cpp:755-843 | who leaves is a leave record with its last state and all that was marked or in flight; if no link holds it, it is queued, or its queue is full |
| `CharacterStores.CharacterStore.PrepareBundle` | MMOServer/MMOServer/CharacterStore.cpp:602-632 | moves the marks into the flight record under the next number, 1 after the last one, and fills the head with the marked rows |
| `CharacterStores.CharacterStore.AbortBundle` | MMOServer/MMOServer/CharacterStore.cpp:634-645 | undoes PrepareBundle: marks back, number 0 |
| `CharacterStores.CharacterStore.SendBundle` | MMOServer/MMOServer/CharacterStore.cpp:656-676 | new state: held back by a link, "again" while in flight, otherwise sent or taken back when refused |
| `CharacterStores.CharacterStore.RequestSave` | MMOServer/MMOServer/CharacterStore.cpp:678-686 | new state after a save request |
| `CharacterStores.CharacterStore.SendLeaveRecord` | MMOServer/MMOServer/CharacterStore.cpp:827-843 | one attempt under the next leave number, 1 after the last one, in flight exactly when the queue took it |
| `CharacterStores.CharacterStore.FindPair` | MMOServer/MMOServer/CharacterStore.cpp:454-469 | the first link with the account on a side, and which side |
| `CharacterStores.CharacterStore.LeaveFinal` | MMOServer/MMOServer/CharacterStore.cpp:780-804 | the last bundle becomes a leave record, held if the player is on a link |
| `CharacterStores.CharacterStore.Leave` | MMOServer/MMOServer/PlayerPlacement.cpp:99-116 | final save, then the hub slot is emptied |
| `CharacterStores.CharacterStore.SendPair` | MMOServer/MMOServer/CharacterStore.cpp:471-546 | both heads as one job or neither, with all bookkeeping of both sides |
| `CharacterStores.CharacterStore.OnSaveReply` | MMOServer/MMOServer/CharacterStore.cpp:845-900 | new state after one reply: live bundle, leave record or nobody; `SaveAnswers` says what that is |
| `CharacterStores.CharacterStore.ReleasePairSide` | MMOServer/MMOServer/CharacterStore.cpp:573-593 | what the link held back flows again |
| `CharacterStores.CharacterStore.OnPairReply` | MMOServer/MMOServer/CharacterStore.cpp:548-571 | the link notes its answers and is released, or kept for a resend, when both are in |
| `CharacterStores.CharacterStore.SaveTrade` | MMOServer/MMOServer/CharacterStore.cpp:440-452 | the two players are linked and their pair sent; a refusal keeps the link |
| `CharacterStores.CharacterStore.RequestCharacterLoad` | MMOServer/MMOServer/CharacterStore.cpp:908-931 | an idle leave record is sent ahead of the load (`SaveAnswers.LoadAsked`); says exactly when the load was queued |
| `CharacterStores.CharacterStore.SavePeriod` | MMOServer/MMOServer/CharacterStore.cpp:688-733 | the batched period leaves the state of looking at each player in turn |
| `CharacterStores.CharacterStore.RetryRecords` | MMOServer/MMOServer/CharacterStore.cpp:688-753 | every record neither in flight nor held is tried again: it is in flight and queued, or its queue is full; the others stay |
| `CharacterStores.CharacterStore.RetryPairs` | MMOServer/MMOServer/CharacterStore.cpp:688-753 | every link not in flight is sent again |
| `CharacterStores.CharacterStore.SaveTickEnd` | MMOServer/MMOServer/CharacterStore.cpp:688-753 | each player listed during the tick is judged once, with its state of now |
| `CharacterStores.CharacterStore.TickSaves` | MMOServer/MMOServer/CharacterStore.cpp:688-753 | exact new state: on a period the batch, the failed records and the links not in flight, then the tick-end list; nothing that was due is left unsent unless its queue is full (`SaveProgress.TickSaved`), and histories and database only move forward |
| `CharacterStores.CharacterStore.ProcessDbResults` | MMOServer/MMOServer/CharacterStore.cpp:933-982 | exact new state: every reply handled in order, then every load handed on, turned into a failure exactly while its account is a leave record; histories and database only move forward |
| `CharacterStores.CharacterStore.SaveAllPlayers` | MMOServer/MMOServer/CharacterStore.cpp:373-392 | everybody's last bundle, failed records again and every link's pair, in flight or not: one of the ways of stopping, and nothing that could be sent is left unsent (`SaveProgress.AllSaved`) |
| `CharacterStores.CharacterStore.HearLastReplies` | MMOServer/MMOServer/CharacterStore.cpp:395-421 | what counts as lost after the drain is the number of leave records left |
| `DbWorkers.DbWorker.EnqueueSave` | MMOServer/MMOServer/DB/DBWorker.cpp:168-186 | queued on the account's worker exactly when that worker is alive and has room |
| `DbWorkers.DbWorker.EnqueueSavePair` | MMOServer/MMOServer/DB/DBWorker.cpp:188-217 | both heads on the smaller account's worker, or neither |
| `DbWorkers.DbWorker.EnqueueSaveBatch` | MMOServer/MMOServer/DB/DBWorker.cpp:219-260 | each worker takes its own heads in order while it has room: every head is queued in one job of its own or reported refused because its queue is full, nothing else is queued, and no queue grows beyond its limit |
| `DbWorkers.DbWorker.EnqueueLoad` | MMOServer/MMOServer/DB/DBWorker.cpp:132-148 | queued behind the account's writes or refused |
| `DbWorkers.TurnsCover` | MMOServer/MMOServer/DB/DBWorker.cpp:219-260 | the batch gives every head exactly one turn |
| `PartyRuns.PartiesAreInOrder` | MMOServer/MMOServer/PartySystem.cpp:123-582 | in every run: roles of requests, one request out and one in per player, 2 to 8 distinct members with their leader, membership both ways, three counter equations, and each player's picture folded from its events is its party |
| `PartyRuns.AnswersAreSafe` | MMOServer/MMOServer/PartySystem.cpp:230-318 | in every run every assert of Answer holds for every pending request |
| `PartyRuns.AnswerAsserts` | MMOServer/MMOServer/PartySystem.cpp:230-318 | the invariant gives the roles Answer relies on |
| `PartyRuns.StepKeeps` | MMOServer/MMOServer/PartySystem.cpp:148-582 | every operation keeps the invariant |
| `PartyRuns.AskKeeps` | MMOServer/MMOServer/PartySystem.cpp:148-228 | a request in any of its kinds, or its refusal, keeps the invariant |
| `PartyRuns.AnswerKeeps` | MMOServer/MMOServer/PartySystem.cpp:230-318 | accepting or declining any kind of request keeps the invariant |
| `PartyRuns.ForgetLeavesNothing` | MMOServer/MMOServer/PartySystem.cpp:403-408 | after Forget no party and no request names the player, everything else is in order, and the player is sent nothing |
| `PartyRuns.ForgetTwice` | MMOServer/MMOServer/PartySystem.cpp:403-408 | Forget is idempotent |
| `PartyRuns.ExpireIsExact` | MMOServer/MMOServer/PartySystem.cpp:550-565 | exactly the requests that are due are gone, in spite of erasing while scanning |
| `PartyRuns.ScanIsCurrent` | MMOServer/MMOServer/PartySystem.cpp:567-582 | right after a scan the last sent values are the present ones, in each member's own picture too |
| `PartyInvariant.CancelFromIs` | MMOServer/MMOServer/PartySystem.cpp:123-143 | cancelling removes exactly the requests that name the player, keeps the equation, and tells the skipped player nothing |
| `PartyChanges.JoinKeeps` | MMOServer/MMOServer/PartySystem.cpp:436-447 | joining keeps the invariant |
| `PartyChanges.CreateKeeps` | MMOServer/MMOServer/PartySystem.cpp:412-434 | founding a party keeps the invariant |
| `PartyChanges.ChangeLeaderKeeps` | MMOServer/MMOServer/PartySystem.cpp:514-521 | a new leader keeps the invariant: requests of both leaders are gone |
| `PartyChanges.DisbandKeeps` | MMOServer/MMOServer/PartySystem.cpp:490-512 | disbanding keeps the invariant and leaves nobody behind |
| `PartyRuns.RemoveMemberKeeps` | MMOServer/MMOServer/PartySystem.cpp:449-488 | a departure keeps the invariant through disbanding and succession |
| `PartyKeeps.InfoKeeps` | MMOServer/MMOServer/PartySystem.cpp:523-529 | after the broadcast every member's picture is the party |
| `PartyOutcomes.AskOutcome` | MMOServer/MMOServer/PartySystem.cpp:148-228 | whose request goes to whom: between two without a party an invitation; a leader invites, another member suggests to its leader, who asks a member applies to that party's leader; every refusal with its one line; number, time and asking line of the request |
| `PartyOutcomes.AcceptOutcome` | MMOServer/MMOServer/PartySystem.cpp:230-318 | an invitation from somebody without a party founds one, led by the inviter, of exactly inviter and invited; otherwise the invited player comes last in the inviter's party, the applicant in the answering leader's; at eight members nobody comes in; a suggestion becomes an invitation from the leader, of the old origin, about the member; parties, requests and lines are exact |
| `PartyOutcomes.DeclineOutcome` | MMOServer/MMOServer/PartySystem.cpp:230-318 | declining takes the request away, tells its sender and its origin, and changes no party |
| `PartyOutcomes.NobodyAsked` | MMOServer/MMOServer/PartySystem.cpp:230-245 | an answer to no pending request changes nothing but one line |
| `PartyOutcomes.CreateFounds` | MMOServer/MMOServer/PartySystem.cpp:412-434 | a new party of the leader and the other, in this order; both lose their requests; everybody gets the party, then hears who joined |
| `PartyOutcomes.JoinJoins` | MMOServer/MMOServer/PartySystem.cpp:436-447 | the player comes last, the leader stays; its requests are gone; everybody gets the party, then hears who joined |
| `PartyOutcomes.RemovalLeaves` | MMOServer/MMOServer/PartySystem.cpp:449-488 | the others stay in their order, the first of them leading if the leader went; a party of one ends; the lines of everybody are exact |
| `PartyOutcomes.PartyDisbands` | MMOServer/MMOServer/PartySystem.cpp:490-512 | the party is gone, its members have none, each is sent away once |
| `PartyOutcomes.LeaderChanges` | MMOServer/MMOServer/PartySystem.cpp:514-521 | the member leads, members and their order stay |
| `PartyOutcomes.LeaveOutcome` | MMOServer/MMOServer/PartySystem.cpp:322-331 | leaving, or the line that there is no party |
| `PartyOutcomes.KickOutcome` | MMOServer/MMOServer/PartySystem.cpp:333-358 | the leader removes another member; any other try gets one line and changes nothing |
| `PartyOutcomes.SetLeaderOutcome` | MMOServer/MMOServer/PartySystem.cpp:360-385 | the leader hands over to another member; any other try gets one line and changes nothing |
| `PartyOutcomes.DisbandOutcome` | MMOServer/MMOServer/PartySystem.cpp:387-401 | only the leader disbands |
| `PartyOutcomes.ForgetOutcome` | MMOServer/MMOServer/PartySystem.cpp:403-408 | the player's requests are cancelled, then it leaves unheard |
| `PartyOutcomes.TickOutcome` | MMOServer/MMOServer/PartySystem.cpp:539-582 | exactly the requests that are due are gone, each with its lines; a scan half a second after the last leaves every sent value present |
| `PartyOutcomes.CancelTells` | MMOServer/MMOServer/PartySystem.cpp:123-143 | who hears of a cancelled request: its receiver's window closes, its sender and its maker are told once each, the skipped player nothing |
| `PartyOutcomes.InvitationFounds` | MMOServer/MMOServer/PartySystem.cpp:148-318 | asking and accepting together: whoever asked leads the party of the two |
| `PartyOutcomes.ApplicationJoins` | MMOServer/MMOServer/PartySystem.cpp:148-318 | applying and being accepted: the applicant is the last member of that party |
| `PartyOutcomes.SuggestionJoins` | MMOServer/MMOServer/PartySystem.cpp:148-318 | suggesting, agreeing and accepting: the newcomer is the last member of the leader's party |
| `PartySystems.PartySystem.CancelRequestsOf` | MMOServer/MMOServer/PartySystem.cpp:123-143 | the loop that erases while scanning computes the specified cancellation |
| `PartySystems.PartySystem.Ask` | MMOServer/MMOServer/PartySystem.cpp:148-228 | new state of a request, every refusal included; `PartyOutcomes.AskOutcome` says what that is |
| `PartySystems.PartySystem.Answer` | MMOServer/MMOServer/PartySystem.cpp:230-318 | new state of an answer; `PartyOutcomes.AcceptOutcome` and `DeclineOutcome` say what that is |
| `PartySystems.PartySystem.Create` | MMOServer/MMOServer/PartySystem.cpp:412-434 | new state of founding |
| `PartySystems.PartySystem.Join` | MMOServer/MMOServer/PartySystem.cpp:436-447 | new state of joining |
| `PartySystems.PartySystem.RemoveMember` | MMOServer/MMOServer/PartySystem.cpp:449-488 | new state of a departure |
| `PartySystems.PartySystem.DisbandParty` | MMOServer/MMOServer/PartySystem.cpp:490-512 | new state of disbanding |
| `PartySystems.PartySystem.ChangeLeader` | MMOServer/MMOServer/PartySystem.cpp:514-521 | new state of a leader change |
| `PartySystems.PartySystem.Leave` | MMOServer/MMOServer/PartySystem.cpp:322-331 | new state of leaving |
| `PartySystems.PartySystem.Kick` | MMOServer/MMOServer/PartySystem.cpp:333-358 | new state of kicking, refusals included |
| `PartySystems.PartySystem.SetLeader` | MMOServer/MMOServer/PartySystem.cpp:360-385 | new state of handing the lead over |
| `PartySystems.PartySystem.Disband` | MMOServer/MMOServer/PartySystem.cpp:387-401 | new state of the leader's disbanding |
| `PartySystems.PartySystem.Forget` | MMOServer/MMOServer/PartySystem.cpp:403-408 | new state of forgetting |
| `PartySystems.PartySystem.Expire` | MMOServer/MMOServer/PartySystem.cpp:550-565 | the expiry loop computes the specified state |
| `PartySystems.PartySystem.ScanMembers` | MMOServer/MMOServer/PartySystem.cpp:567-582 | the scan loop computes the specified state |
| `PartySystems.PartySystem.Tick` | MMOServer/MMOServer/PartySystem.cpp:539-548 | expiry, then the scan when its frame has come |
| `Entry.EntryHandler.SetPendingEnter` | MMOServer/MMOServer/EntryHandler.cpp:127-147 | the slot is overwritten and both gauges stay equal to the number of slots in their state |
| `Entry.EntryHandler.PromotePendingEnter` | MMOServer/MMOServer/EntryHandler.cpp:155-170 | promotes exactly a waiting slot of this very session; gauges stay exact |
| `Entry.EntryHandler.TakePendingEnter` | MMOServer/MMOServer/EntryHandler.cpp:172-186 | takes exactly the slot of this very session; gauges stay exact |
| `Entry.EntryHandler.OnConnected` | MMOServer/MMOServer/EntryHandler.cpp:408-454 | a new session waits in its slot; one session per account is kept |
| `Entry.EntryHandler.OnDisconnected` | MMOServer/MMOServer/EntryHandler.cpp:75-79 | the session is nowhere afterwards, other slots stay, nobody is asked to disconnect |
| `Entry.EntryHandler.KickDuplicateAccount` | MMOServer/MMOServer/EntryHandler.cpp:463-504 | exactly whoever loaded or played the account is out, and exactly these are asked to disconnect |
| `Entry.EntryHandler.RecvEnterGame` | MMOServer/MMOServer/EntryHandler.cpp:506-572 | each outcome has its exact condition; who is asked to disconnect, whose load is asked for, whose session and which number are used are exact; promotion after the load is queued always succeeds; accounts in the game or loading stay pairwise distinct |
| `Entry.EntryHandler.OnCharacterLoaded` | MMOServer/MMOServer/EntryHandler.cpp:188-304 | spawns exactly when the session still waits, the load did not fail and a zone was found; everything else stays |
| `Entry.NotHeld` | MMOServer/MMOServer/EntryHandler.cpp:506-572 | an automatic number is new and a chosen one has just been freed, so nobody holds the account |
| `Entry.CountSet` | MMOServer/MMOServer/EntryHandler.cpp:113-125 | writing one slot moves each gauge by exactly that slot |
| `BagRules.AddedAll` | MMOServer/MMOServer/Inventory.cpp:108-169 | with enough room all of the count goes in; locked and foreign slots and other tabs stay; an empty slot opens only when every unlocked stack of the item is full |
| `BagRules.FitsIffRoom` | MMOServer/MMOServer/Inventory.cpp:108-169 | everything fits exactly when the unlocked room of the tab is at least the count |
| `BagRules.StacksFull` | MMOServer/MMOServer/Inventory.cpp:141-151 | if something is left after the stacks, every unlocked stack of the item is full |
| `BagRules.StacksChange` | MMOServer/MMOServer/Inventory.cpp:141-151 | only unlocked stacks of the item change, and they only grow, up to the limit |
| `BagRules.EmptiesAre` | MMOServer/MMOServer/Inventory.cpp:154-165 | opening empty slots adds what it uses up, in empty slots only |
| `BagRules.SlotNumbersRoundTrip` | MMOServer/MMOServer/Inventory.cpp:55-95 | finding a slot number and numbering a slot undo each other |
| `BagRules.LoadReadsEachSlot` | MMOServer/MMOServer/CharacterStore.cpp:1004-1062 | loading row by row reads, slot by slot, the stored item where it is fit and nothing elsewhere |
| `Inventories.Inventory.TryAdd` | MMOServer/MMOServer/Inventory.cpp:108-169 | all or nothing, with the exact condition of each result; exactly the changed slots are marked |
| `Inventories.Inventory.Remove` | MMOServer/MMOServer/Inventory.cpp:171-184 | the stack shrinks or empties and is marked |
| `Inventories.Inventory.SwapSlots` | MMOServer/MMOServer/Inventory.cpp:209-218 | contents change places, both marked |
| `Inventories.Inventory.FirstEmptyInTab` | MMOServer/MMOServer/Inventory.cpp:239-249 | the first empty slot of the tab, or none if there is none |
| `Inventories.Inventory.TryAddMoney` | MMOServer/MMOServer/Inventory.cpp:186-194 | added up to the limit, otherwise nothing changes |
| `Inventories.Inventory.SpendMoney` | MMOServer/MMOServer/Inventory.cpp:196-201 | money falls by the amount, locked money stays covered |
| `Inventories.Inventory.LockSlot` | MMOServer/MMOServer/Inventory.cpp:220-225 | locked stays non-empty and off the weapon slot |
| `Inventories.Inventory.LockMoney` | MMOServer/MMOServer/Inventory.cpp:227-231 | locked money grows and stays part of the money |
| `Inventories.Inventory.UnlockAll` | MMOServer/MMOServer/Inventory.cpp:233-237 | no lock is left |
| `Inventories.Inventory.TakeChanges` | MMOServer/MMOServer/Inventory.h:121-133 | every changed slot once, in slot order, and the marks are gone |
| `Inventories.Inventory.TakeUnsaved` | MMOServer/MMOServer/Inventory.h:137-137 | hands the marks out and clears them |
| `Inventories.Inventory.MarkUnsaved` | MMOServer/MMOServer/Inventory.h:138-138 | gives marks back |
| `Inventories.Inventory.LoadInventoryRows` | MMOServer/MMOServer/CharacterStore.cpp:1004-1062 | the bag after a load is the specified one, and the rows counted as skipped are exactly those that fit no slot |
| `SaveBags.BagIsPlayed` | MMOServer/MMOServer/Inventory.h:152-156 | what TryAdd, Remove, SwapSlots and changes of money do to a bag is what the save protocol lets the game do to its player: a changed slot is marked, and no mark is lost |
| `Inventories.FindInvSlot` | MMOServer/MMOServer/Inventory.cpp:55-78 | the tab and index a slot number stands for, or none |
| `Inventories.NumberOfSlot` | MMOServer/MMOServer/Inventory.cpp:80-95 | the slot number of an index |
| `Monsters.RunSound` | MMOServer/MMOServer/MonsterManager.cpp:39-104 | in every reachable state a point is taken exactly when one live monster owns it, and spawned = despawned + vanished + alive |
| `Monsters.StepKeeps` | MMOServer/MMOServer/MonsterManager.cpp:39-384 | tick, despawn, revive request and clear request each keep that |
| `Monsters.DespawnTakesOne` | MMOServer/MMOServer/MonsterManager.cpp:82-104 | exactly the dead monster leaves and exactly its point is freed, in spite of the swap |
| `Monsters.ClearedStaysEmpty` | MMOServer/MMOServer/MonsterManager.cpp:56-79 | after the first tick that follows a clear request the zone never holds a monster again |
| `Monsters.SpentAfterFirstTick` | MMOServer/MMOServer/MonsterManager.cpp:215-245 | the first tick of a zone that is not cleared puts every zero-period region at the end of time for good |
| `Monsters.OnlyRevivesRefill` | MMOServer/MMOServer/MonsterManager.cpp:215-245 | after that a point of such a region is taken again only by a tick that was asked to revive its monster since the tick before |
| `Monsters.ReviveFillsTheDead` | MMOServer/MMOServer/MonsterManager.cpp:337-349 | a revive brings back as many monsters as CountVacant says, fills the region, and moves no clock |
| `Monsters.RefillsOnTime` | MMOServer/MMOServer/MonsterManager.cpp:215-245 | over every run: the first tick, and then each first tick a period or more after the last refill, leaves no point of the region vacant |
| `Monsters.NotBeforeTime` | MMOServer/MMOServer/MonsterManager.cpp:215-245 | any other event takes a vacant point of the region only if it is a tick that was asked to revive its monster since the tick before |
| `Monsters.ClockIs` | MMOServer/MMOServer/MonsterManager.cpp:228-236 | over every run the region's clock is the frame of its last refill plus its period |
| `Monsters.MonsterManager.Tick` | MMOServer/MMOServer/MonsterManager.cpp:56-79 | due and revived regions full, clocks moved only when due (`Monsters.RefillsOnTime` and `NotBeforeTime` say when), exact spawn and revive counts; a cleared zone only vanishes |
| `Monsters.MonsterManager.RegenDue` | MMOServer/MMOServer/MonsterManager.cpp:215-264 | the same for the pass over the regions |
| `Monsters.MonsterManager.Spawn` | MMOServer/MMOServer/MonsterManager.cpp:266-302 | one monster joins the list and takes its point |
| `Monsters.MonsterManager.Despawn` | MMOServer/MMOServer/MonsterManager.cpp:82-104 | the monster leaves, or nothing changes when it is not on the list |
| `Monsters.MonsterManager.RequestRevive` | MMOServer/MMOServer/MonsterManager.cpp:337-349 | only the marks of the monster's regions are set, and none once cleared |
| `Monsters.MonsterManager.RequestClear` | MMOServer/MMOServer/MonsterManager.cpp:331-334 | only the flag is set |
| `Monsters.MonsterManager.VanishAll` | MMOServer/MMOServer/MonsterManager.cpp:352-368 | no monster, no taken point, no mark |
| `Monsters.MonsterManager.CountVacant` | MMOServer/MMOServer/MonsterManager.cpp:372-384 | the exact number of vacant points of the monster's regions |
| `Buffs.BuffSystem.Join` | MMOServer/MMOServer/CharacterComponents.h:104-110 | a character comes with every slot empty; list and gauge stay right |
| `Buffs.BuffSystem.Apply` | MMOServer/MMOServer/BuffSystem.cpp:40-64 | new or rewound; the list stays exactly the characters with a running slot and applied + restored = ended + active |
| `Buffs.BuffSystem.Restore` | MMOServer/MMOServer/BuffSystem.cpp:146-162 | fills an empty slot only, with the same two invariants |
| `Buffs.BuffSystem.Tick` | MMOServer/MMOServer/BuffSystem.cpp:66-115 | slot by slot: exactly those whose time has come are emptied, each is told once, the others stay, in spite of removal by swapping |
| `Buffs.BuffSystem.ClearAll` | MMOServer/MMOServer/BuffSystem.cpp:117-144 | every slot of the character is empty, each that ran is told once, and it is off the list; nobody else changes |
| `Buffs.BuffSystem.Forget` | MMOServer/MMOServer/BuffSystem.cpp:178-182 | the same untold; on a character not listed it changes nothing, so a second call is harmless |
| `Buffs.BuffSystem.ForgetZone` | MMOServer/MMOServer/BuffSystem.cpp:184-204 | nobody left on the list is in the zone, its characters' slots are empty, and nobody outside it lost a slot |
| `Buffs.BuffSystem.RemoveFromList` | MMOServer/MMOServer/BuffSystem.cpp:33-38 | the list without the character |
| `Buffs.ListedSwept` | MMOServer/MMOServer/BuffSystem.cpp:66-115 | taking an entry out by swapping keeps the list exact |
| `Maps.GetZoneIsFindChannel` | MMOServer/MMOServer/MapManager.cpp:206-214 | the flat table and the two-level lookup give the same zone for every number, and that zone carries the number |
| `Maps.ZonesAreDistinct` | MMOServer/MMOServer/MapManager.cpp:334-347 | no zone is found under two (map, channel) pairs |
| `Maps.ZoneIdsDiffer` | MMOServer/MMOServer/MapManager.cpp:334-347 | zone numbers of different pairs differ below the channel limit |
| `Maps.Pigeonhole` | MMOServer/MMOServer/MapManager.cpp:100-110 | n taken numbers from 1 on need n rooms |
| `MapManagers.MapManager.RegisterMap` | MMOServer/MMOServer/MapManager.cpp:122-166 | exact condition of success, exact new tables, first map becomes the default |
| `MapManagers.MapManager.CountPlayer` | MMOServer/MMOServer/Zone.cpp:87-120 | a player more or less in a zone: no lookup changes |
| `MapManagers.MapManager.Create` | MMOServer/MMOServer/MapManager.cpp:8-28 | a zone exactly below the limit, for a free number, when set-up works |
| `MapManagers.MapManager.FindOrCreateChannel` | MMOServer/MMOServer/MapManager.cpp:64-82 | channel 0 first, an open channel whenever there is one, else the next number; a player only where there is room, and a new channel or none only when every channel is full; lookups stay in agreement |
| `MapManagers.MapManager.CreateRoom` | MMOServer/MMOServer/MapManager.cpp:100-110 | smallest free number within open rooms + 1 probes; fails on numbering only when every number is used |
| `MapManagers.MapManager.CloseEmptyRooms` | MMOServer/MMOServer/MapManager.cpp:278-295 | a room goes exactly if nobody is in it, from both tables, each reported once |
| `MapManagers.MapManager.PickZoneChangeTarget` | MMOServer/MMOServer/MapManager.cpp:216-276 | never the present zone; players stay in their field map and only where there is room; of a named channel every refusal has its exact condition; an administrator who names none gets channel 0 of the map named or drawn, exactly if there is such a field map and it is not the present zone |
| `Blobs.UnpackInvertsPack` | MMOServer/MMOServer/CooldownBuffBlob.cpp:38-121 | every list that fits comes back |
| `Blobs.AcceptsWhatPackWrites` | MMOServer/MMOServer/CooldownBuffBlob.cpp:38-121 | bytes are accepted with a list exactly when that list packs to them |
| `Blobs.CooldownsInvert` | MMOServer/MMOServer/CooldownBuffBlob.cpp:53-105 | cooldown entries are read exactly as written, for all bytes and all values |
| `Blobs.BuffsInvert` | MMOServer/MMOServer/CooldownBuffBlob.cpp:72-121 | so are effect entries |
| `Blobs.CooldownLayout` | MMOServer/MMOServer/CooldownBuffBlob.cpp:53-70 | the bytes themselves: version 1, the count, and in each entry the skill and the time, lowest byte first |
| `Blobs.BuffLayout` | MMOServer/MMOServer/CooldownBuffBlob.cpp:72-90 | the bytes themselves: in each entry the kind, the value and the time, lowest byte first |
| `BlobCodec.PackCooldowns` | MMOServer/MMOServer/CooldownBuffBlob.cpp:53-70 | the buffer holds the packed list, or nothing was written, and what lies behind stays |
| `BlobCodec.UnpackCooldowns` | MMOServer/MMOServer/CooldownBuffBlob.cpp:92-105 | the list the bytes spell, or empty, or bad |
| `BlobCodec.CheckHeader` | MMOServer/MMOServer/CooldownBuffBlob.cpp:38-50 | exact condition of each verdict |
| `Timers.NeverEarly` | MMOServer/MMOServer/CharacterStore.cpp:59-60 | a cooldown comes back as the smaller of the table's length and the time left rounded up: never early unless capped, less than a frame late |
| `Timers.CooldownsSurviveLogout` | MMOServer/MMOServer/CharacterStore.cpp:161-310 | save, pack, unpack and restore together: every skill is ready exactly when its own remaining time says |
| `Timers.SaveCooldowns` | MMOServer/MMOServer/CharacterStore.cpp:170-182 | exactly the skills not ready yet, once, in order, with their wall-clock times |
| `Timers.RestoreCooldowns` | MMOServer/MMOServer/CharacterStore.cpp:285-310 | each entry restored, expired or skipped, with the result of which `GiveBackIs` speaks; a rewrite is asked for exactly if an entry's skill is gone, running already or given before |
| `Timers.GiveBackIs` | MMOServer/MMOServer/CharacterStore.cpp:285-310 | of any list: a skill that is ready gets its cooldown from the first entry whose time is to come, for the smaller of the table's length and what is left rounded up; nothing else changes |
| `EffectTimers.EffectsSurviveLogout` | MMOServer/MMOServer/CharacterStore.cpp:184-356 | save, pack, unpack and restore together: every effect comes back by itself, with its value and what is left of its time, or is gone when that is nothing, more than an hour, or the value is not one that skills give |
| `EffectTimers.EffectsAreNotProlonged` | MMOServer/MMOServer/CharacterStore.cpp:318-356 | an effect as skills give it comes back exactly if time is left, less than a frame too long and never for longer than it had |
| `EffectTimers.SaveEffects` | MMOServer/MMOServer/CharacterStore.cpp:184-197 | exactly the effects that still run, once, in order, with the wall-clock times at which they end |
| `EffectTimers.RestoreOne` | MMOServer/MMOServer/CharacterStore.cpp:328-355 | one entry: bad kind or value, time out of range or slot filled already is skipped, passed time expires, anything else is given to the effect system |
| `EffectTimers.RestoreEffects` | MMOServer/MMOServer/CharacterStore.cpp:316-362 | the whole column, or none of a dead player, with the result of which `GiveEffectsIs` speaks; a rewrite is asked for exactly if the column could not be read or an entry is not one that skills give, has too much left, or finds its slot filled |
| `EffectTimers.GiveEffectsIs` | MMOServer/MMOServer/CharacterStore.cpp:328-355 | of any list: an empty slot gets the first entry that skills give with time left, at most an hour, for what is left rounded up; nothing else changes |
| `Movement.WindowBound` | MMOServer/MMOServer/MoveHandler.cpp:31-195 | over any window of frames of any run the accepted jumps add up to at most 8 plus a quarter of speed times time |
| `Movement.RunSound` | MMOServer/MMOServer/MoveHandler.cpp:174-195 | the budget stays in [0, 8] and the player on the map |
| `Movement.JumpIsCharged` | MMOServer/MMOServer/MoveHandler.cpp:84-110 | clamped to the map, a jump is no longer than what is charged for it |
| `Movement.ClaimIsWorth` | MMOServer/MMOServer/MoveHandler.cpp:31-195 | a living, standing player's claim is taken over exactly if it is within eight tiles, over a free path and within the budget as time has refilled it; the distance is paid then, and nothing otherwise |
| `Movement.RestRefills` | MMOServer/MMOServer/MoveHandler.cpp:174-195 | in every run, once a player has claimed nothing for so long that speed times frames makes 800, a claim within eight tiles over a free path is taken over, whatever was spent before |
| `Movement.MoveHandler.RecvMoveStart` | MMOServer/MMOServer/MoveHandler.cpp:31-136 | exact place, direction, state and budget after a start request, taken over or turned away |
| `Movement.MoveHandler.ConsumeMoveBudget` | MMOServer/MMOServer/MoveHandler.cpp:174-195 | the budget is refilled by speed * 0.25 * 0.04 a frame up to 8; paid exactly when it suffices |
| `Movement.MoveHandler.RecvMoveStop` | MMOServer/MMOServer/MoveHandler.cpp:138-168 | state only, and only while moving |
| `Streams.ParseJoin` | WebClient/proto.js:332-349 | well-formed packets, sizes in front with the low byte first, put one behind the other are read back exactly |
| `Streams.ParseIsComplete` | WebClient/proto.js:332-349 | packets found and rest together are the stream |
| `Streams.Reassembler.Push` | WebClient/proto.js:332-349 | the packets of what is kept and the chunk together, in order; a bad size drops the rest |
| `Streams.WebSplitsAgree` | WebClient/proto.js:332-349 | splitting makes no difference exactly when the stream has no bad size or ends with that header |
| `Streams.Receiver.Turn` | GameClient/ClientNetwork.cpp:96-153 | the packets of buffer and new bytes; there is room before the next recv, so the overflow branch is dead |
| `Streams.ThreadSplitsAgree` | GameClient/ClientNetwork.cpp:96-153 | for any input and any split the thread hands on the packets of the stream up to its first bad size |

## Left out

- SaveTheorems.LiveIsCovered: slots only; rows are in `SaveRows.RowIsCovered`, from the first good reply of a session on. Before that the saved copy holds what the load and its corrections left, and nothing is said of it.
- SaveTheorems.GaugeIsExact: over free runs, like the other theorems; after a linked entry a reply can be taken for that of another link with the same number, and nothing is said of the gauge then.
- SaveTangles.LinkedEntryCanBreakATrade: of the first linked entry of a run, and of some continuation; nothing is said of which continuations break a trade, nor of a second such entry.
- SaveEntries.EntryIsAdmitted: that a load which comes back carries the session and account it was asked for with is a condition of the lemma; `SaveSteps.Reads` copies both from the job.
- A stopped player that is not marked is any step from moving to standing still without a mark; which game events do that is read from the combat code, not modelled.
- The order in which hash tables list their entries is a parameter of the methods that walk them.
- Players of the hub are values in a map of the store's world; aliasing between the store and the classes that change a player is not modelled.
- The cap on loaded bag rows, connection loss, reconnects and fault injection of the workers: a job is reported and committed in any way the contract above allows.
- Wall-clock times inside saved rows: the save protocol carries the two blob columns as part of a row; their meaning is in `Timers`.
- Effect entries have no method of their own for packing and unpacking: `Blobs.BuffsInvert` and the list lemmas cover their bytes. A column longer than the buffer reads as bad, as one with too many entries does.
- SaveProgress.SavesAll: says nothing of a link one of whose records is gone; of that `SaveMissing` speaks.
- Party: counters per kind and per reason are summed; finding players around and packet building are left out; party numbers do not wrap.
- Entry: picking the zone, display character and colour, portals and zone changes of players in the game.
- Entry.EntryHandler.OnConnected: a slot's disconnect is reported before its next connect, and session numbers are never reused, as the network layer guarantees.
- Monsters.RefillsOnTime: of frames whose sum with the period does not run over the end of time, as `InTime` says.
- Monsters: thinking, targets, random places and the log line; actor numbers come from a counter that stays above those of live monsters.
- Buffs: recalculated stats; frame numbers do not wrap.
- Maps: zone contents, ticking; map numbers are any integers, set-up of a zone may fail.
- Movement.MoveHandler.RecvMoveStart: a request with a direction out of range is dropped before it (MoveHandler.cpp:46).
- Movement: distances are real numbers instead of floats, the speed is constant, and blocked tiles are part of the request.
- Streams: what a packet decodes to, and exceptions thrown by its handler.
- Item use, equipment, ground items, skills, combat, stats, chat, packet routes, sectors, the table loaders, metrics, logging and all network code.
