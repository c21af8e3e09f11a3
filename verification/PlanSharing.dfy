/** Several sessions' stores over one plan directory: rounds of edits, and what a lagging store does. */
module PlanSharing {
  import opened Types
  import opened Plans

  /** The list of edits a directory has seen, each with the alteration flag it was recorded under. */
  datatype Recorded = Recorded(edit: Edit, isAlteration: bool)

  /** A dated, non-empty edit that differs from the last one and is later. */
  ghost predicate IsNew(log: seq<Recorded>, edit: Edit) {
    && edit.content != "" && edit.content != Content(log)
    && edit.timestamp > 0 && (log != [] ==> edit.timestamp > Last(log).edit.timestamp)
  }

  /** There is room for it, too. */
  ghost predicate Follows(log: seq<Recorded>, edit: Edit) { IsNew(log, edit) && |log| < 50 }

  /** Every edit follows the ones before it. */
  ghost predicate WellTimed(log: seq<Recorded>) {
    forall i :: 0 <= i < |log| ==> Follows(log[..i], log[i].edit)
  }

  function Last(log: seq<Recorded>): Recorded requires log != [] { log[|log| - 1] }

  function Front(log: seq<Recorded>): seq<Recorded> requires log != [] { log[..|log| - 1] }

  /** What the last edit of a log is recorded as. */
  function LastRevision(log: seq<Recorded>): PlanRevision
    requires log != []
  {
    if |log| == 1 then PlanRevision(Whole(log[0].edit.content), 0, false, log[0].edit.timestamp)
    else PlanRevision(Diff(Last(log).edit.content, log[|log| - 2].edit.content), |log| - 1, Last(log).isAlteration,
         Last(log).edit.timestamp)
  }

  /** The one list of revisions: 0, 1, 2, ... without gaps. */
  function RevisionsOf(log: seq<Recorded>): (r: seq<PlanRevision>)
    ensures |r| == |log|
  {
    if log == [] then [] else RevisionsOf(Front(log)) + [LastRevision(log)]
  }

  function Alterations(log: seq<Recorded>): nat {
    if log == [] then 0 else Alterations(Front(log)) + if LastRevision(log).isAlteration then 1 else 0
  }

  function Content(log: seq<Recorded>): string {
    if log == [] then "" else Last(log).edit.content
  }

  /** The one book every store should hold once a list of edits has gone round. */
  function BookOf(log: seq<Recorded>): PlanBook {
    PlanBook(Content(log), RevisionsOf(log), Alterations(log))
  }

  function VersionsOf(log: seq<Recorded>): (r: seq<PlanVersion>)
    ensures |r| == |log|
  {
    if log == [] then [] else VersionsOf(Front(log)) + [Stored(LastRevision(log))]
  }

  /** The one directory: one file a revision, and the last content. */
  function DiskOf(log: seq<Recorded>): PlanDisk {
    PlanDisk(VersionsOf(log), if log == [] then None else Some(Content(log)))
  }

  /** The PlanRevised events of revisions `from` and later; the initial plan has none. */
  function EventsOf(log: seq<Recorded>, from: nat): seq<Event>
    requires from <= |log|
  {
    if from == |log| then []
    else if |log| == 1 then []
    else EventsOf(Front(log), from) + [Revised(LastRevision(log))]
  }

  lemma {:induction false} Numbered(log: seq<Recorded>)
    ensures forall i :: 0 <= i < |log| ==>
              && RevisionsOf(log)[i].index == i
              && RevisionsOf(log)[i].timestamp == log[i].edit.timestamp
              && VersionsOf(log)[i] == Stored(RevisionsOf(log)[i])
  {
    if log != [] { Numbered(Front(log)); }
  }

  lemma Reloads(log: seq<Recorded>)
    requires log != []
    ensures Loaded(Stored(LastRevision(log))) == LastRevision(log)
  {
  }

  lemma {:induction false} AppendsAll(log: seq<Recorded>)
    ensures AppendVersions(EMPTY_BOOK, VersionsOf(log)) == BookOf(log).(content := "")
  {
    if log != [] {
      AppendsAll(Front(log));
      Reloads(log);
      assert VersionsOf(log)[..|log| - 1] == VersionsOf(Front(log));
    }
  }

  /** A store that first sees the session late takes over from the directory exactly what the others hold. */
  lemma LateStoreHoldsTheSame(log: seq<Recorded>)
    ensures Hydrated(Some(DiskOf(log))) == BookOf(log)
  {
    AppendsAll(log);
  }

  // ---- One delivery ----

  lemma {:induction false} PutAtEnd(versions: seq<PlanVersion>, version: PlanVersion)
    requires forall i :: 0 <= i < |versions| ==> versions[i].index < version.index
    ensures Put(versions, version) == versions + [version]
  {
    if versions != [] { PutAtEnd(versions[1..], version); }
  }

  lemma ContentIsText(log: seq<Recorded>)
    requires WellTimed(log)
    ensures Content(log) == "" <==> log == []
  {
    if log != [] {
      assert Follows(log[..|log| - 1], log[|log| - 1].edit);
    }
  }

  lemma RecordInitial(all: seq<Recorded>, isAlteration: bool, events: seq<Event>, now: Time)
    requires |all| == 1 && all[0].edit.timestamp > 0
    ensures Record(PlanState(EMPTY_BOOK.(content := Content(all)), Some(EMPTY_DISK), events),
                   isAlteration, Content(all), "", all[0].edit.timestamp, now) ==
            PlanState(BookOf(all), Some(DiskOf(all)), events)
  {
    var revisions := RevisionsOf(all);
    assert revisions == [LastRevision(all)];
    assert VersionsOf(all) == [Stored(LastRevision(all))];
    assert Alterations(Front(all)) == 0;
  }

  lemma RecordNext(log: seq<Recorded>, all: seq<Recorded>, events: seq<Event>, now: Time)
    requires all != [] && log == Front(all) && 0 < |log| < MAX_PLAN_REVISIONS
    requires Content(log) != "" && Last(all).edit.timestamp > 0
    ensures Record(PlanState(BookOf(log).(content := Content(all)), Some(DiskOf(log)), events),
                   Last(all).isAlteration, Content(all), Content(log), Last(all).edit.timestamp, now) ==
            PlanState(BookOf(all), Some(DiskOf(all)), events + [Revised(LastRevision(all))])
  {
    PutAtEnd(VersionsOf(log), Stored(LastRevision(all))) by { Numbered(log); }
    assert all[|all| - 2] == Last(log);
  }

  /** The store that meets a new edit first records it as the next version. */
  lemma FirstDelivery(log: seq<Recorded>, all: seq<Recorded>, agent: Agent, planExitSeen: bool, events: seq<Event>,
                      now: Time)
    requires all != [] && log == Front(all) && WellTimed(log) && Follows(log, Last(all).edit)
    requires log != [] ==> Last(all).isAlteration == (agent == Codex || planExitSeen)
    ensures SetPlanContent(PlanState(BookOf(log), Some(DiskOf(log)), events), agent, planExitSeen, Last(all).edit, now) ==
            PlanState(BookOf(all), Some(DiskOf(all)), if log == [] then events else events + [Revised(LastRevision(all))])
  {
    ContentIsText(log);
    if log == [] {
      RecordInitial(all, IsAlterationPhase(agent, planExitSeen, EMPTY_BOOK), events, now);
    } else {
      RecordNext(log, all, events, now);
    }
  }

  lemma {:induction false} AdoptNothing(state: PlanState, versions: seq<PlanVersion>, next: nat)
    requires forall i :: 0 <= i < |versions| ==> versions[i].index < next
    ensures Adopt(state, versions, next) == state
  {
    if versions != [] { AdoptNothing(state, versions[..|versions| - 1], next); }
  }

  /** Adopting a directory on top of the book of its first `from` edits. */
  lemma {:induction false} AdoptRest(log: seq<Recorded>, from: nat, disk: Option<PlanDisk>, events: seq<Event>,
                                     content: string)
    requires from <= |log|
    ensures Adopt(PlanState(BookOf(log[..from]).(content := content), disk, events), VersionsOf(log), from) ==
            PlanState(BookOf(log).(content := content), disk, events + EventsOf(log, from))
    decreases |log|
  {
    if from == |log| {
      assert log[..from] == log && events + [] == events;
      AdoptNothing(PlanState(BookOf(log).(content := content), disk, events), VersionsOf(log), from) by { Numbered(log); }
    } else {
      assert Front(log)[..from] == log[..from];
      AdoptRest(Front(log), from, disk, events, content);
      assert VersionsOf(log)[..|log| - 1] == VersionsOf(Front(log));
      assert |log| > 1 ==> events + EventsOf(log, from) == events + EventsOf(Front(log), from) + [Revised(LastRevision(log))];
    }
  }

  lemma NextIndexOf(log: seq<Recorded>)
    ensures BookOf(log).NextIndex() == |log|
  {
  }

  /** A store that holds an older content catches up completely; one that happens to hold the latest content does not move. */
  lemma CatchUp(log: seq<Recorded>, from: nat, events: seq<Event>)
    requires from <= |log| && log != []
    ensures var before := PlanState(BookOf(log[..from]), Some(DiskOf(log)), events);
            Synced(before) ==
            if Content(log[..from]) == Content(log) then before
            else PlanState(BookOf(log), Some(DiskOf(log)), events + EventsOf(log, from))
  {
    var disk := Some(DiskOf(log));
    AdoptRest(log, from, disk, events, Content(log[..from]));
    assert BookOf(log[..from]).(content := Content(log[..from])) == BookOf(log[..from]);
    NextIndexOf(log[..from]);
  }

  /** A store one edit behind, told of the edit another store has already recorded. */
  lemma LaterDelivery(log: seq<Recorded>, all: seq<Recorded>, agent: Agent, planExitSeen: bool, events: seq<Event>,
                      now: Time)
    requires all != [] && log == Front(all) && Follows(log, Last(all).edit)
    ensures SetPlanContent(PlanState(BookOf(log), Some(DiskOf(all)), events), agent, planExitSeen, Last(all).edit, now) ==
            PlanState(BookOf(all), Some(DiskOf(all)), events + EventsOf(all, |log|))
  {
    var before, edit := PlanState(BookOf(log), Some(DiskOf(all)), events), Last(all).edit;
    assert Synced(before) == PlanState(BookOf(all), Some(DiskOf(all)), events + EventsOf(all, |log|)) by {
      assert all[..|log|] == log;
      CatchUp(all, |log|, events);
    }
    assert !before.book.IsReplay(edit.timestamp);
    assert DiskHolds(before.disk, edit.content);
  }

  // ---- Rounds: every edit reaches every store, in any order, before the next one ----

  datatype Delivery = Delivery(store: nat, planExitSeen: bool)

  datatype Round = Round(edit: Edit, deliveries: seq<Delivery>)

  datatype System = System(books: seq<PlanBook>, events: seq<seq<Event>>, disk: PlanDisk)

  function Told(deliveries: seq<Delivery>): set<nat> { set d | d in deliveries :: d.store }

  predicate InRange(deliveries: seq<Delivery>, stores: nat) {
    forall d :: d in deliveries ==> d.store < stores
  }

  /** Every store is told at least once. */
  ghost predicate Covers(round: Round, stores: nat) {
    && round.deliveries != [] && InRange(round.deliveries, stores)
    && forall i :: 0 <= i < stores ==> i in Told(round.deliveries)
  }

  predicate WellFormed(system: System) { |system.events| == |system.books| }

  function Deliver(system: System, edit: Edit, delivery: Delivery, now: Time): (r: System)
    requires WellFormed(system)
    ensures WellFormed(r) && |r.books| == |system.books|
  {
    if delivery.store >= |system.books| then system
    else
      var i := delivery.store;
      var after := SetPlanContent(PlanState(system.books[i], Some(system.disk), system.events[i]), Claude,
          delivery.planExitSeen, edit, now);
      System(system.books[i := after.book], system.events[i := after.events],
             match after.disk case Some(disk) => disk case None => system.disk)
  }

  function DeliverAll(system: System, edit: Edit, deliveries: seq<Delivery>, now: Time): (r: System)
    requires WellFormed(system)
    ensures WellFormed(r) && |r.books| == |system.books|
  {
    if deliveries == [] then system
    else
      Deliver(DeliverAll(system, edit, deliveries[..|deliveries| - 1], now), edit, deliveries[|deliveries| - 1], now)
  }

  /** Every store holds the log's book, has recorded the log's events, and the directory is the log's. */
  ghost predicate Agrees(system: System, log: seq<Recorded>) {
    && WellFormed(system) && system.disk == DiskOf(log)
    && forall i :: 0 <= i < |system.books| ==> system.books[i] == BookOf(log) && system.events[i] == EventsOf(log, 0)
  }

  /** Midway through a round: who has been told is at `all`, the others are still at its front. */
  ghost predicate Midway(system: System, all: seq<Recorded>, told: set<nat>)
    requires all != []
  {
    && WellFormed(system) && system.disk == DiskOf(all)
    && forall i :: 0 <= i < |system.books| ==>
         var seen := if i in told then all else Front(all);
         system.books[i] == BookOf(seen) && system.events[i] == EventsOf(seen, 0)
  }

  lemma EventsStep(all: seq<Recorded>)
    requires all != []
    ensures EventsOf(all, 0) == EventsOf(Front(all), 0) + EventsOf(all, |all| - 1)
  {
    assert EventsOf(Front(all), |all| - 1) == [];
  }

  lemma FirstOfRound(system: System, all: seq<Recorded>, delivery: Delivery, now: Time)
    requires all != [] && WellTimed(Front(all)) && Follows(Front(all), Last(all).edit)
    requires Last(all).isAlteration == delivery.planExitSeen
    requires Agrees(system, Front(all)) && delivery.store < |system.books|
    ensures Midway(Deliver(system, Last(all).edit, delivery, now), all, {delivery.store})
  {
    FirstDelivery(Front(all), all, Claude, delivery.planExitSeen, EventsOf(Front(all), 0), now);
    EventsStep(all);
    assert EventsOf(Front(all), |all| - 1) == [];
  }

  lemma LaterInRound(system: System, all: seq<Recorded>, told: set<nat>, delivery: Delivery, now: Time)
    requires all != [] && Follows(Front(all), Last(all).edit)
    requires Midway(system, all, told) && delivery.store < |system.books|
    ensures Midway(Deliver(system, Last(all).edit, delivery, now), all, told + {delivery.store})
  {
    if delivery.store in told {
      assert Deliver(system, Last(all).edit, delivery, now) == system;
    } else {
      var events := EventsOf(Front(all), 0);
      LaterDelivery(Front(all), all, Claude, delivery.planExitSeen, events, now);
      EventsStep(all);
      var after := Deliver(system, Last(all).edit, delivery, now);
      assert after.books == system.books[delivery.store := BookOf(all)];
      assert after.events == system.events[delivery.store := EventsOf(all, 0)];
    }
  }

  lemma {:induction false} RoundSoFar(system: System, all: seq<Recorded>, deliveries: seq<Delivery>, now: Time)
    requires all != [] && WellTimed(Front(all)) && Follows(Front(all), Last(all).edit)
    requires deliveries != [] && InRange(deliveries, |system.books|)
    requires Last(all).isAlteration == deliveries[0].planExitSeen
    requires WellFormed(system) && Agrees(system, Front(all))
    ensures Midway(DeliverAll(system, Last(all).edit, deliveries, now), all, Told(deliveries))
    decreases |deliveries|
  {
    hide Deliver, Agrees, Midway, WellTimed, Follows, Told;
    var before, last := deliveries[..|deliveries| - 1], deliveries[|deliveries| - 1];
    ToldSnoc(deliveries);
    assert last in deliveries;
    if before == [] {
      FirstOfRound(system, all, last, now);
      assert DeliverAll(system, Last(all).edit, before, now) == system;
      ToldNone();
    } else {
      RoundSoFar(system, all, before, now);
      LaterInRound(DeliverAll(system, Last(all).edit, before, now), all, Told(before), last, now);
    }
  }

  lemma ToldNone()
    ensures forall store: nat :: Told([]) + {store} == {store}
  {
  }

  lemma ToldSnoc(deliveries: seq<Delivery>)
    requires deliveries != []
    ensures Told(deliveries) == Told(deliveries[..|deliveries| - 1]) + {deliveries[|deliveries| - 1].store}
  {
    assert deliveries == deliveries[..|deliveries| - 1] + [deliveries[|deliveries| - 1]];
  }

  /** The edits of the rounds, each under the flag of the store it reached first. */
  function LogOf(rounds: seq<Round>): (log: seq<Recorded>)
    ensures |log| == |rounds|
  {
    if rounds == [] then []
    else
      var last := rounds[|rounds| - 1];
      LogOf(rounds[..|rounds| - 1]) + [Recorded(last.edit, last.deliveries != [] && last.deliveries[0].planExitSeen)]
  }

  function Start(stores: nat): System {
    System(seq(stores, _ => EMPTY_BOOK), seq(stores, _ => []), EMPTY_DISK)
  }

  function RunRounds(stores: nat, rounds: seq<Round>, now: Time): (r: System)
    ensures WellFormed(r) && |r.books| == stores
  {
    if rounds == [] then Start(stores)
    else
      var last := rounds[|rounds| - 1];
      DeliverAll(RunRounds(stores, rounds[..|rounds| - 1], now), last.edit, last.deliveries, now)
  }

  lemma WellTimedFront(log: seq<Recorded>)
    requires log != [] && WellTimed(log)
    ensures WellTimed(Front(log)) && Follows(Front(log), Last(log).edit)
  {
    forall i | 0 <= i < |log| - 1 ensures Follows(Front(log)[..i], Front(log)[i].edit) {
      assert Front(log)[..i] == log[..i];
    }
  }

  lemma RoundCompletes(system: System, all: seq<Recorded>, round: Round, now: Time)
    requires all != [] && WellTimed(all) && round.edit == Last(all).edit
    requires Covers(round, |system.books|) && Last(all).isAlteration == round.deliveries[0].planExitSeen
    requires Agrees(system, Front(all))
    ensures Agrees(DeliverAll(system, round.edit, round.deliveries, now), all)
  {
    WellTimedFront(all);
    RoundSoFar(system, all, round.deliveries, now);
  }

  /** Whatever the order inside each round, after any number of rounds every store holds the same revisions
      0, 1, 2, ... and events, and the directory holds exactly those versions. */
  lemma {:induction false} RoundsAgree(stores: nat, rounds: seq<Round>, now: Time)
    requires forall i :: 0 <= i < |rounds| ==> Covers(rounds[i], stores)
    requires WellTimed(LogOf(rounds))
    ensures Agrees(RunRounds(stores, rounds, now), LogOf(rounds))
  {
    if rounds != [] {
      var earlier := rounds[..|rounds| - 1];
      assert Front(LogOf(rounds)) == LogOf(earlier);
      WellTimedFront(LogOf(rounds));
      RoundsAgree(stores, earlier, now);
      RoundCompletes(RunRounds(stores, earlier, now), LogOf(rounds), rounds[|rounds| - 1], now);
    }
  }

  /** Each round adds exactly one file, numbered next, behind the untouched earlier ones. */
  lemma OneVersionPerRound(stores: nat, rounds: seq<Round>, now: Time)
    requires rounds != [] && forall i :: 0 <= i < |rounds| ==> Covers(rounds[i], stores)
    requires WellTimed(LogOf(rounds))
    ensures var before := RunRounds(stores, rounds[..|rounds| - 1], now).disk.versions;
            exists added: PlanVersion ::
              && RunRounds(stores, rounds, now).disk.versions == before + [added]
              && added.index == |before| == |rounds| - 1
              && added.modTime == rounds[|rounds| - 1].edit.timestamp
  {
    var earlier := rounds[..|rounds| - 1];
    assert Front(LogOf(rounds)) == LogOf(earlier);
    WellTimedFront(LogOf(rounds));
    RoundsAgree(stores, rounds, now);
    RoundsAgree(stores, earlier, now);
    var added := Stored(LastRevision(LogOf(rounds)));
    assert RunRounds(stores, rounds, now).disk.versions == RunRounds(stores, earlier, now).disk.versions + [added];
  }

  // ---- Stores that lag further behind ----

  /** A store that knows the first `from` edits is told of edit k, which the directory already holds.
      It leaves the directory alone exactly when it recognises a replay of its own (k < from), when the content is
      the one it holds or the one in latest.md, or when catching up fills it; otherwise it writes a phantom revision. */
  lemma ReplayWritesNothingExactly(log: seq<Recorded>, from: nat, k: nat, planExitSeen: bool, events: seq<Event>,
                                   now: Time)
    requires WellTimed(log) && from <= |log| && k < |log|
    ensures var before := PlanState(BookOf(log[..from]), Some(DiskOf(log)), events);
            SetPlanContent(before, Claude, planExitSeen, log[k].edit, now).disk == before.disk <==>
            || k < from || log[k].edit.content == Content(log[..from]) || log[k].edit.content == Content(log)
            || (|log| == 50 && Content(log[..from]) != Content(log))
  {
    hide BookOf, Record, Synced, DiskOf;
    var before, edit := PlanState(BookOf(log[..from]), Some(DiskOf(log)), events), log[k].edit;
    BookHolds(log[..from]);
    BookHolds(log);
    DiskHasLatest(log);
    assert Follows(log[..k], edit) && Follows(log[..|log| - 1], log[|log| - 1].edit);
    ReplayExactly(log, from, k);
    CatchUp(log, from, events);
    var synced := Synced(before);
    var renamed := synced.(book := synced.book.(content := edit.content));
    if |synced.book.revisions| < MAX_PLAN_REVISIONS {
      RecordWritesLatest(renamed, planExitSeen, edit, synced.book.content, now);
    } else {
      RecordFullWritesNothing(renamed, planExitSeen, edit, synced.book.content, now);
    }
  }

  lemma DiskHasLatest(log: seq<Recorded>)
    requires log != []
    ensures DiskOf(log).latest == Some(Content(log))
  {
  }

  /** A full store counts and announces an edit, and writes nothing. */
  lemma RecordFullWritesNothing(state: PlanState, isAlteration: bool, edit: Edit, previous: string, now: Time)
    requires previous != "" && |state.book.revisions| >= MAX_PLAN_REVISIONS
    ensures Record(state, isAlteration, edit.content, previous, edit.timestamp, now).disk == state.disk
  {
  }

  /** A recorded edit always ends up in latest.md while there is room. */
  lemma RecordWritesLatest(state: PlanState, isAlteration: bool, edit: Edit, previous: string, now: Time)
    requires state.disk.Some? && |state.book.revisions| < MAX_PLAN_REVISIONS
    ensures DiskHolds(Record(state, isAlteration, edit.content, previous, edit.timestamp, now).disk, edit.content)
  {
  }

  lemma {:induction false} TimesIncrease(log: seq<Recorded>, i: nat, j: nat)
    requires WellTimed(log) && i < j < |log|
    ensures log[i].edit.timestamp < log[j].edit.timestamp
  {
    assert Follows(log[..j], log[j].edit);
    if i < j - 1 { TimesIncrease(log, i, j - 1); }
  }

  /** Told of an edit the directory already holds, a store takes it for a replay exactly when it knows it. */
  lemma ReplayExactly(log: seq<Recorded>, from: nat, k: nat)
    requires WellTimed(log) && from <= |log| && k < |log|
    ensures BookOf(log[..from]).IsReplay(log[k].edit.timestamp) <==> k < from
  {
    hide RevisionsOf, Alterations, WellTimed, Follows, PlanBook.IsReplay;
    LogIsDated(log, k);
    KnowsUpTo(log[..from], log[k].edit.timestamp);
    if from > 0 {
      assert Last(log[..from]) == log[from - 1];
      if k < from - 1 { TimesIncrease(log, k, from - 1); }
      if from - 1 < k { TimesIncrease(log, from - 1, k); }
    }
  }

  lemma LogIsDated(log: seq<Recorded>, k: nat)
    requires WellTimed(log) && k < |log|
    ensures log[k].edit.timestamp > 0
  {
    assert Follows(log[..k], log[k].edit);
  }

  lemma KnowsUpTo(log: seq<Recorded>, timestamp: Time)
    ensures BookOf(log).IsReplay(timestamp) <==> timestamp != 0 && log != [] && timestamp <= Last(log).edit.timestamp
  {
    hide Alterations;
    if log != [] { assert LastRevision(log).timestamp == Last(log).edit.timestamp; }
  }

  /** So a store at most one edit behind never adds a phantom. */
  lemma OneBehindIsSafe(log: seq<Recorded>, from: nat, k: nat, planExitSeen: bool, events: seq<Event>, now: Time)
    requires WellTimed(log) && from <= |log| <= from + 1 && k < |log|
    ensures SetPlanContent(PlanState(BookOf(log[..from]), Some(DiskOf(log)), events), Claude, planExitSeen, log[k].edit,
            now).disk ==
            Some(DiskOf(log))
  {
    assert k >= from ==> log[k].edit.content == Content(log);
    ReplayWritesNothingExactly(log, from, k, planExitSeen, events, now);
  }

  function ThreeEdits(third: string): seq<Recorded> {
    [Recorded(Edit("a", 1), false), Recorded(Edit("b", 2), false), Recorded(Edit(third, 3), false)]
  }

  lemma ThreeEditsWellTimed(third: string)
    requires third != "" && third != "b"
    ensures WellTimed(ThreeEdits(third))
  {
    var log := ThreeEdits(third);
    forall i | 0 <= i < |log| ensures Follows(log[..i], log[i].edit) {
      assert i == 0 || i == 1 || i == 2;
    }
  }

  /** Two edits behind: told of the second of three edits, the store adds a fourth version. */
  lemma PhantomExample()
    ensures var log := ThreeEdits("c");
            SetPlanContent(PlanState(BookOf(log[..1]), Some(DiskOf(log)), []), Claude, false, log[1].edit,
                0).disk != Some(DiskOf(log))
  {
    ThreeEditsWellTimed("c");
    ReplayWritesNothingExactly(ThreeEdits("c"), 1, 1, false, [], 0);
  }

  lemma {:induction false} PutInside(versions: seq<PlanVersion>, base: nat, m: nat, version: PlanVersion)
    requires forall i :: 0 <= i < |versions| ==> versions[i].index == base + i
    requires m + 1 < |versions| && version.index == base + m && version.modTime != versions[m].modTime
    ensures !(versions <= Put(versions, version))
  {
    if m > 0 {
      PutInside(versions[1..], base + 1, m - 1, version);
      assert versions == [versions[0]] + versions[1..];
    } else if versions[0].Name() != version.Name() {
      assert Put(versions[1..], version) == [version] + versions[1..];
    }
  }

  /** The number a store gives a new edit: its own next one if it skipped adoption. */
  function NextNumber(log: seq<Recorded>, from: nat): nat
    requires from <= |log|
  {
    if Content(log[..from]) == Content(log) then from else |log|
  }

  /** What a new edit writes: the version with that number, while there is one left. */
  lemma NewEditWrites(log: seq<Recorded>, from: nat, edit: Edit, planExitSeen: bool, events: seq<Event>, now: Time)
    requires WellTimed(log) && log != [] && from <= |log| && IsNew(log, edit) && edit.content != Content(log[..from])
    ensures SetPlanContent(PlanState(BookOf(log[..from]), Some(DiskOf(log)), events), Claude, planExitSeen, edit, now).disk ==
            if NextNumber(log, from) == MAX_PLAN_REVISIONS then Some(DiskOf(log))
            else Some(DiskOf(log).WriteVersion(PlanVersion(Diff(edit.content, Content(log)), NextNumber(log, from),
                                                           planExitSeen, edit.timestamp))
                                 .WriteLatest(edit.content))
  {
    hide Synced, Record, BookOf, VersionsOf, WellTimed;
    var known, before := log[..from], PlanState(BookOf(log[..from]), Some(DiskOf(log)), events);
    BookHolds(known);
    BookHolds(log);
    ContentIsText(log);
    WithinCap(log);
    CatchUp(log, from, events);
    NextIndexOf(known);
    NextIndexOf(log);
    NotReplayed(log, from, edit);
    var synced := Synced(before);
    if NextNumber(log, from) == MAX_PLAN_REVISIONS {
      RecordFullWritesNothing(synced.(book := synced.book.(content := edit.content)), planExitSeen, edit,
                              synced.book.content, now);
    } else {
      RecordWritesVersion(synced, planExitSeen, edit, now);
    }
  }

  lemma WithinCap(log: seq<Recorded>)
    requires WellTimed(log)
    ensures |log| <= MAX_PLAN_REVISIONS
  {
    if log != [] {
      assert Follows(log[..|log| - 1], log[|log| - 1].edit);
    }
  }

  lemma BookHolds(log: seq<Recorded>)
    ensures BookOf(log).content == Content(log) && |BookOf(log).revisions| == |log|
  {
  }

  lemma NotReplayed(log: seq<Recorded>, from: nat, edit: Edit)
    requires WellTimed(log) && from <= |log| && IsNew(log, edit)
    ensures !BookOf(log[..from]).IsReplay(edit.timestamp)
  {
    hide WellTimed, RevisionsOf;
    if from > 0 {
      if from < |log| { TimesIncrease(log, from - 1, |log| - 1); }
      LastTime(log[..from]);
    } else {
      BookHolds(log[..from]);
    }
  }

  lemma LastTime(log: seq<Recorded>)
    requires log != []
    ensures var revisions := BookOf(log).revisions;
            |revisions| == |log| && revisions[|log| - 1].timestamp == Last(log).edit.timestamp
  {
  }

  /** A new edit reaching a store keeps every version on disk exactly when the store does not lag or its content is
      not the one in latest.md: a lagging store with equal content skips adoption and reuses a number already taken. */
  lemma NewEditKeepsVersionsExactly(log: seq<Recorded>, from: nat, edit: Edit, planExitSeen: bool, events: seq<Event>,
                                    now: Time)
    requires WellTimed(log) && from <= |log| && IsNew(log, edit)
    ensures var before := PlanState(BookOf(log[..from]), Some(DiskOf(log)), events);
            var after := SetPlanContent(before, Claude, planExitSeen, edit, now);
            && after.disk.Some?
            && (DiskOf(log).versions <= after.disk.value.versions <==>
                from == |log| || Content(log[..from]) != Content(log))
  {
    hide WellTimed, BookOf, Record, Synced;
    BookHolds(log[..from]);
    WithinCap(log);
    if log == [] {
      FirstEditWrites(edit, planExitSeen, events, now);
    } else if edit.content != Content(log[..from]) {
      NewEditWrites(log, from, edit, planExitSeen, events, now);
      var version := PlanVersion(Diff(edit.content, Content(log)), NextNumber(log, from), planExitSeen, edit.timestamp);
      if NextNumber(log, from) < |log| {
        if from < |log| - 1 { TimesIncrease(log, from, |log| - 1); }
        PutInside(VersionsOf(log), 0, from, version) by { Numbered(log); NotLast(log, from); }
      } else {
        PutAtEnd(VersionsOf(log), version) by { Numbered(log); }
      }
    }
  }

  lemma FirstEditWrites(edit: Edit, planExitSeen: bool, events: seq<Event>, now: Time)
    ensures SetPlanContent(PlanState(BookOf([]), Some(DiskOf([])), events), Claude, planExitSeen, edit, now).disk.Some?
  {
  }

  /** A lagging store that holds the last content is at least two edits behind. */
  lemma NotLast(log: seq<Recorded>, from: nat)
    requires WellTimed(log) && from < |log| && Content(log[..from]) == Content(log)
    ensures from + 1 < |log|
  {
    assert Follows(log[..|log| - 1], log[|log| - 1].edit);
  }

  lemma RecordWritesVersion(synced: PlanState, planExitSeen: bool, edit: Edit, now: Time)
    requires synced.disk.Some? && |synced.book.revisions| < MAX_PLAN_REVISIONS
    requires synced.book.content != "" && synced.book.NextIndex() > 0 && edit.timestamp > 0
    ensures Record(synced.(book := synced.book.(content := edit.content)), planExitSeen, edit.content,
            synced.book.content, edit.timestamp, now).disk ==
            Some(synced.disk.value.WriteVersion(PlanVersion(Diff(edit.content, synced.book.content),
                synced.book.NextIndex(), planExitSeen, edit.timestamp)).WriteLatest(edit.content))
  {
  }

  /** With "a", "b", "a" on disk, a store still at the first "a" overwrites version 1 with its next edit. */
  lemma OverwriteExample()
    ensures var log := ThreeEdits("a");
            var after := SetPlanContent(PlanState(BookOf(log[..1]), Some(DiskOf(log)), []), Claude, false, Edit("d", 4), 0);
            after.disk.Some? && !(DiskOf(log).versions <= after.disk.value.versions)
  {
    ThreeEditsWellTimed("a");
    NewEditKeepsVersionsExactly(ThreeEdits("a"), 1, Edit("d", 4), false, [], 0);
  }
}
