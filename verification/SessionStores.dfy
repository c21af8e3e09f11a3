/** The store object (session/store.go): its sessions share nothing, so each line moves one of them, and a
    snapshot is taken and restored session by session. */
module SessionStores {
  import opened Types
  import opened SubagentJoin
  import opened TurnBuffers
  import opened Plans
  import opened Ledgers
  import opened Sessions
  import opened Snapshots
  import opened Stores

  /** The session is well formed, within `repr`, and goes by this id. */
  ghost predicate IsMember(id: Id, s: Session, repr: set<object>)
    reads repr
  {
    s in repr && s.Repr() <= repr && s.events in repr && s.turnsFinished in repr && s.Valid() && s.meta.sessionId == id
  }

  ghost predicate AllMembers(sessions: map<Id, Session>, repr: set<object>)
    reads repr
  {
    forall id :: id in sessions ==> IsMember(id, sessions[id], repr)
  }

  /** No object belongs to two sessions. */
  ghost predicate Apart(sessions: map<Id, Session>, repr: set<object>)
    requires AllMembers(sessions, repr)
    reads repr
  {
    forall id, other :: id in sessions && other in sessions && id != other ==>
      sessions[id].Repr() !! sessions[other].Repr()
  }

  ghost function ViewOf(sessions: map<Id, Session>, repr: set<object>): Store
    requires AllMembers(sessions, repr)
    reads repr
  {
    map id | id in sessions :: sessions[id].View()
  }

  lemma {:induction false} EventsKeepMeta(notes: Notes, events: seq<Event>)
    ensures NoteEvents(notes, events).meta == notes.meta
  {
    if events != [] { EventsKeepMeta(notes, events[..|events| - 1]); }
  }

  lemma ChatKeepsId(notes: Notes, turn: Turn)
    requires turn.meta.sessionId == notes.meta.sessionId
    ensures NoteChat(notes, turn).meta.sessionId == notes.meta.sessionId
  {
  }

  lemma SignalsKeepMeta(notes: Notes, disk: Option<PlanDisk>, turn: Turn, now: Time)
    ensures NotePlanTurn(NoteSignals(notes, turn), disk, turn, now).0.meta == notes.meta
  {
    hide SetPlanContent, ArriveAll, AddFileTouches, ApplyResults, NoteEvents;
    EventsKeepMeta(Prompted(notes, turn), turn.events);
  }

  /** A line keeps the id of the session it is told to. */
  lemma IngestKeepsId(desk: Desk, arrival: Arrival)
    requires arrival.turn.meta.sessionId == desk.ledger.notes.meta.sessionId
    ensures Ingest(desk, arrival).ledger.notes.meta.sessionId == desk.ledger.notes.meta.sessionId
  {
    hide ChargeMain, AddSubagentTurn, WindowEvents, NotePlanTurn, NoteSignals, AddFileTouches, NoteEvents, NoteChat;
    var notes, turn := desk.ledger.notes, arrival.turn;
    EventsKeepMeta(notes, turn.events);
    SignalsKeepMeta(notes, desk.disk, turn, arrival.now);
    ChatKeepsId(NotePlanTurn(NoteSignals(notes, turn), desk.disk, turn, arrival.now).0, turn);
  }

  lemma OwnsParts(s: Session)
    ensures s in s.Repr() && s.events in s.Repr() && s.turnsFinished in s.Repr()
  {
  }

  /** What a session reads as goes by the session's id. */
  lemma ViewNames(s: Session)
    ensures s.View().notes.meta == s.meta && s.View().accounts == s.accounts
  {
  }

  /** A session of its own joins the others, in place of the one that went by its id. */
  lemma PutIn(sessions: map<Id, Session>, repr: set<object>, s: Session)
    requires AllMembers(sessions, repr) && Apart(sessions, repr) && s.Valid() && s.Repr() !! repr
    ensures var (joined, grown) := (sessions[s.meta.sessionId := s], repr + s.Repr());
            && AllMembers(joined, grown) && Apart(joined, grown)
            && ViewOf(joined, grown) == ViewOf(sessions, repr)[s.meta.sessionId := s.View()]
  {
    hide Session.Valid, Session.View, Session.Repr;
    OwnsParts(s);
  }

  /** The other sessions are apart from the one that is about to move. */
  lemma TakenOut(sessions: map<Id, Session>, repr: set<object>, id: Id)
    requires AllMembers(sessions, repr) && Apart(sessions, repr) && id in sessions
    ensures var (rest, others) := (sessions - {id}, repr - sessions[id].Repr());
            && AllMembers(rest, others) && Apart(rest, others) && ViewOf(rest, others) == ViewOf(sessions, repr) - {id}
    ensures var s := sessions[id];
            s.Valid() && s.Repr() <= repr && s.View() == ViewOf(sessions, repr)[id] && s.View().notes.meta.sessionId == id
  {
    hide Session.Valid, Session.View, Session.Repr;
    forall other | other in sessions { OwnsParts(sessions[other]); }
    ViewNames(sessions[id]);
  }

  /** The store a snapshot stands for: each session under the id it carries. */
  ghost function StoreOf(snapshots: seq<SessionSnapshot>): Store {
    if snapshots == [] then map[]
    else
      var ledger := Restored(snapshots[|snapshots| - 1]);
      StoreOf(snapshots[..|snapshots| - 1])[ledger.notes.meta.sessionId := ledger]
  }

  ghost predicate EachResolvable(snapshots: seq<SessionSnapshot>) {
    forall i :: 0 <= i < |snapshots| ==> Resolvable(snapshots[i])
  }

  lemma StoreOfSnoc(snapshots: seq<SessionSnapshot>, snapshot: SessionSnapshot)
    ensures var ledger := Restored(snapshot);
            StoreOf(snapshots + [snapshot]) == StoreOf(snapshots)[ledger.notes.meta.sessionId := ledger]
  {
    assert (snapshots + [snapshot])[..|snapshots|] == snapshots;
  }

  lemma NothingWritten(sessions: map<Id, Session>, repr: set<object>)
    requires AllMembers(sessions, repr)
    ensures StoreOf([]) == ViewOf(sessions, repr) - sessions.Keys && EachResolvable([])
  {
    hide Session.Valid, Session.View, Session.Repr;
  }

  lemma OneLeft(store: Store, rest: set<Id>, id: Id)
    requires id in rest && id in store
    ensures (store - rest)[id := store[id]] == store - (rest - {id})
  {
  }

  lemma CreatedUnder(id: Id, agent: Agent, depth: Capacity, disk: Option<PlanDisk>)
    ensures NewLedger(id, agent, depth, disk).notes.meta.sessionId == id
  {
  }

  /** No two sessions share a plan directory. */
  ghost predicate OwnDirs(planDirs: map<Id, PlanDir>) {
    forall id, other :: id in planDirs && other in planDirs && id != other ==> planDirs[id] != planDirs[other]
  }

  /** A plan directory belongs to no session: other instances share it. */
  ghost predicate Outside(planDirs: map<Id, PlanDir>, repr: set<object>) {
    forall id :: id in planDirs ==> planDirs[id] !in repr
  }

  ghost function DisksOf(planDirs: map<Id, PlanDir>): map<Id, PlanDisk>
    reads planDirs.Values
  {
    map id | id in planDirs :: planDirs[id].Value()
  }

  /** One session and its directory moved as the turn says. */
  lemma TurnBeside(before: Office, after: Office, agent: Agent, depth: Capacity, arrival: Arrival)
    requires var id := arrival.turn.meta.sessionId;
             var disk := DiskIn(before.disks, id);
             var ledger := if id in before.store then before.store[id] else NewLedger(id, agent, depth, disk);
             var desk := Ingest(Desk(ledger, disk), arrival);
             && after.store == before.store[id := desk.ledger] && DiskIn(after.disks, id) == desk.disk
             && after.disks.Keys == before.disks.Keys
             && forall other :: other in before.disks && other != id ==> after.disks[other] == before.disks[other]
    requires arrival.turn.subagentId == "" || arrival.turn.meta.sessionId in before.store
    ensures after == AddTurnBeside(before, agent, depth, arrival)
  {
    hide Ingest, NewLedger;
  }

  lemma DropsBeside(office: Office, agent: Agent, depth: Capacity, arrival: Arrival)
    ensures arrival.turn.subagentId != "" && arrival.turn.meta.sessionId !in office.store ==>
              AddTurnBeside(office, agent, depth, arrival) == office
  {
    hide Ingest, NewLedger;
  }

  class SessionStore {
    const depth: Capacity
    /** The sessions' directories under the state directory, of those that are persisted. */
    const planDirs: map<Id, PlanDir>
    var sessions: map<Id, Session>
    ghost var repr: set<object>

    ghost predicate Valid()
      reads this, repr
    {
      && this !in repr && AllMembers(sessions, repr) && Apart(sessions, repr)
      && OwnDirs(planDirs) && Outside(planDirs, repr)
    }

    ghost function View(): Store
      requires Valid()
      reads this, repr
    {
      ViewOf(sessions, repr)
    }

    constructor (depth: Capacity, planDirs: map<Id, PlanDir>)
      requires OwnDirs(planDirs)
      ensures Valid() && repr == {} && View() == map[] && this.depth == depth && this.planDirs == planDirs
    {
      this.depth, this.planDirs := depth, planDirs;
      sessions, repr := map[], {};
    }

    function DirOf(id: Id): PlanDir? { if id in planDirs then planDirs[id] else null }

    /** A session of its own joins the store, in place of the one that went by its id. */
    method Put(s: Session)
      requires Valid() && s.Valid() && s.Repr() !! repr && this !in s.Repr()
      modifies this
      ensures Valid() && repr == old(repr) + s.Repr()
      ensures sessions == old(sessions)[s.meta.sessionId := s]
      ensures View() == old(View())[s.meta.sessionId := s.View()]
    {
      hide Session.Valid, Session.View, Session.Repr, AllMembers, Apart, ViewOf, OwnDirs;
      PutIn(sessions, repr, s);
      forall id | id in planDirs ensures planDirs[id] !in s.Repr() { s.NotOwned(planDirs[id]); }
      sessions, repr := sessions[s.meta.sessionId := s], repr + s.Repr();
    }

    /** A session that is known takes its line. */
    method Tell(id: Id, turn: Turn, now: Time)
      requires Valid() && id in sessions && turn.meta.sessionId == id
      modifies this`repr, repr, planDirs.Values
      ensures Valid() && forall o :: o in repr && o !in old(repr) ==> fresh(o)
      ensures var desk := Ingest(Desk(old(View()[id]), old(DiskOf(DirOf(id)))), Arrival(turn, now));
              View() == old(View())[id := desk.ledger] && DiskOf(DirOf(id)) == desk.disk
      ensures forall other :: other in planDirs && other != id ==> planDirs[other].Value() == old(planDirs[other].Value())
    {
      hide Session.Valid, Session.View, Session.Repr, AllMembers, Apart, ViewOf, Ingest;
      var s, dir := sessions[id], DirOf(id);
      ghost var (rest, others) := (sessions - {id}, repr - s.Repr());
      TakenOut(sessions, repr, id);
      IngestKeepsId(Desk(s.View(), DiskOf(dir)), Arrival(turn, now));
      assert dir == null || dir in planDirs.Values;
      s.AddTurnBySessionId(turn, now, dir);
      ViewNames(s);
      PutIn(rest, others, s);
      assert rest[id := s] == sessions;
      forall name | name in planDirs ensures planDirs[name] !in s.Repr() { s.NotOwned(planDirs[name]); }
      repr := others + s.Repr();
    }

    /** getOrCreate: a session seen for the first time takes over the plan in its directory. */
    method GetOrCreate(id: Id, agent: Agent)
      requires Valid()
      modifies this
      ensures Valid() && id in sessions && forall o :: o in repr && o !in old(repr) ==> fresh(o)
      ensures View() == if id in old(sessions) then old(View())
              else old(View())[id := NewLedger(id, agent, depth, DiskOf(DirOf(id)))]
    {
      hide Session.Valid, Session.View, Session.Repr, AllMembers, Apart, NewLedger, OwnDirs;
      if id !in sessions {
        var s := Create(id, agent, depth, DirOf(id));
        CreatedUnder(id, agent, depth, DiskOf(DirOf(id)));
        ViewNames(s);
        Put(s);
      }
    }

    ghost function ReadOffice(): Office
      requires Valid()
      reads this, repr, planDirs.Values
    {
      Office(View(), DisksOf(planDirs))
    }

    /** AddTurnBySessionId: the turn moves its own session and that session's directory. */
    method AddTurnBySessionId(agent: Agent, turn: Turn, now: Time)
      requires Valid()
      modifies this, repr, planDirs.Values
      ensures Valid() && forall o :: o in repr && o !in old(repr) ==> fresh(o)
      ensures ReadOffice() == AddTurnBeside(old(ReadOffice()), agent, depth, Arrival(turn, now))
    {
      hide Session.Valid, Session.View, Session.Repr, AllMembers, Apart, NewLedger, Ingest, OwnDirs, AddTurnBeside;
      var id := turn.meta.sessionId;
      DropsBeside(ReadOffice(), agent, depth, Arrival(turn, now));
      if turn.subagentId != "" && id !in sessions {
        return;
      }
      ghost var before := ReadOffice();
      DirHolds(id);
      GetOrCreate(id, agent);
      Tell(id, turn, now);
      DirHolds(id);
      TurnBeside(before, ReadOffice(), agent, depth, Arrival(turn, now));
    }

    lemma DirHolds(id: Id)
      ensures DiskOf(DirOf(id)) == DiskIn(DisksOf(planDirs), id)
    {
    }

    /** Reset. */
    method Reset()
      requires Valid()
      modifies this
      ensures Valid() && repr == old(repr) && View() == map[]
    {
      sessions := map[];
    }

    method SnapshotOfOne(id: Id) returns (snapshot: SessionSnapshot)
      requires Valid() && id in sessions
      ensures id in View() && Resolvable(snapshot) && Restored(snapshot) == View()[id]
      ensures View()[id].notes.meta.sessionId == id
    {
      hide Session.Valid, Session.View, Session.Repr, Apart, Consistent, Resolvable, Restored, SnapshotOf, OwnDirs, Outside;
      snapshot := NewSessionSnapshot(sessions[id]);
      ViewNames(sessions[id]);
      SnapshotRoundTrip(sessions[id].View());
    }

    /** WriteSnapshot: every session, in whatever order the map yields them. */
    method WriteSnapshot() returns (snapshots: seq<SessionSnapshot>)
      requires Valid()
      ensures EachResolvable(snapshots) && StoreOf(snapshots) == View()
    {
      hide AllMembers, Apart, Resolvable, Restored, OwnDirs, Outside, StoreOf, ViewOf, Session.Valid, Session.View,
          Session.Repr;
      snapshots := [];
      var rest := sessions.Keys;
      NothingWritten(sessions, repr);
      while rest != {}
        invariant rest <= sessions.Keys && EachResolvable(snapshots)
        invariant StoreOf(snapshots) == View() - rest
      {
        var id :| id in rest;
        var snapshot := SnapshotOfOne(id);
        StoreOfSnoc(snapshots, snapshot);
        OneLeft(View(), rest, id);
        snapshots, rest := snapshots + [snapshot], rest - {id};
      }
    }

    method RestoreOne(snapshot: SessionSnapshot)
      requires Valid() && Resolvable(snapshot)
      modifies this
      ensures Valid() && forall o :: o in repr && o !in old(repr) ==> fresh(o)
      ensures var ledger := Restored(snapshot); View() == old(View())[ledger.notes.meta.sessionId := ledger]
    {
      hide Session.Valid, Session.View, Session.Repr, AllMembers, Apart, ViewOf, Resolvable, Restored, OwnDirs, Outside;
      var s := Snapshots.Restore(snapshot);
      ViewNames(s);
      Put(s);
    }

    /** Restore: each session under the id it carries. */
    method Restore(snapshots: seq<SessionSnapshot>)
      requires Valid() && EachResolvable(snapshots)
      modifies this
      ensures Valid() && forall o :: o in repr && o !in old(repr) ==> fresh(o)
      ensures View() == old(View()) + StoreOf(snapshots)
    {
      hide Session.Valid, Session.View, Session.Repr, AllMembers, Apart, ViewOf, Resolvable, Restored, OwnDirs, Outside;
      for i := 0 to |snapshots|
        invariant Valid() && forall o :: o in repr && o !in old(repr) ==> fresh(o)
        invariant View() == old(View()) + StoreOf(snapshots[..i])
      {
        assert snapshots[..i + 1] == snapshots[..i] + [snapshots[i]];
        StoreOfSnoc(snapshots[..i], snapshots[i]);
        RestoreOne(snapshots[i]);
      }
      assert snapshots[..|snapshots|] == snapshots;
    }

    /** Going cold and warm again leaves the store as it was. */
    method Cycle()
      requires Valid()
      modifies this
      ensures Valid() && forall o :: o in repr && o !in old(repr) ==> fresh(o)
      ensures View() == old(View())
    {
      hide AllMembers, Apart, ViewOf, StoreOf;
      var snapshots := WriteSnapshot();
      Reset();
      Restore(snapshots);
    }
  }

  // ---- Runs ----

  /** What happens to a store: a line of some agent's arrives, or the instance cools down and warms up. */
  datatype StoreStep = Tell(agent: Agent, arrival: Arrival) | CoolAndWarm

  /** What the lines alone make of a store and its plan directories. */
  function Uninterrupted(disks: map<Id, PlanDisk>, depth: Capacity, steps: seq<StoreStep>): Office {
    if steps == [] then Office(map[], disks)
    else
      var before := Uninterrupted(disks, depth, steps[..|steps| - 1]);
      match steps[|steps| - 1]
      case Tell(agent, arrival) => AddTurnBeside(before, agent, depth, arrival)
      case CoolAndWarm => before
  }

  /** The lines a session hears, from the first of the main chain on, and that line's agent. */
  function HeardOf(steps: seq<StoreStep>, id: Id): seq<Arrival> {
    if steps == [] then []
    else
      var front, last := HeardOf(steps[..|steps| - 1], id), steps[|steps| - 1];
      if IsFor(last, id) && (front != [] || last.arrival.turn.subagentId == "") then front + [last.arrival] else front
  }

  predicate IsFor(step: StoreStep, id: Id) { step.Tell? && step.arrival.turn.meta.sessionId == id }

  function AgentOf(steps: seq<StoreStep>, id: Id): Agent
    requires HeardOf(steps, id) != []
  {
    if HeardOf(steps[..|steps| - 1], id) != [] then AgentOf(steps[..|steps| - 1], id) else steps[|steps| - 1].agent
  }

  /** A session and its directory after some lines. */
  ghost predicate StandsAt(office: Office, id: Id, ledger: Option<Ledger>, disk: Option<PlanDisk>) {
    Lookup(office.store, id) == ledger && DiskIn(office.disks, id) == disk
  }

  lemma TurnStandsAt(office: Office, agent: Agent, depth: Capacity, arrival: Arrival, id: Id, ledger: Option<Ledger>,
                     disk: Option<PlanDisk>)
    requires StandsAt(office, id, ledger, disk)
    ensures var after := AddTurnBeside(office, agent, depth, arrival);
            if arrival.turn.meta.sessionId != id || (ledger == None && arrival.turn.subagentId != "")
            then StandsAt(after, id, ledger, disk)
            else
              var desk := Ingest(Desk(if ledger.Some? then ledger.value else NewLedger(id, agent, depth, disk), disk), arrival);
              StandsAt(after, id, Some(desk.ledger), desk.disk)
  {
    hide Ingest, NewLedger;
    IngestKeepsDirectory(Desk(if ledger.Some? then ledger.value else NewLedger(id, agent, depth, disk), disk), arrival);
  }

  /** In any run each session is a new one of its first line's agent that ingested its own lines over its own directory;
      until its main chain is heard of there is none, and its directory stays as it was. */
  lemma {:induction false} EachSessionIsItsOwn(disks: map<Id, PlanDisk>, depth: Capacity, steps: seq<StoreStep>, id: Id)
    ensures var (office, heard, disk) := (Uninterrupted(disks, depth, steps), HeardOf(steps, id), DiskIn(disks, id));
            if heard == [] then StandsAt(office, id, None, disk)
            else
              var desk := IngestAll(Desk(NewLedger(id, AgentOf(steps, id), depth, disk), disk), heard);
              StandsAt(office, id, Some(desk.ledger), desk.disk)
  {
    hide Ingest, NewLedger, StandsAt, AddTurnBeside;
    if steps == [] {
      NobodyStands(disks, id);
    } else {
      var front, last := steps[..|steps| - 1], steps[|steps| - 1];
      EachSessionIsItsOwn(disks, depth, front, id);
      var office, heard, disk := Uninterrupted(disks, depth, front), HeardOf(front, id), DiskIn(disks, id);
      if last.Tell? {
        if heard == [] {
          TurnStandsAt(office, last.agent, depth, last.arrival, id, None, disk);
          IngestSnoc(Desk(NewLedger(id, last.agent, depth, disk), disk), [], last.arrival);
        } else {
          var start := Desk(NewLedger(id, AgentOf(front, id), depth, disk), disk);
          var desk := IngestAll(start, heard);
          TurnStandsAt(office, last.agent, depth, last.arrival, id, Some(desk.ledger), desk.disk);
          IngestSnoc(start, heard, last.arrival);
        }
      }
    }
  }

  lemma NobodyStands(disks: map<Id, PlanDisk>, id: Id)
    ensures StandsAt(Office(map[], disks), id, None, DiskIn(disks, id))
  {
  }

  /** In any run over any sessions, however often and wherever the instance goes cold and warm, the store and the plan
      directories that result are those a single uninterrupted ingest of the same lines leaves. */
  method Run(depth: Capacity, planDirs: map<Id, PlanDir>, steps: seq<StoreStep>) returns (store: SessionStore)
    requires OwnDirs(planDirs)
    modifies planDirs.Values
    ensures store.Valid() && store.planDirs == planDirs
    ensures store.ReadOffice() == Uninterrupted(old(DisksOf(planDirs)), depth, steps)
  {
    hide AllMembers, Apart, ViewOf, AddTurnBeside, OwnDirs;
    store := new SessionStore(depth, planDirs);
    for i := 0 to |steps|
      invariant store.Valid() && fresh(store) && fresh(store.repr) && store.depth == depth && store.planDirs == planDirs
      invariant store.ReadOffice() == Uninterrupted(old(DisksOf(planDirs)), depth, steps[..i])
    {
      assert steps[..i + 1][..i] == steps[..i];
      match steps[i]
      case Tell(agent, arrival) => store.AddTurnBySessionId(agent, arrival.turn, arrival.now);
      case CoolAndWarm => store.Cycle();
    }
    assert steps[..|steps|] == steps;
  }
}
