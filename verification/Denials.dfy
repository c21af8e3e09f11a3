/** Denials are counted whether or not the event buffer has room for them (session/session.go). */
module Denials {
  import opened Types
  import opened EventBuffers
  import opened SubagentJoin
  import opened Plans
  import opened Ledgers

  /** Of all events told, `denied` were denials: the counters saw every one, the buffer kept the first 2000. */
  ghost predicate Tallied(notes: Notes, denied: nat) {
    && notes.counters.permissionDenials + notes.counters.permissionCancellations == denied
    && notes.events.denialBudget == 2000
    && notes.events.denials == Min(denied, 2000)
  }

  lemma NoteEventTallies(notes: Notes, event: Event, denied: nat)
    requires Tallied(notes, denied)
    ensures Tallied(NoteEvent(notes, event), denied + if event.kind == PermissionDenied then 1 else 0)
  {
  }

  lemma {:induction false} NoteEventsTally(notes: Notes, events: seq<Event>, denied: nat)
    requires Tallied(notes, denied)
    ensures Tallied(NoteEvents(notes, events), denied + CountDenials(events))
  {
    hide Tallied, NoteEvent;
    if events != [] {
      NoteEventsTally(notes, events[..|events| - 1], denied);
      NoteEventTallies(NoteEvents(notes, events[..|events| - 1]), events[|events| - 1],
          denied + CountDenials(events[..|events| - 1]));
    }
  }

  // ---- Plan events are not denials ----

  lemma {:induction false} AdoptAnnounces(state: PlanState, versions: seq<PlanVersion>, next: nat)
    requires CountDenials(state.events) == 0
    ensures CountDenials(Adopt(state, versions, next).events) == 0
  {
    if versions != [] {
      var before, version := Adopt(state, versions[..|versions| - 1], next), versions[|versions| - 1];
      AdoptAnnounces(state, versions[..|versions| - 1], next);
      CountSnoc(before.events, Revised(Loaded(version)));
    }
  }

  lemma PlanAnnounces(state: PlanState, agent: Agent, planExitSeen: bool, edit: Edit, now: Time)
    requires CountDenials(state.events) == 0
    ensures CountDenials(SetPlanContent(state, agent, planExitSeen, edit, now).events) == 0
  {
    hide Adopt, CountDenials, Extended, Persisted;
    if state.disk.Some? {
      AdoptAnnounces(state, state.disk.value.versions, state.book.NextIndex());
    }
    var synced := Synced(state);
    var time := if edit.timestamp == 0 then now else edit.timestamp;
    var isAlteration := IsAlterationPhase(agent, planExitSeen, synced.book);
    CountSnoc(synced.events, Revised(PlanRevision(Diff(edit.content, synced.book.content), synced.book.NextIndex(),
        isAlteration, time)));
  }

  lemma {:induction false} ArrivalsKeepDenials(log: EventLog, events: seq<Event>)
    requires CountDenials(events) == 0
    ensures ArriveAll(log, events).denials == log.denials && ArriveAll(log, events).denialBudget == log.denialBudget
  {
    if events != [] { ArrivalsKeepDenials(log, events[..|events| - 1]); }
  }

  lemma PlanTurnTallies(notes: Notes, disk: Option<PlanDisk>, turn: Turn, now: Time, denied: nat)
    requires Tallied(notes, denied)
    ensures Tallied(NotePlanTurn(notes, disk, turn, now).0, denied)
  {
    hide SetPlanContent, ArriveAll;
    var named := notes.(planFilePath := turn.planFilePath);
    var edit := Edit(turn.planContent, turn.timestamp);
    PlanAnnounces(PlanStateOf(named, disk), notes.agent, notes.planExitSeen, edit, now);
    ArrivalsKeepDenials(notes.events,
        SetPlanContent(PlanStateOf(named, disk), notes.agent, notes.planExitSeen, edit, now).events);
  }

  // ---- Every run ----

  /** The line's events are told to the session; a title line's are not. */
  predicate TellsEvents(turn: Turn) { turn.subagentId != "" || turn.customTitle == "" }

  function Told(arrivals: seq<Arrival>): seq<Event> {
    if arrivals == [] then []
    else
      var before, turn := Told(arrivals[..|arrivals| - 1]), arrivals[|arrivals| - 1].turn;
      if TellsEvents(turn) then before + turn.events else before
  }

  lemma {:induction false} CountJoin(events: seq<Event>, more: seq<Event>)
    ensures CountDenials(events + more) == CountDenials(events) + CountDenials(more)
  {
    if more == [] {
      assert events + more == events;
    } else {
      assert (events + more)[..|events + more| - 1] == events + more[..|more| - 1];
      CountJoin(events, more[..|more| - 1]);
    }
  }

  lemma ChatTallies(notes: Notes, turn: Turn, denied: nat)
    requires Tallied(notes, denied)
    ensures Tallied(NoteChat(notes, turn), denied)
  {
    hide NoteEvent;
    var derived := NoteDerivedTitle(notes, turn);
    var change := ModelPayload(derived.meta.model, turn.meta.model);
    NoteEventTallies(derived, BareEvent(ModelChanged, turn.timestamp).(model := Some(change)), denied);
  }

  lemma MainTallies(notes: Notes, disk: Option<PlanDisk>, turn: Turn, now: Time, denied: nat)
    requires Tallied(notes, denied) && turn.customTitle == ""
    ensures Tallied(NoteMain(notes, disk, turn, now).0, denied + CountDenials(turn.events))
  {
    hide NoteEvents, NotePlanTurn, NoteChat;
    NoteEventsTally(Prompted(notes, turn), turn.events, denied);
    var signalled := NoteSignals(notes, turn);
    PlanTurnTallies(signalled, disk, turn, now, denied + CountDenials(turn.events));
    ChatTallies(NotePlanTurn(signalled, disk, turn, now).0, turn, denied + CountDenials(turn.events));
  }

  lemma IngestTallies(desk: Desk, arrival: Arrival, denied: nat)
    requires Tallied(desk.ledger.notes, denied)
    ensures Tallied(Ingest(desk, arrival).ledger.notes,
                    denied + if TellsEvents(arrival.turn) then CountDenials(arrival.turn.events) else 0)
  {
    hide NoteEvents, NoteSignals, NotePlanTurn, NoteChat, ChargeMain, AddSubagentTurn, WindowEvents;
    var turn := arrival.turn;
    if turn.subagentId != "" {
      NoteEventsTally(desk.ledger.notes, turn.events, denied);
    } else if turn.customTitle == "" {
      MainTallies(desk.ledger.notes, desk.disk, turn, arrival.now, denied);
    }
  }

  /** In every run denials and cancellations together are the denied events ever told, however many the
      buffer could keep: it holds the first 2000 of them. */
  lemma {:induction false} DenialsAreCounted(desk: Desk, arrivals: seq<Arrival>)
    requires Tallied(desk.ledger.notes, 0)
    ensures Tallied(IngestAll(desk, arrivals).ledger.notes, CountDenials(Told(arrivals)))
  {
    hide Tallied, Ingest;
    if arrivals != [] {
      var front, arrival := arrivals[..|arrivals| - 1], arrivals[|arrivals| - 1];
      DenialsAreCounted(desk, front);
      IngestTallies(IngestAll(desk, front), arrival, CountDenials(Told(front)));
      CountJoin(Told(front), arrival.turn.events);
    }
  }
}
