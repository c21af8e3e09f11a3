/** What every session keeps within bounds (session/session.go, session/store.go): its lists, its title, its idle time. */
module Bounds {
  import opened Types
  import opened EventBuffers
  import opened Maps
  import opened SubagentJoin
  import opened Plans
  import opened Ledgers

  // ---- Lists ----

  ghost predicate FitsNotes(notes: Notes) {
    notes.events.Valid() && notes.events.capacity == 3000 && |notes.touchedFiles| <= 2000
  }

  ghost predicate FitsAccounts(a: Accounts) {
    && |a.skills| <= 200 && |a.subagents| <= 300
    && forall id :: id in a.subagents ==> |a.subagents[id].touchedFiles| <= 2000
  }

  lemma {:induction false} TouchesFit(files: Touches, touches: seq<FileTouch>)
    requires |files| <= MAX_TOUCHED_FILES
    ensures |AddFileTouches(files, touches)| <= MAX_TOUCHED_FILES
  {
    if touches != [] {
      var before, touch := AddFileTouches(files, touches[..|touches| - 1]), touches[|touches| - 1];
      TouchesFit(files, touches[..|touches| - 1]);
      var counts := if touch.path in before then before[touch.path] else FileTouchCounts(0, 0);
      SizeAfterPut(before, touch.path, if touch.write then counts.(writeCount := counts.writeCount + 1)
                                       else counts.(readCount := counts.readCount + 1));
    }
  }

  lemma {:induction false} EventsFit(notes: Notes, events: seq<Event>)
    requires FitsNotes(notes)
    ensures FitsNotes(NoteEvents(notes, events))
  {
    if events != [] {
      EventsFit(notes, events[..|events| - 1]);
      ArriveKeepsValid(NoteEvents(notes, events[..|events| - 1]).events, events[|events| - 1]);
    }
  }

  lemma {:induction false} ArrivalsFit(log: EventLog, events: seq<Event>)
    requires log.Valid()
    ensures ArriveAll(log, events).Valid() && ArriveAll(log, events).capacity == log.capacity
  {
    if events != [] {
      ArrivalsFit(log, events[..|events| - 1]);
      ArriveKeepsValid(ArriveAll(log, events[..|events| - 1]), events[|events| - 1]);
    }
  }

  lemma SignalsFit(notes: Notes, turn: Turn)
    requires FitsNotes(notes)
    ensures FitsNotes(NoteSignals(notes, turn))
  {
    hide NoteEvents, EventLog.Valid, AddFileTouches, TurnBuffers.ApplyResults;
    var told := NoteEvents(Prompted(notes, turn), turn.events);
    EventsFit(Prompted(notes, turn), turn.events);
    TouchesFit(told.touchedFiles, turn.fileTouches);
  }

  lemma PlanTurnFits(notes: Notes, disk: Option<PlanDisk>, turn: Turn, now: Time)
    requires FitsNotes(notes)
    ensures FitsNotes(NotePlanTurn(notes, disk, turn, now).0)
  {
    hide SetPlanContent, ArriveAll, EventLog.Valid;
    var named := notes.(planFilePath := turn.planFilePath);
    ArrivalsFit(notes.events,
                SetPlanContent(PlanStateOf(named, disk), named.agent, named.planExitSeen,
                    Edit(turn.planContent, turn.timestamp), now).events);
  }

  lemma ChatFits(notes: Notes, turn: Turn)
    requires FitsNotes(notes)
    ensures FitsNotes(NoteChat(notes, turn))
  {
    hide Arrive, EventLog.Valid, TurnBuffers.Scope.Append;
    var derived := NoteDerivedTitle(notes, turn);
    var event := BareEvent(ModelChanged, turn.timestamp).(model := Some(ModelPayload(derived.meta.model, turn.meta.model)));
    ArriveKeepsValid(derived.events, event);
    ArriveKeepsCapacity(derived.events, event);
  }

  lemma MainNotesFit(notes: Notes, disk: Option<PlanDisk>, turn: Turn, now: Time)
    requires FitsNotes(notes)
    ensures FitsNotes(NoteMain(notes, disk, turn, now).0)
  {
    hide NoteSignals, NotePlanTurn, NoteChat, EventLog.Valid;
    SignalsFit(notes, turn);
    PlanTurnFits(NoteSignals(notes, turn), disk, turn, now);
    ChatFits(NotePlanTurn(NoteSignals(notes, turn), disk, turn, now).0, turn);
  }

  lemma ArriveKeepsCapacity(log: EventLog, event: Event)
    ensures Arrive(log, event).capacity == log.capacity
  {
  }

  lemma {:induction false} WindowsFit(a: Accounts, events: seq<Event>)
    requires FitsAccounts(a)
    ensures FitsAccounts(WindowEvents(a, events))
  {
    if events != [] { WindowsFit(a, events[..|events| - 1]); }
  }

  lemma SubagentFits(a: Accounts, depth: TurnBuffers.Capacity, turn: Turn)
    requires FitsAccounts(a)
    ensures FitsAccounts(AddSubagentTurn(a, depth, turn))
  {
    hide Charge, SubagentSeen;
    var id := turn.subagentId;
    SizeAfterPut(a.subagents, id, NewSubagent(depth));
    var known := Admitted(a, depth, id);
    if id in known.subagents {
      SeenFits(known.subagents[id], turn);
      SizeAfterPut(known.subagents, id, SubagentSeen(known.subagents[id], turn));
      ChargeFits(Seen(known, id, turn), SubagentCell(id), id, turn);
    }
  }

  lemma {:induction false} DescribedTouches(row: SubagentRow, events: seq<Event>)
    ensures Described(row, events).touchedFiles == row.touchedFiles
  {
    if events != [] { DescribedTouches(row, events[..|events| - 1]); }
  }

  lemma SeenFits(row: SubagentRow, turn: Turn)
    requires |row.touchedFiles| <= MAX_TOUCHED_FILES
    ensures |SubagentSeen(row, turn).touchedFiles| <= MAX_TOUCHED_FILES
  {
    hide Described, AddFileTouches;
    TouchesFit(row.touchedFiles, turn.fileTouches);
    var answered := TurnBuffers.ApplyResults(row.scope, turn.toolResults);
    var scope := if turn.role != NoRole then answered.Append(Kept(turn)) else answered;
    var modelled := row.(scope := scope, model := if turn.meta.model != "" then turn.meta.model else row.model);
    var dated := if turn.timestamp == 0 then modelled
                 else modelled.(firstActive := if row.firstActive == 0 then turn.timestamp else row.firstActive,
                                lastActive := turn.timestamp);
    DescribedTouches(dated, turn.events);
  }

  lemma CloseFits(a: Accounts, actor: string, timestamp: Time)
    requires FitsAccounts(a)
    ensures FitsAccounts(CloseSkillWindow(a, actor, timestamp))
  {
  }

  lemma ChargeFits(a: Accounts, owner: Target, actor: string, turn: Turn)
    requires FitsAccounts(a)
    ensures FitsAccounts(Charge(a, owner, actor, turn))
  {
    hide Applied;
  }

  lemma MainAccountsFit(a: Accounts, notes: Notes, turn: Turn)
    requires FitsAccounts(a)
    ensures FitsAccounts(ChargeMain(a, notes, turn))
  {
    hide WindowEvents, Charge, CloseSkillWindow;
    CloseFits(a, "", turn.timestamp);
    WindowsFit(Bounded(a, notes, turn), turn.events);
    var signalled := WindowSignals(a, notes, turn);
    ChargeFits(signalled, SessionCell, "", turn);
    CloseFits(Charge(signalled, SessionCell, "", turn), "", turn.timestamp);
  }

  lemma IngestFits(desk: Desk, arrival: Arrival)
    requires FitsNotes(desk.ledger.notes) && FitsAccounts(desk.ledger.accounts)
    ensures FitsNotes(Ingest(desk, arrival).ledger.notes) && FitsAccounts(Ingest(desk, arrival).ledger.accounts)
  {
    hide NoteEvents, WindowEvents, NoteMain, ChargeMain, AddSubagentTurn, EventLog.Valid, AddFileTouches;
    var notes, a, turn := desk.ledger.notes, desk.ledger.accounts, arrival.turn;
    if turn.subagentId != "" {
      EventsFit(notes, turn.events);
      TouchesFit(NoteEvents(notes, turn.events).touchedFiles, turn.fileTouches);
      WindowsFit(a, turn.events);
      SubagentFits(WindowEvents(a, turn.events), NoteEvents(notes, turn.events).scope.ring.capacity, turn);
    } else {
      MainNotesFit(notes, desk.disk, turn, arrival.now);
      MainAccountsFit(a, notes, turn);
    }
  }

  /** In every run a session stays within its limits: 3000 events, 200 skills, 300 sub-agents, 2000 files
      touched by each stream. */
  lemma {:induction false} SessionsStayBounded(desk: Desk, arrivals: seq<Arrival>)
    requires FitsNotes(desk.ledger.notes) && FitsAccounts(desk.ledger.accounts)
    ensures var ledger := IngestAll(desk, arrivals).ledger;
            FitsNotes(ledger.notes) && FitsAccounts(ledger.accounts) && |ledger.notes.events.items| <= 3000
  {
    hide Ingest;
    if arrivals != [] {
      SessionsStayBounded(desk, arrivals[..|arrivals| - 1]);
      IngestFits(IngestAll(desk, arrivals[..|arrivals| - 1]), arrivals[|arrivals| - 1]);
    }
  }

  // ---- Touched files ----

  function CountTouches(touches: seq<FileTouch>, path: string, write: bool): nat {
    if touches == [] then 0
    else CountTouches(touches[..|touches| - 1], path, write) + if touches[|touches| - 1] == FileTouch(path, write) then 1 else 0
  }

  /** A path that is kept has all its reads and writes counted; one that is not was never touched, or came when
      2000 others were known. */
  lemma {:induction false} TouchesAreCounted(touches: seq<FileTouch>, path: string)
    ensures var files := AddFileTouches(map[], touches);
            var counts := FileTouchCounts(CountTouches(touches, path, false), CountTouches(touches, path, true));
            if path in files then files[path] == counts
            else counts == FileTouchCounts(0, 0) || |files| == 2000
  {
    if touches != [] {
      var front, touch := touches[..|touches| - 1], touches[|touches| - 1];
      TouchesAreCounted(front, path);
      TouchesFit(map[], front);
      if touch.path != path {
        TouchKeepsOthers(AddFileTouches(map[], front), touch, path);
      }
    }
  }

  lemma TouchKeepsOthers(files: Touches, touch: FileTouch, path: string)
    requires touch.path != path && |files| <= MAX_TOUCHED_FILES
    ensures var r := AddFileTouch(files, touch);
            && (path in r <==> path in files) && (path in r ==> r[path] == files[path])
            && (|files| == MAX_TOUCHED_FILES ==> |r| == MAX_TOUCHED_FILES)
  {
    var counts := if touch.path in files then files[touch.path] else FileTouchCounts(0, 0);
    SizeAfterPut(files, touch.path, counts.(writeCount := counts.writeCount + 1));
    SizeAfterPut(files, touch.path, counts.(readCount := counts.readCount + 1));
  }

  // ---- The title ----

  /** `after` is named from a source of at least the rank `notes` had; only a title line or a first prompt renames it. */
  predicate MayRename(notes: Notes, after: Notes, turn: Turn) {
    && Rank(after.titleSource) >= Rank(notes.titleSource)
    && (after.title != notes.title ==> after.title != "" && (turn.customTitle != "" || notes.title == ""))
    && (after.title == "" ==> Rank(after.titleSource) == 0)
  }

  predicate SameTitle(notes: Notes, after: Notes) { after.title == notes.title && after.titleSource == notes.titleSource }

  lemma SignalsKeepTitle(notes: Notes, disk: Option<PlanDisk>, turn: Turn, now: Time)
    ensures SameTitle(notes, NotePlanTurn(NoteSignals(notes, turn), disk, turn, now).0)
  {
    hide SetPlanContent, NoteEvents, ArriveAll, AddFileTouches, TurnBuffers.ApplyResults;
    EventsKeepTitle(Prompted(notes, turn), turn.events);
  }

  lemma MainRenames(notes: Notes, disk: Option<PlanDisk>, turn: Turn, now: Time)
    requires notes.title == "" ==> Rank(notes.titleSource) == 0
    ensures MayRename(notes, NoteMain(notes, disk, turn, now).0, turn)
  {
    hide NotePlanTurn, NoteSignals, NoteModelChange, NoteTurn, Ledgers.DeriveTitle;
    SignalsKeepTitle(notes, disk, turn, now);
    var planned := NotePlanTurn(NoteSignals(notes, turn), disk, turn, now).0;
    ChatKeepsTitle(NoteDerivedTitle(planned, turn), turn);
  }

  /** In every line: a session is renamed only from a source of at least the same rank. */
  lemma TitleRankNeverFalls(desk: Desk, arrival: Arrival)
    requires desk.ledger.notes.title == "" ==> Rank(desk.ledger.notes.titleSource) == 0
    ensures MayRename(desk.ledger.notes, Ingest(desk, arrival).ledger.notes, arrival.turn)
  {
    hide ChargeMain, AddSubagentTurn, WindowEvents, NoteMain, NoteEvents, AddFileTouches;
    if arrival.turn.subagentId == "" {
      MainRenames(desk.ledger.notes, desk.disk, arrival.turn, arrival.now);
    } else {
      EventsKeepTitle(desk.ledger.notes, arrival.turn.events);
    }
  }

  lemma {:induction false} EventsKeepTitle(notes: Notes, events: seq<Event>)
    ensures NoteEvents(notes, events).title == notes.title && NoteEvents(notes, events).titleSource == notes.titleSource
  {
    if events != [] { EventsKeepTitle(notes, events[..|events| - 1]); }
  }

  lemma ChatKeepsTitle(notes: Notes, turn: Turn)
    ensures var r := NoteTurn(NoteModelChange(notes, turn), turn); r.title == notes.title && r.titleSource == notes.titleSource
  {
  }

  lemma FirstLineStep(s: string)
    ensures FirstLine(s) == if s == "" || s[0] == '\n' then "" else [s[0]] + FirstLine(s[1..])
  {
  }

  lemma {:induction false} FirstLineIs(s: string) returns (rest: string)
    ensures s == FirstLine(s) + rest && '\n' !in FirstLine(s) && (rest == "" || rest[0] == '\n')
  {
    hide FirstLine;
    FirstLineStep(s);
    if s == "" || s[0] == '\n' {
      rest := s;
    } else {
      rest := FirstLineIs(s[1..]);
      assert s == [s[0]] + s[1..] == [s[0]] + FirstLine(s[1..]) + rest;
    }
  }

  ghost predicate AllSpaces(s: string) { forall i :: 0 <= i < |s| ==> IsSpace(s[i]) }

  lemma TrimLeftStep(s: string)
    ensures TrimLeft(s) == if s != "" && IsSpace(s[0]) then TrimLeft(s[1..]) else s
  {
    hide IsSpace;
  }

  lemma SpacesCons(c: char, s: string)
    requires IsSpace(c) && AllSpaces(s)
    ensures AllSpaces([c] + s)
  {
    hide IsSpace;
  }

  lemma {:induction false} TrimLeftIs(s: string) returns (pre: string)
    ensures s == pre + TrimLeft(s) && AllSpaces(pre)
    ensures TrimLeft(s) != "" ==> !IsSpace(TrimLeft(s)[0])
  {
    hide IsSpace, TrimLeft, AllSpaces;
    TrimLeftStep(s);
    if s != "" && IsSpace(s[0]) {
      var rest := TrimLeftIs(s[1..]);
      SpacesCons(s[0], rest);
      pre := [s[0]] + rest;
      assert s == [s[0]] + s[1..] == [s[0]] + rest + TrimLeft(s[1..]);
    } else {
      pre := "";
      NoSpaces();
    }
  }

  lemma NoSpaces()
    ensures AllSpaces("")
  {
  }

  lemma {:induction false} TrimSpaceIs(s: string) returns (pre: string, post: string)
    ensures s == pre + TrimSpace(s) + post && AllSpaces(pre) && AllSpaces(post)
    ensures var line := TrimSpace(s); line != "" ==> !IsSpace(line[0]) && !IsSpace(line[|line| - 1])
    decreases |s|
  {
    hide IsSpace;
    if s != "" && IsSpace(s[|s| - 1]) {
      var more: string;
      pre, more := TrimSpaceIs(s[..|s| - 1]);
      post := more + [s[|s| - 1]];
      assert s == s[..|s| - 1] + [s[|s| - 1]];
    } else {
      pre := TrimLeftIs(s);
      post := "";
      var line := TrimLeft(s);
      assert line != "" ==> line[|line| - 1] == s[|s| - 1];
    }
  }

  /** Of a text of blanks, tabs and line ends nothing is left, and a text with none of them at its ends is left alone. */
  lemma {:induction false} BlanksAreTrimmed(s: string)
    ensures (forall i :: 0 <= i < |s| ==> s[i] in {' ', '\t', '\n', '\r', '\U{0B}', '\U{0C}', '\U{85}', '\U{A0}'}) ==>
              TrimSpace(s) == ""
    ensures s != "" && '!' <= s[0] <= '~' && '!' <= s[|s| - 1] <= '~' ==> TrimSpace(s) == s
    decreases |s|
  {
    if s != "" && IsSpace(s[|s| - 1]) { BlanksAreTrimmed(s[..|s| - 1]); }
  }

  /** `line` is the text's first line without the spaces around it. */
  ghost predicate IsTitleLine(text: string, pre: string, line: string, post: string, rest: string) {
    && text == pre + line + post + rest && AllSpaces(pre) && AllSpaces(post)
    && '\n' !in pre + line + post && (rest == "" || rest[0] == '\n')
    && (line != "" ==> !IsSpace(line[0]) && !IsSpace(line[|line| - 1]))
  }

  /** A derived title is the beginning, 80 characters at most, of the first line without the spaces around it; a line
      of markup and the heading of an AGENTS.md yield none. */
  lemma DerivedTitleIsALine(text: string)
    ensures exists pre, line, post, rest ::
              && IsTitleLine(text, pre, line, post, rest)
              && (("<" <= line || "# AGENTS.md" <= line) ==> DeriveTitle(text) == "")
              && (!("<" <= line || "# AGENTS.md" <= line) ==>
                    DeriveTitle(text) <= line && |DeriveTitle(text)| == if |line| < 80 then |line| else 80)
  {
    hide IsSpace, TrimSpace, FirstLine;
    var first := FirstLine(text);
    var rest := FirstLineIs(text);
    var pre, post := TrimSpaceIs(first);
    assert IsTitleLine(text, pre, TrimSpace(first), post, rest);
  }

  // ---- Idle time ----

  /** The idle gaps lie between the first dated turn and the last. */
  predicate IdleFits(notes: Notes) {
    if notes.startedAt == 0 then notes.idle == 0 && notes.lastActive == 0
    else notes.startedAt <= notes.lastActive && notes.idle <= notes.lastActive - notes.startedAt
  }

  /** A later turn keeps the idle time within the session's span. */
  lemma TurnKeepsIdle(notes: Notes, turn: Turn)
    requires IdleFits(notes) && (turn.timestamp != 0 ==> notes.lastActive <= turn.timestamp)
    ensures IdleFits(NoteTurn(notes, turn))
  {
  }

  /** A dated title line breaks it exactly when it comes before every dated turn: it sets the last activity without a start. */
  lemma TitleKeepsIdleExactly(notes: Notes, turn: Turn)
    requires IdleFits(notes)
    ensures IdleFits(NoteTitle(notes, turn)) <==> notes.startedAt != 0 || turn.timestamp == 0
  {
  }

  /** Then the gap up to the first turn counts as idle time of a session that has not begun. */
  lemma IdleBeforeTheStart(notes: Notes, title: Turn, turn: Turn)
    requires notes.startedAt == 0 && notes.lastActive == 0 && notes.idle == 0
    requires title.timestamp != 0 && turn.timestamp >= title.timestamp + 300
    ensures var r := NoteTurn(NoteTitle(notes, title), turn);
            r.startedAt == r.lastActive == turn.timestamp && r.idle == turn.timestamp - title.timestamp
  {
  }
}
