/** What a session has noted (session/session.go, session/store.go), read off its lines alone: dates and idle time, names,
    title, events and their counters, plan, files and turns, and the row of every sub-agent. */
module SessionNotes {
  import opened Types
  import opened EventBuffers
  import opened SubagentJoin
  import opened TurnBuffers
  import opened Plans
  import opened Ledgers
  import SkillWindows

  // ---- The lines of a stream ----

  /** A line that may carry a title and nothing else. */
  predicate IsTitleLine(turn: Turn) { turn.subagentId == "" && turn.customTitle != "" }

  predicate IsMainLine(turn: Turn) { turn.subagentId == "" && turn.customTitle == "" }

  /** The chat lines of the main chain. */
  function Chats(arrivals: seq<Arrival>): seq<Turn> {
    if arrivals == [] then []
    else
      var front, turn := Chats(arrivals[..|arrivals| - 1]), arrivals[|arrivals| - 1].turn;
      if SkillWindows.IsChatLine(turn) then front + [turn] else front
  }

  /** The lines of a sub-agent. */
  function LinesOf(arrivals: seq<Arrival>, id: string): seq<Turn> {
    if arrivals == [] then []
    else
      var front, turn := LinesOf(arrivals[..|arrivals| - 1], id), arrivals[|arrivals| - 1].turn;
      if turn.subagentId == id then front + [turn] else front
  }

  function FirstTime(turns: seq<Turn>): Time {
    if turns == [] then 0
    else
      var front := FirstTime(turns[..|turns| - 1]);
      if front != 0 then front else turns[|turns| - 1].timestamp
  }

  function LastTime(turns: seq<Turn>): Time {
    if turns == [] then 0
    else if turns[|turns| - 1].timestamp != 0 then turns[|turns| - 1].timestamp
    else LastTime(turns[..|turns| - 1])
  }

  const MODEL := 3

  function Names(meta: Meta): (names: seq<string>)
    ensures |names| == 5
  {
    [meta.sessionId, meta.cwd, meta.gitBranch, meta.model, meta.project]
  }

  /** The last of the lines that says the k-th name has it. */
  function LastName(turns: seq<Turn>, k: nat, first: string): string
    requires k < 5
  {
    if turns == [] then first
    else if Names(turns[|turns| - 1].meta)[k] != "" then Names(turns[|turns| - 1].meta)[k]
    else LastName(turns[..|turns| - 1], k, first)
  }

  function LastOrigin(turns: seq<Turn>): Option<Origin> {
    if turns == [] then None
    else if turns[|turns| - 1].meta.origin.Some? then turns[|turns| - 1].meta.origin
    else LastOrigin(turns[..|turns| - 1])
  }

  lemma SnocTurns(turns: seq<Turn>, turn: Turn)
    ensures FirstTime(turns + [turn]) == if FirstTime(turns) != 0 then FirstTime(turns) else turn.timestamp
    ensures LastTime(turns + [turn]) == if turn.timestamp != 0 then turn.timestamp else LastTime(turns)
    ensures LastOrigin(turns + [turn]) == if turn.meta.origin.Some? then turn.meta.origin else LastOrigin(turns)
    ensures forall k: nat, first: string :: k < 5 ==>
              LastName(turns + [turn], k, first) ==
              if Names(turn.meta)[k] != "" then Names(turn.meta)[k] else LastName(turns, k, first)
  {
    hide Names;
    assert (turns + [turn])[..|turns|] == turns;
  }

  // ---- Dates and idle time ----

  /** The times that count as activity: those of dated chat lines, and a title line's while there is none yet. */
  function Activity(arrivals: seq<Arrival>): seq<Time> {
    if arrivals == [] then []
    else
      var front, turn := Activity(arrivals[..|arrivals| - 1]), arrivals[|arrivals| - 1].turn;
      if turn.timestamp != 0 && (SkillWindows.IsChatLine(turn) || (IsTitleLine(turn) && front == []))
      then front + [turn.timestamp] else front
  }

  /** The gaps of five minutes and more; a title line opens one but closes none. */
  function Gaps(times: seq<Time>): nat {
    if |times| < 2 then 0
    else
      var before, last := times[|times| - 2], times[|times| - 1];
      if last >= before + 300 then Gaps(times[..|times| - 1]) + (last - before) else Gaps(times[..|times| - 1])
  }

  ghost predicate DatesAre(notes: Notes, arrivals: seq<Arrival>) {
    var activity := Activity(arrivals);
    && notes.startedAt == FirstTime(Chats(arrivals))
    && notes.lastActive == (if activity == [] then 0 else activity[|activity| - 1])
    && notes.idle == Gaps(activity)
  }

  predicate SameDates(notes: Notes, after: Notes) {
    after.startedAt == notes.startedAt && after.lastActive == notes.lastActive && after.idle == notes.idle
  }

  lemma {:induction false} EventsKeep(notes: Notes, events: seq<Event>)
    ensures NoteEvents(notes, events) ==
            notes.(events := NoteEvents(notes, events).events, counters := NoteEvents(notes, events).counters,
                   planExitSeen := NoteEvents(notes, events).planExitSeen)
  {
    hide Arrive, Counted;
    if events != [] { EventsKeep(notes, events[..|events| - 1]); }
  }

  /** Up to the plan a line's signals only touch what they are about. */
  lemma SignalsKeep(notes: Notes, turn: Turn)
    ensures var r := NoteSignals(notes, turn);
            && SameDates(notes, r) && r.meta == notes.meta && r.title == notes.title && r.titleSource == notes.titleSource
            && r.agent == notes.agent && PlanBookOf(r).content == notes.planContent && r.planRevisions == notes.planRevisions
            && r.planFilePath == notes.planFilePath
  {
    hide NoteEvents, AddFileTouches, ApplyResults;
    EventsKeep(Prompted(notes, turn), turn.events);
  }

  lemma PlanKeeps(notes: Notes, disk: Option<PlanDisk>, turn: Turn, now: Time)
    ensures var r := NotePlanTurn(notes, disk, turn, now).0;
            && SameDates(notes, r) && r.meta == notes.meta && r.title == notes.title && r.titleSource == notes.titleSource
            && r.agent == notes.agent && r.filePath == notes.filePath && r.currentPromptId == notes.currentPromptId
            && r.planExitSeen == notes.planExitSeen && r.touchedFiles == notes.touchedFiles && r.scope == notes.scope
            && r.planFilePath == (if turn.planFilePath != "" then turn.planFilePath else notes.planFilePath)
  {
    hide SetPlanContent, ArriveAll;
  }

  lemma TurnDates(notes: Notes, turn: Turn)
    ensures var r := NoteTurn(notes, turn);
            && r.startedAt == (if notes.startedAt == 0 then turn.timestamp else notes.startedAt)
            && r.lastActive == (if turn.timestamp != 0 then turn.timestamp else notes.lastActive)
            && r.idle == notes.idle + (if turn.timestamp != 0 && notes.lastActive != 0
                && turn.timestamp - notes.lastActive >= 300
                                       then turn.timestamp - notes.lastActive else 0)
  {
    hide Meta.Update, Scope.Append;
  }

  lemma ChatDates(notes: Notes, turn: Turn)
    ensures var r := NoteModelChange(NoteDerivedTitle(notes, turn), turn);
            SameDates(notes, r) && NoteChat(notes, turn) == NoteTurn(r, turn)
  {
    hide Arrive, Counted, DeriveTitle, NoteTurn;
  }

  lemma IngestDates(desk: Desk, arrival: Arrival)
    ensures var (notes, after, turn) := (desk.ledger.notes, Ingest(desk, arrival).ledger.notes, arrival.turn);
            if SkillWindows.IsChatLine(turn) then
              && after.startedAt == (if notes.startedAt == 0 then turn.timestamp else notes.startedAt)
              && after.lastActive == (if turn.timestamp != 0 then turn.timestamp else notes.lastActive)
              && after.idle == notes.idle + (if turn.timestamp != 0 && notes.lastActive != 0
                  && turn.timestamp - notes.lastActive >= 300
                                             then turn.timestamp - notes.lastActive else 0)
            else if IsTitleLine(turn) then
              && after.startedAt == notes.startedAt && after.idle == notes.idle
              && after.lastActive == if notes.lastActive == 0 then turn.timestamp else notes.lastActive
            else SameDates(notes, after)
  {
    hide NoteEvents, NoteSignals, NotePlanTurn, NoteChat, NoteTurn, ChargeMain, AddSubagentTurn, WindowEvents, AddFileTouches,
         NoteModelChange, NoteDerivedTitle;
    var notes, turn := desk.ledger.notes, arrival.turn;
    EventsKeep(notes, turn.events);
    SignalsKeep(notes, turn);
    PlanKeeps(NoteSignals(notes, turn), desk.disk, turn, arrival.now);
    var planned := NotePlanTurn(NoteSignals(notes, turn), desk.disk, turn, arrival.now).0;
    ChatDates(planned, turn);
    TurnDates(NoteModelChange(NoteDerivedTitle(planned, turn), turn), turn);
  }

  lemma GapsSnoc(times: seq<Time>, time: Time)
    ensures Gaps(times + [time]) ==
            Gaps(times) + if times != [] && time - times[|times| - 1] >= 300 then time - times[|times| - 1] else 0
  {
    assert (times + [time])[..|times|] == times;
  }

  lemma {:induction false} ActivityIsDated(arrivals: seq<Arrival>)
    ensures forall i :: 0 <= i < |Activity(arrivals)| ==> Activity(arrivals)[i] != 0
  {
    if arrivals != [] { ActivityIsDated(arrivals[..|arrivals| - 1]); }
  }

  /** In every run a session began with its first dated chat line, was last active at the last of its times of activity,
      and idle for every gap of five minutes or more between two of them. */
  lemma {:induction false} DatesAreTheLines(desk: Desk, arrivals: seq<Arrival>)
    requires desk.ledger.notes.startedAt == desk.ledger.notes.lastActive == desk.ledger.notes.idle == 0
    ensures DatesAre(IngestAll(desk, arrivals).ledger.notes, arrivals)
  {
    hide Ingest, SkillWindows.IsChatLine, IsTitleLine, Gaps;
    if arrivals == [] {
      GapsOfNone();
    } else {
      var front, last := arrivals[..|arrivals| - 1], arrivals[|arrivals| - 1];
      DatesAreTheLines(desk, front);
      IngestDates(IngestAll(desk, front), last);
      ActivityIsDated(front);
      GapsSnoc(Activity(front), last.turn.timestamp);
      SnocTurns(Chats(front), last.turn);
      TitleIsNoChat(last.turn);
    }
  }

  lemma GapsOfNone()
    ensures Gaps([]) == 0
  {
  }

  lemma TitleIsNoChat(turn: Turn)
    ensures SkillWindows.IsChatLine(turn) ==> !IsTitleLine(turn)
  {
  }

  // ---- Names and title ----

  /** The first file path a main line gives. */
  function FirstPath(arrivals: seq<Arrival>): string {
    if arrivals == [] then ""
    else
      var front, turn := FirstPath(arrivals[..|arrivals| - 1]), arrivals[|arrivals| - 1].turn;
      if front == "" && IsMainLine(turn) then turn.filePath else front
  }

  /** The last plan path one gives. */
  function LastPlanPath(arrivals: seq<Arrival>): string {
    if arrivals == [] then ""
    else
      var turn := arrivals[|arrivals| - 1].turn;
      if IsMainLine(turn) && turn.planFilePath != "" then turn.planFilePath else LastPlanPath(arrivals[..|arrivals| - 1])
  }

  datatype Heading = Heading(title: string, source: TitleSource)

  /** A title of its own beats an index's, and that one every other; the first prompt names a session that has no title. */
  function Headed(before: Heading, turn: Turn): Heading {
    if IsTitleLine(turn) then
      if turn.customTitle != before.title
         && match before.source
            case Custom => turn.titleSource == Custom
            case Index => turn.titleSource == Custom || turn.titleSource == Index
            case _ => true
      then Heading(turn.customTitle, turn.titleSource) else before
    else if SkillWindows.IsChatLine(turn) && before.title == "" && turn.role == User && DeriveTitle(turn.text) != ""
    then Heading(DeriveTitle(turn.text), Derived) else before
  }

  function HeadingOf(arrivals: seq<Arrival>): Heading {
    if arrivals == [] then Heading("", NoSource)
    else Headed(HeadingOf(arrivals[..|arrivals| - 1]), arrivals[|arrivals| - 1].turn)
  }

  ghost predicate NamesAre(notes: Notes, meta: Meta, arrivals: seq<Arrival>) {
    var chats := Chats(arrivals);
    && (forall k: nat :: k < 5 ==> Names(notes.meta)[k] == LastName(chats, k, Names(meta)[k]))
    && notes.meta.origin == (if LastOrigin(chats).Some? then LastOrigin(chats) else meta.origin)
    && notes.filePath == FirstPath(arrivals) && notes.planFilePath == LastPlanPath(arrivals)
    && notes.title == HeadingOf(arrivals).title && notes.titleSource == HeadingOf(arrivals).source
  }

  lemma NothingToDerive()
    ensures DeriveTitle("") == ""
  {
  }

  lemma UpdatedNames(meta: Meta, other: Meta)
    ensures forall k: nat :: k < 5 ==>
              Names(meta.Update(other))[k] == if Names(other)[k] != "" then Names(other)[k] else Names(meta)[k]
    ensures meta.Update(other).origin == if other.origin.Some? then other.origin else meta.origin
  {
  }

  lemma TurnNames(notes: Notes, turn: Turn)
    ensures var r := NoteTurn(NoteModelChange(notes, turn), turn);
            && r.filePath == notes.filePath && r.planFilePath == notes.planFilePath && r.meta == notes.meta.Update(turn.meta)
            && r.title == notes.title && r.titleSource == notes.titleSource
  {
    hide Arrive, Counted, Meta.Update, Scope.Append;
  }

  lemma ChatNames(notes: Notes, turn: Turn)
    ensures var r := NoteChat(notes, turn);
            && r.filePath == notes.filePath && r.planFilePath == notes.planFilePath && r.meta == notes.meta.Update(turn.meta)
            && (if notes.title == "" && turn.role == User && DeriveTitle(turn.text) != ""
                then r.title == DeriveTitle(turn.text) && r.titleSource == Derived
                else r.title == notes.title && r.titleSource == notes.titleSource)
  {
    hide NoteTurn, NoteModelChange, DeriveTitle;
    NothingToDerive();
    TurnNames(NoteDerivedTitle(notes, turn), turn);
  }

  lemma SignalsLocate(notes: Notes, turn: Turn)
    ensures NoteSignals(notes, turn).filePath == if notes.filePath == "" then turn.filePath else notes.filePath
  {
    hide NoteEvents, AddFileTouches, ApplyResults;
    EventsKeep(Prompted(notes, turn), turn.events);
  }

  lemma TitleNames(notes: Notes, turn: Turn)
    requires IsTitleLine(turn)
    ensures var (r, heading) := (NoteTitle(notes, turn), Headed(Heading(notes.title, notes.titleSource), turn));
            && r.meta == notes.meta && r.filePath == notes.filePath && r.planFilePath == notes.planFilePath
            && r.title == heading.title && r.titleSource == heading.source
  {
  }

  lemma IngestNames(desk: Desk, arrival: Arrival)
    ensures var (notes, after, turn) := (desk.ledger.notes, Ingest(desk, arrival).ledger.notes, arrival.turn);
            var heading := Headed(Heading(notes.title, notes.titleSource), turn);
            && (forall k: nat :: k < 5 ==>
                  Names(after.meta)[k] == if SkillWindows.IsChatLine(turn) && Names(turn.meta)[k] != "" then Names(turn.meta)[k]
                                          else Names(notes.meta)[k])
            && after.meta.origin ==
               (if SkillWindows.IsChatLine(turn) && turn.meta.origin.Some? then turn.meta.origin else notes.meta.origin)
            && after.filePath == (if notes.filePath == "" && IsMainLine(turn) then turn.filePath else notes.filePath)
            && after.planFilePath ==
               (if IsMainLine(turn) && turn.planFilePath != "" then turn.planFilePath else notes.planFilePath)
            && after.title == heading.title && after.titleSource == heading.source
  {
    hide NoteEvents, NoteSignals, NotePlanTurn, NoteChat, NoteTitle, ChargeMain, AddSubagentTurn, WindowEvents, AddFileTouches,
         Names, DeriveTitle, Meta.Update;
    var notes, turn := desk.ledger.notes, arrival.turn;
    EventsKeep(notes, turn.events);
    SignalsKeep(notes, turn);
    SignalsLocate(notes, turn);
    PlanKeeps(NoteSignals(notes, turn), desk.disk, turn, arrival.now);
    ChatNames(NotePlanTurn(NoteSignals(notes, turn), desk.disk, turn, arrival.now).0, turn);
    UpdatedNames(notes.meta, turn.meta);
    if IsTitleLine(turn) { TitleNames(notes, turn); }
  }

  /** In every run the session's names are the last its chat lines gave, its file the first a main line gave, its plan file
      the last, and its title the one of the highest rank told last, or else the first prompt's. */
  lemma {:induction false} NamesAreTheLines(desk: Desk, arrivals: seq<Arrival>)
    requires desk.ledger.notes.filePath == desk.ledger.notes.planFilePath == desk.ledger.notes.title == ""
    requires desk.ledger.notes.titleSource == NoSource
    ensures NamesAre(IngestAll(desk, arrivals).ledger.notes, desk.ledger.notes.meta, arrivals)
  {
    hide Ingest, SkillWindows.IsChatLine, Names, Headed, IsTitleLine, IsMainLine;
    if arrivals != [] {
      var front, last := arrivals[..|arrivals| - 1], arrivals[|arrivals| - 1];
      NamesAreTheLines(desk, front);
      IngestNames(IngestAll(desk, front), last);
      SnocTurns(Chats(front), last.turn);
    }
  }

  // ---- Files and turns ----

  /** The line's events, files and results are the session's; a title line has none. */
  predicate IsHeard(turn: Turn) { turn.subagentId != "" || turn.customTitle == "" }

  function Touched(arrivals: seq<Arrival>): seq<FileTouch> {
    if arrivals == [] then []
    else
      var front, turn := Touched(arrivals[..|arrivals| - 1]), arrivals[|arrivals| - 1].turn;
      if IsHeard(turn) then front + turn.fileTouches else front
  }

  /** What the main stream is told: each line's results, then the line itself if it is chat. */
  function MainStream(arrivals: seq<Arrival>): seq<TurnBuffers.Told> {
    if arrivals == [] then []
    else
      var front, turn := MainStream(arrivals[..|arrivals| - 1]), arrivals[|arrivals| - 1].turn;
      if SkillWindows.IsChatLine(turn) then front + [Answered(turn.toolResults), Said(turn.(events := []))]
      else if IsMainLine(turn) then front + [Answered(turn.toolResults)]
      else front
  }

  lemma {:induction false} TouchesJoin(files: Touches, touches: seq<FileTouch>, more: seq<FileTouch>)
    ensures AddFileTouches(files, touches + more) == AddFileTouches(AddFileTouches(files, touches), more)
  {
    if more == [] {
      assert touches + more == touches;
    } else {
      assert (touches + more)[..|touches + more| - 1] == touches + more[..|more| - 1];
      TouchesJoin(files, touches, more[..|more| - 1]);
    }
  }

  lemma TakesMore(scope: Scope, history: seq<TurnBuffers.Told>, one: TurnBuffers.Told)
    ensures TakeAll(scope, history + [one]) == Take(TakeAll(scope, history), one)
  {
    assert (history + [one])[..|history|] == history;
  }

  lemma TakesLine(start: Scope, stream: seq<TurnBuffers.Told>, turn: Turn)
    ensures var answered, said := Answered(turn.toolResults), Said(turn.(events := []));
            && TakeAll(start, stream + [answered]) == Take(TakeAll(start, stream), answered)
            && TakeAll(start, stream + [answered, said]) == Take(Take(TakeAll(start, stream), answered), said)
  {
    hide Take, TakeAll;
    var answered, said := Answered(turn.toolResults), Said(turn.(events := []));
    TakesMore(start, stream, answered);
    TakesMore(start, stream + [answered], said);
    assert stream + [answered] + [said] == stream + [answered, said];
  }

  lemma SignalsStream(notes: Notes, turn: Turn)
    ensures var r := NoteSignals(notes, turn);
            && r.touchedFiles == AddFileTouches(notes.touchedFiles, turn.fileTouches)
            && r.scope == Take(notes.scope, Answered(turn.toolResults))
  {
    hide NoteEvents, AddFileTouches, ApplyResults;
    EventsKeep(Prompted(notes, turn), turn.events);
  }

  lemma ChatStream(notes: Notes, turn: Turn)
    ensures var r := NoteChat(notes, turn);
            r.touchedFiles == notes.touchedFiles && r.scope == Take(notes.scope, Said(turn.(events := [])))
  {
    hide Arrive, Counted, DeriveTitle, Meta.Update, Scope.Append;
  }

  lemma IngestStream(desk: Desk, arrival: Arrival)
    ensures var (notes, after, turn) := (desk.ledger.notes, Ingest(desk, arrival).ledger.notes, arrival.turn);
            && after.touchedFiles ==
               (if IsHeard(turn) then AddFileTouches(notes.touchedFiles, turn.fileTouches) else notes.touchedFiles)
            && after.scope ==
               if SkillWindows.IsChatLine(turn)
               then Take(Take(notes.scope, Answered(turn.toolResults)), Said(turn.(events := [])))
               else if IsMainLine(turn) then Take(notes.scope, Answered(turn.toolResults)) else notes.scope
  {
    hide NoteEvents, NoteSignals, NotePlanTurn, NoteChat, ChargeMain, AddSubagentTurn, WindowEvents, AddFileTouches, Take;
    var notes, turn := desk.ledger.notes, arrival.turn;
    EventsKeep(notes, turn.events);
    SignalsStream(notes, turn);
    PlanKeeps(NoteSignals(notes, turn), desk.disk, turn, arrival.now);
    ChatStream(NotePlanTurn(NoteSignals(notes, turn), desk.disk, turn, arrival.now).0, turn);
  }

  /** In every run the files are those of all lines' touches, and the turns what the main lines told, results first. */
  lemma {:induction false} StreamIsTheLines(desk: Desk, arrivals: seq<Arrival>)
    ensures var (start, notes) := (desk.ledger.notes, IngestAll(desk, arrivals).ledger.notes);
            && notes.touchedFiles == AddFileTouches(start.touchedFiles, Touched(arrivals))
            && notes.scope == TakeAll(start.scope, MainStream(arrivals))
  {
    hide Ingest, SkillWindows.IsChatLine, IsMainLine, IsHeard, Take, AddFileTouch;
    if arrivals != [] {
      var (start, front, last) := (desk.ledger.notes, arrivals[..|arrivals| - 1], arrivals[|arrivals| - 1]);
      StreamIsTheLines(desk, front);
      IngestStream(IngestAll(desk, front), last);
      TouchesJoin(start.touchedFiles, Touched(front), last.turn.fileTouches);
      TakesLine(start.scope, MainStream(front), last.turn);
      ChatIsMain(last.turn);
    }
  }

  lemma ChatIsMain(turn: Turn)
    ensures SkillWindows.IsChatLine(turn) ==> IsMainLine(turn)
  {
  }

  // ---- Events, counters and the plan ----

  function CountKind(events: seq<Event>, kind: EventKind): nat {
    if events == [] then 0
    else CountKind(events[..|events| - 1], kind) + if events[|events| - 1].kind == kind then 1 else 0
  }

  /** The denials the user caused by cancelling or interrupting. */
  function CountCancelled(events: seq<Event>): nat {
    if events == [] then 0
    else
      var last := events[|events| - 1];
      CountCancelled(events[..|events| - 1]) +
      if last.kind == PermissionDenied && last.permission.Some? && last.permission.value.kind in ["cancelled", "interrupted"]
      then 1 else 0
  }

  predicate LeavesPlanMode(events: seq<Event>) {
    exists i :: 0 <= i < |events| && events[i].kind == PlanModeExit
  }

  /** The plan so far, with what its last line announced, and all events so far. */
  datatype Story = Story(plan: PlanState, events: seq<Event>)

  /** The event of a chat line whose model is not the one before. */
  function Switch(front: seq<Arrival>, turn: Turn): seq<Event> {
    var model := LastName(Chats(front), MODEL, "");
    if SkillWindows.IsChatLine(turn) && turn.meta.model != "" && model != "" && turn.meta.model != model
    then [Event(ModelChanged, "", turn.timestamp, Some(ModelPayload(model, turn.meta.model)), None, None, None, None)] else []
  }

  /** What a heard line makes of a story: its events, then those of its plan, then a change of the model. */
  function Continued(agent: Agent, before: Story, front: seq<Arrival>, arrival: Arrival): Story {
    var turn, told := arrival.turn, before.events + arrival.turn.events;
    if turn.subagentId != "" || turn.planFilePath == "" then Story(before.plan, told + Switch(front, turn))
    else
      var edit := Edit(turn.planContent, turn.timestamp);
      var plan := SetPlanContent(before.plan.(events := []), agent, LeavesPlanMode(told), edit, arrival.now);
      Story(plan, told + plan.events + Switch(front, turn))
  }

  function StoryOf(agent: Agent, first: PlanState, arrivals: seq<Arrival>): Story {
    if arrivals == [] then Story(first, [])
    else
      var front, last := arrivals[..|arrivals| - 1], arrivals[|arrivals| - 1];
      var before := StoryOf(agent, first, front);
      if IsHeard(last.turn) then Continued(agent, before, front, last) else before
  }

  /** Every event is in the log as far as it has room, and counted by its kind, whether it has room or not. */
  ghost predicate Records(notes: Notes, events: seq<Event>) {
    && notes.events == ArriveAll(NewLog(3000, 2000), events)
    && CountersAre(notes.counters, events)
    && (notes.planExitSeen <==> LeavesPlanMode(events))
  }

  ghost predicate CountersAre(c: Counters, events: seq<Event>) {
    && c.modelChanges == CountKind(events, ModelChanged)
    && c.permissionCancellations == CountCancelled(events)
    && c.permissionDenials + CountCancelled(events) == CountKind(events, PermissionDenied)
    && c.permissionGrants == CountKind(events, PermissionGranted)
    && c.permissionModeChanges == CountKind(events, PermissionModeChanged)
    && c.planRejections == CountKind(events, PlanRejected)
    && c.skillsInvoked == CountKind(events, SkillInvoked)
    && c.subagentsSpawned == CountKind(events, SubagentSpawned)
  }

  lemma CountersMove(c: Counters, events: seq<Event>, event: Event)
    requires CountersAre(c, events)
    ensures CountersAre(Counted(c, event), events + [event])
  {
    assert (events + [event])[..|events|] == events;
  }

  lemma LogMoves(log: EventLog, events: seq<Event>, event: Event)
    ensures ArriveAll(log, events + [event]) == Arrive(ArriveAll(log, events), event)
  {
    assert (events + [event])[..|events|] == events;
  }

  lemma ExitSnoc(events: seq<Event>, event: Event)
    ensures LeavesPlanMode(events + [event]) <==> LeavesPlanMode(events) || event.kind == PlanModeExit
  {
    var all := events + [event];
    assert all[|events|] == event && forall i :: 0 <= i < |events| ==> all[i] == events[i];
  }

  lemma EventRecorded(notes: Notes, events: seq<Event>, event: Event)
    requires Records(notes, events)
    ensures Records(NoteEvent(notes, event), events + [event])
  {
    hide CountersAre, Counted, Arrive, ArriveAll, LeavesPlanMode;
    CountersMove(notes.counters, events, event);
    LogMoves(NewLog(3000, 2000), events, event);
    ExitSnoc(events, event);
  }

  lemma {:induction false} EventsRecorded(notes: Notes, events: seq<Event>, more: seq<Event>)
    requires Records(notes, events)
    ensures Records(NoteEvents(notes, more), events + more)
  {
    hide Records, NoteEvent;
    if more == [] {
      assert events + more == events;
    } else {
      EventsRecorded(notes, events, more[..|more| - 1]);
      EventRecorded(NoteEvents(notes, more[..|more| - 1]), events + more[..|more| - 1], more[|more| - 1]);
      assert events + more[..|more| - 1] + [more[|more| - 1]] == events + more;
    }
  }

  // ---- A plan's events are its revisions ----

  ghost predicate OnlyRevisions(events: seq<Event>) {
    forall i :: 0 <= i < |events| ==> events[i].kind == PlanRevised
  }

  lemma {:induction false} AdoptRevises(state: PlanState, versions: seq<PlanVersion>, next: nat)
    requires OnlyRevisions(state.events)
    ensures OnlyRevisions(Adopt(state, versions, next).events)
  {
    if versions != [] { AdoptRevises(state, versions[..|versions| - 1], next); }
  }

  lemma PlanRevises(state: PlanState, agent: Agent, planExitSeen: bool, edit: Edit, now: Time)
    requires OnlyRevisions(state.events)
    ensures OnlyRevisions(SetPlanContent(state, agent, planExitSeen, edit, now).events)
  {
    hide Adopt, Extended, Persisted;
    if state.disk.Some? {
      AdoptRevises(state, state.disk.value.versions, state.book.NextIndex());
    }
  }

  lemma {:induction false} RevisionsRecorded(notes: Notes, events: seq<Event>, more: seq<Event>)
    requires Records(notes, events) && OnlyRevisions(more)
    ensures Records(notes.(events := ArriveAll(notes.events, more)), events + more)
  {
    hide CountersAre, Arrive, LeavesPlanMode;
    if more == [] {
      assert events + more == events;
    } else {
      var front, last := more[..|more| - 1], more[|more| - 1];
      RevisionsRecorded(notes, events, front);
      CountersMove(notes.counters, events + front, last);
      LogMoves(NewLog(3000, 2000), events + front, last);
      ExitSnoc(events + front, last);
      assert events + front + [last] == events + more;
    }
  }

  lemma PlannedRecords(notes: Notes, state: PlanState, events: seq<Event>)
    requires Records(notes, events) && OnlyRevisions(state.events)
    ensures Records(Planned(notes, state), events + state.events)
  {
    hide ArriveAll, LeavesPlanMode, CountKind, CountCancelled;
    RevisionsRecorded(notes, events, state.events);
  }

  // ---- The session's story ----

  /** Notes and directory are as the story says; a Codex session's directory stays as it was. */
  ghost predicate Follows(notes: Notes, disk: Option<PlanDisk>, agent: Agent, disk0: Option<PlanDisk>, story: Story) {
    && notes.agent == agent && Records(notes, story.events) && PlanBookOf(notes) == story.plan.book
    && (if agent == Claude then story.plan.disk == disk else story.plan.disk == None && disk == disk0)
  }

  lemma HeardFollows(notes: Notes, disk: Option<PlanDisk>, agent: Agent, disk0: Option<PlanDisk>, story: Story,
                     turn: Turn)
    requires Follows(notes, disk, agent, disk0, story)
    ensures Follows(NoteSignals(notes, turn), disk, agent, disk0, story.(events := story.events + turn.events))
  {
    hide NoteEvents, AddFileTouches, ApplyResults, ArriveAll, CountersAre, LeavesPlanMode;
    var prompted := Prompted(notes, turn);
    EventsRecorded(prompted, story.events, turn.events);
    EventsKeep(prompted, turn.events);
    EventsKeepAlterations(prompted, turn.events);
  }

  lemma {:induction false} EventsKeepAlterations(notes: Notes, events: seq<Event>)
    ensures NoteEvents(notes, events).counters.planAlterations == notes.counters.planAlterations
  {
    hide Arrive;
    if events != [] { EventsKeepAlterations(notes, events[..|events| - 1]); }
  }

  lemma PlanFollows(notes: Notes, disk: Option<PlanDisk>, agent: Agent, disk0: Option<PlanDisk>, story: Story, turn: Turn,
                    now: Time)
    requires Follows(notes, disk, agent, disk0, story) && turn.planFilePath != ""
    ensures var r := NotePlanTurn(notes, disk, turn, now);
            var edit := Edit(turn.planContent, turn.timestamp);
            var plan := SetPlanContent(story.plan.(events := []), agent, LeavesPlanMode(story.events), edit, now);
            Follows(r.0, r.1, agent, disk0, Story(plan, story.events + plan.events))
  {
    hide SetPlanContent, ArriveAll, CountersAre, LeavesPlanMode;
    var named := notes.(planFilePath := turn.planFilePath);
    var edit := Edit(turn.planContent, turn.timestamp);
    assert PlanStateOf(named, disk) == story.plan.(events := []);
    var plan := SetPlanContent(PlanStateOf(named, disk), agent, notes.planExitSeen, edit, now);
    PlanRevises(PlanStateOf(named, disk), agent, notes.planExitSeen, edit, now);
    PlannedRecords(named, plan, story.events);
    DirectoryStays(PlanStateOf(named, disk), agent, notes.planExitSeen, edit, now);
  }

  lemma ChatFollows(notes: Notes, disk: Option<PlanDisk>, agent: Agent, disk0: Option<PlanDisk>, story: Story,
                    front: seq<Arrival>, turn: Turn)
    requires Follows(notes, disk, agent, disk0, story) && notes.meta.model == LastName(Chats(front), MODEL, "")
    requires SkillWindows.IsChatLine(turn)
    ensures Follows(NoteChat(notes, turn), disk, agent, disk0, story.(events := story.events + Switch(front, turn)))
  {
    hide Arrive, ArriveAll, CountersAre, LeavesPlanMode, DeriveTitle, Meta.Update, Scope.Append, LastName, Chats;
    var derived := NoteDerivedTitle(notes, turn);
    var change := BareEvent(ModelChanged, turn.timestamp).(model := Some(ModelPayload(notes.meta.model, turn.meta.model)));
    EventRecorded(derived, story.events, change);
    assert story.events + [] == story.events;
  }

  lemma SubagentFollows(notes: Notes, disk: Option<PlanDisk>, agent: Agent, disk0: Option<PlanDisk>, story: Story,
                        turn: Turn)
    requires Follows(notes, disk, agent, disk0, story)
    ensures var told := NoteEvents(notes, turn.events);
            Follows(told.(touchedFiles := AddFileTouches(told.touchedFiles, turn.fileTouches)), disk, agent, disk0,
                    story.(events := story.events + turn.events))
  {
    hide NoteEvents, AddFileTouches, ArriveAll, CountersAre, LeavesPlanMode;
    EventsRecorded(notes, story.events, turn.events);
    EventsKeep(notes, turn.events);
    EventsKeepAlterations(notes, turn.events);
  }

  lemma MainFollows(notes: Notes, disk: Option<PlanDisk>, agent: Agent, disk0: Option<PlanDisk>, story: Story,
                    front: seq<Arrival>, arrival: Arrival)
    requires Follows(notes, disk, agent, disk0, story) && notes.meta.model == LastName(Chats(front), MODEL, "")
    requires IsMainLine(arrival.turn)
    ensures var r := NoteMain(notes, disk, arrival.turn, arrival.now);
            Follows(r.0, r.1, agent, disk0, Continued(agent, story, front, arrival))
  {
    hide Follows, NoteSignals, NotePlanTurn, NoteChat, SetPlanContent, LeavesPlanMode, LastName, Chats;
    var turn := arrival.turn;
    var heard := story.(events := story.events + turn.events);
    var signalled := NoteSignals(notes, turn);
    SignalsKeep(notes, turn);
    HeardFollows(notes, disk, agent, disk0, story, turn);
    PlanKeeps(signalled, disk, turn, arrival.now);
    NoPlanTurn(signalled, disk, turn, arrival.now);
    if turn.planFilePath != "" { PlanFollows(signalled, disk, agent, disk0, heard, turn, arrival.now); }
    var (planned, after) := NotePlanTurn(signalled, disk, turn, arrival.now);
    var told := if turn.planFilePath == "" then heard
                else
                  var plan := SetPlanContent(story.plan.(events := []), agent, LeavesPlanMode(heard.events),
                                             Edit(turn.planContent, turn.timestamp), arrival.now);
                  Story(plan, heard.events + plan.events);
    if SkillWindows.IsChatLine(turn) {
      ChatFollows(planned, after, agent, disk0, told, front, turn);
    } else {
      assert Switch(front, turn) == [] && told.events + [] == told.events;
    }
  }

  lemma NoPlanTurn(notes: Notes, disk: Option<PlanDisk>, turn: Turn, now: Time)
    ensures turn.planFilePath == "" ==> NotePlanTurn(notes, disk, turn, now) == (notes, disk)
  {
  }

  lemma TitleFollows(notes: Notes, disk: Option<PlanDisk>, agent: Agent, disk0: Option<PlanDisk>, story: Story, turn: Turn)
    requires Follows(notes, disk, agent, disk0, story)
    ensures Follows(NoteTitle(notes, turn), disk, agent, disk0, story)
  {
    hide ArriveAll, CountersAre, LeavesPlanMode;
  }

  lemma IngestFollows(desk: Desk, agent: Agent, disk0: Option<PlanDisk>, story: Story, front: seq<Arrival>, arrival: Arrival)
    requires Follows(desk.ledger.notes, desk.disk, agent, disk0, story)
    requires desk.ledger.notes.meta.model == LastName(Chats(front), MODEL, "")
    ensures var after := Ingest(desk, arrival);
            Follows(after.ledger.notes, after.disk, agent, disk0,
                    if IsHeard(arrival.turn) then Continued(agent, story, front, arrival) else story)
  {
    hide Follows, NoteEvents, NoteMain, NoteTitle, AddFileTouches, ChargeMain, AddSubagentTurn, WindowEvents, LastName, Chats,
         SetPlanContent;
    var notes, turn := desk.ledger.notes, arrival.turn;
    if turn.subagentId != "" {
      SubagentFollows(notes, desk.disk, agent, disk0, story, turn);
      assert Switch(front, turn) == [] && story.events + turn.events + [] == story.events + turn.events;
    } else if turn.customTitle == "" {
      MainFollows(notes, desk.disk, agent, disk0, story, front, arrival);
    } else {
      TitleFollows(notes, desk.disk, agent, disk0, story, turn);
      OnlyTitled(notes, desk.disk, turn, arrival.now);
    }
  }

  lemma OnlyTitled(notes: Notes, disk: Option<PlanDisk>, turn: Turn, now: Time)
    requires turn.customTitle != ""
    ensures NoteMain(notes, disk, turn, now) == (NoteTitle(notes, turn), disk)
  {
  }

  lemma NothingHeard(id: Id, agent: Agent, depth: Capacity, book: PlanBook, disk: Option<PlanDisk>)
    ensures Follows(WithBook(NewNotes(id, agent, depth), book), disk, agent, disk,
                    Story(PlanState(book, PlanDiskOf(agent, disk), []), []))
  {
    assert ArriveAll(NewLog(3000, 2000), []) == NewLog(3000, 2000);
  }

  /** In every run a session's events, counters and plan are its story's: every event the lines told is recorded as far as
      there is room and counted by its kind; the plan and its directory are what the plan protocol makes of the lines'
      plans, alterations once plan mode was left. */
  lemma {:induction false} StoryIsTheLines(desk: Desk, id: Id, agent: Agent, depth: Capacity, book: PlanBook,
                                           arrivals: seq<Arrival>)
    requires desk.ledger.notes == WithBook(NewNotes(id, agent, depth), book)
    ensures var after := IngestAll(desk, arrivals);
            Follows(after.ledger.notes, after.disk, agent, desk.disk,
                    StoryOf(agent, PlanState(book, PlanDiskOf(agent, desk.disk), []), arrivals))
  {
    hide Ingest, Follows, IsHeard, Continued, NamesAre, Names, LastName, Chats;
    var first := PlanState(book, PlanDiskOf(agent, desk.disk), []);
    if arrivals == [] {
      NothingHeard(id, agent, depth, book, desk.disk);
    } else {
      var front, last := arrivals[..|arrivals| - 1], arrivals[|arrivals| - 1];
      StoryIsTheLines(desk, id, agent, depth, book, front);
      NamesAreTheLines(desk, front);
      ModelIsLast(IngestAll(desk, front).ledger.notes, desk.ledger.notes.meta, front);
      IngestFollows(IngestAll(desk, front), agent, desk.disk, StoryOf(agent, first, front), front, last);
      assert front + [last] == arrivals;
    }
  }

  lemma ModelIsLast(notes: Notes, meta: Meta, arrivals: seq<Arrival>)
    requires NamesAre(notes, meta, arrivals)
    ensures notes.meta.model == LastName(Chats(arrivals), MODEL, meta.model)
  {
    hide LastName, Chats, HeadingOf;
    assert Names(notes.meta)[MODEL] == LastName(Chats(arrivals), MODEL, Names(meta)[MODEL]);
  }

  // ---- Sub-agents ----

  function SpawnsOf(events: seq<Event>): seq<SubagentPayload> {
    if events == [] then []
    else
      var front, last := SpawnsOf(events[..|events| - 1]), events[|events| - 1];
      if last.kind == SubagentSpawned && last.subagent.Some? then front + [last.subagent.value] else front
  }

  /** What spawned in the lines, in order. */
  function AllSpawns(lines: seq<Turn>): seq<SubagentPayload> {
    if lines == [] then [] else AllSpawns(lines[..|lines| - 1]) + SpawnsOf(lines[|lines| - 1].events)
  }

  function AllTouches(lines: seq<Turn>): seq<FileTouch> {
    if lines == [] then [] else AllTouches(lines[..|lines| - 1]) + lines[|lines| - 1].fileTouches
  }

  /** What a sub-agent's stream is told: each line's results, then the line itself if it has a role. */
  function StreamOf(lines: seq<Turn>): seq<TurnBuffers.Told> {
    if lines == [] then []
    else
      var front, turn := StreamOf(lines[..|lines| - 1]), lines[|lines| - 1];
      front + if turn.role != NoRole then [Answered(turn.toolResults), Said(turn.(events := []))]
              else [Answered(turn.toolResults)]
  }

  ghost predicate RowIs(row: SubagentRow, depth: Capacity, lines: seq<Turn>) {
    var spawns := AllSpawns(lines);
    && row.agentType == (if spawns == [] then "" else spawns[|spawns| - 1].agentType)
    && row.description == (if spawns == [] then "" else spawns[|spawns| - 1].description)
    && row.model == LastName(lines, MODEL, "")
    && row.firstActive == FirstTime(lines) && row.lastActive == LastTime(lines)
    && row.touchedFiles == AddFileTouches(map[], AllTouches(lines))
    && row.scope == TakeAll(Scope(None, NewRing(if depth < 200 then 200 else depth)), StreamOf(lines))
  }

  lemma {:induction false} DescribedBySpawns(row: SubagentRow, events: seq<Event>)
    ensures var spawns := SpawnsOf(events);
            Described(row, events) ==
            if spawns == [] then row
            else row.(agentType := spawns[|spawns| - 1].agentType, description := spawns[|spawns| - 1].description)
  {
    if events != [] { DescribedBySpawns(row, events[..|events| - 1]); }
  }

  lemma SnocLines(lines: seq<Turn>, turn: Turn)
    ensures AllSpawns(lines + [turn]) == AllSpawns(lines) + SpawnsOf(turn.events)
    ensures AllTouches(lines + [turn]) == AllTouches(lines) + turn.fileTouches
    ensures StreamOf(lines + [turn]) ==
            StreamOf(lines) + if turn.role != NoRole then [Answered(turn.toolResults), Said(turn.(events := []))]
                              else [Answered(turn.toolResults)]
  {
    assert (lines + [turn])[..|lines|] == lines;
  }

  /** What a turn makes of the row, in fields. */
  lemma SeenIs(row: SubagentRow, turn: Turn)
    ensures var (r, spawns) := (SubagentSeen(row, turn), SpawnsOf(turn.events));
            && r.agentType == (if spawns == [] then row.agentType else spawns[|spawns| - 1].agentType)
            && r.description == (if spawns == [] then row.description else spawns[|spawns| - 1].description)
            && r.model == (if turn.meta.model != "" then turn.meta.model else row.model)
            && r.firstActive == (if row.firstActive != 0 then row.firstActive else turn.timestamp)
            && r.lastActive == (if turn.timestamp != 0 then turn.timestamp else row.lastActive)
            && r.touchedFiles == AddFileTouches(row.touchedFiles, turn.fileTouches)
            && r.scope == (if turn.role != NoRole
                then Take(Take(row.scope, Answered(turn.toolResults)), Said(turn.(events := [])))
                           else Take(row.scope, Answered(turn.toolResults)))
  {
    hide Described, AddFileTouches, ApplyResults, Scope.Append, SpawnsOf;
    var answered := ApplyResults(row.scope, turn.toolResults);
    var scope := if turn.role != NoRole then answered.Append(Kept(turn)) else answered;
    var modelled := row.(scope := scope, model := if turn.meta.model != "" then turn.meta.model else row.model);
    var dated := if turn.timestamp == 0 then modelled
                 else modelled.(firstActive := if row.firstActive == 0 then turn.timestamp else row.firstActive,
                                lastActive := turn.timestamp);
    DescribedBySpawns(dated, turn.events);
  }

  lemma SeenRow(row: SubagentRow, depth: Capacity, lines: seq<Turn>, turn: Turn)
    requires RowIs(row, depth, lines)
    ensures RowIs(SubagentSeen(row, turn), depth, lines + [turn])
  {
    hide SubagentSeen, AllSpawns, AllTouches, StreamOf, SpawnsOf, AddFileTouches, Take, TakeAll, FirstTime, LastTime, LastName;
    SeenIs(row, turn);
    SnocLines(lines, turn);
    SnocTurns(lines, turn);
    TouchesJoin(map[], AllTouches(lines), turn.fileTouches);
    TakesLine(Scope(None, NewRing(if depth < 200 then 200 else depth)), StreamOf(lines), turn);
    assert Names(turn.meta)[MODEL] == turn.meta.model;
  }

  lemma NewRow(depth: Capacity)
    ensures RowIs(NewSubagent(depth), depth, [])
  {
  }

  /** Rows and lines of every sub-agent there was room for. */
  ghost predicate RowsAre(a: Accounts, depth: Capacity, arrivals: seq<Arrival>) {
    forall id :: id in a.subagents ==> RowIs(a.subagents[id], depth, LinesOf(arrivals, id))
  }

  /** While there is room nobody heard of is unknown. */
  lemma {:induction false} HeardOfIsKnown(arrivals: seq<Arrival>, id: string)
    requires id != "" && |SkillWindows.Subagents(arrivals)| < 300 && id !in SkillWindows.Subagents(arrivals)
    ensures LinesOf(arrivals, id) == []
  {
    if arrivals != [] {
      var before, turn := SkillWindows.Subagents(arrivals[..|arrivals| - 1]), arrivals[|arrivals| - 1].turn;
      assert turn.subagentId !in before ==> |before + {turn.subagentId}| == |before| + 1;
      assert turn.subagentId in before ==> before + {turn.subagentId} == before;
      HeardOfIsKnown(arrivals[..|arrivals| - 1], id);
    }
  }

  /** A sub-agent's line moves its own row and no other. */
  lemma SubagentRows(a: Accounts, depth: Capacity, turn: Turn)
    ensures var (r, id) := (AddSubagentTurn(a, depth, turn).subagents, turn.subagentId);
            && (forall other :: other != id ==>
                  (other in r <==> other in a.subagents) && (other in r ==> r[other] == a.subagents[other]))
            && (id in r <==> id in a.subagents || |a.subagents.Keys| < 300)
            && (id in r ==> r[id] == SubagentSeen(if id in a.subagents then a.subagents[id] else NewSubagent(depth), turn))
  {
    hide Charge, SubagentSeen, NewSubagent;
    assert |a.subagents| == |a.subagents.Keys|;
    var id, known := turn.subagentId, Admitted(a, depth, turn.subagentId);
    if id in known.subagents {
      SkillWindows.ChargeKeepsSubagents(Seen(known, id, turn), SubagentCell(id), id, turn);
    }
  }

  lemma SubagentRowsMove(a: Accounts, depth: Capacity, front: seq<Arrival>, arrival: Arrival)
    requires RowsAre(a, depth, front) && a.subagents.Keys == SkillWindows.Subagents(front)
    requires arrival.turn.subagentId != ""
    ensures RowsAre(AddSubagentTurn(a, depth, arrival.turn), depth, front + [arrival])
  {
    hide AddSubagentTurn, RowIs, SubagentSeen, NewSubagent, SkillWindows.Subagents;
    var turn := arrival.turn;
    var r := AddSubagentTurn(a, depth, turn);
    assert (front + [arrival])[..|front|] == front;
    SubagentRows(a, depth, turn);
    NewRow(depth);
    forall id | id in r.subagents ensures RowIs(r.subagents[id], depth, LinesOf(front + [arrival], id)) {
      if id == turn.subagentId {
        if id !in a.subagents { HeardOfIsKnown(front, id); }
        SeenRow(if id in a.subagents then a.subagents[id] else NewSubagent(depth), depth, LinesOf(front, id), turn);
      }
    }
  }

  lemma {:induction false} AllAreNamed(arrivals: seq<Arrival>)
    ensures "" !in SkillWindows.Subagents(arrivals)
  {
    if arrivals != [] { AllAreNamed(arrivals[..|arrivals| - 1]); }
  }

  lemma IngestRows(desk: Desk, front: seq<Arrival>, arrival: Arrival)
    requires RowsAre(desk.ledger.accounts, desk.ledger.notes.scope.ring.capacity, front)
    requires desk.ledger.accounts.subagents.Keys == SkillWindows.Subagents(front)
    ensures RowsAre(Ingest(desk, arrival).ledger.accounts, desk.ledger.notes.scope.ring.capacity, front + [arrival])
  {
    hide NoteEvents, NoteMain, ChargeMain, AddSubagentTurn, WindowEvents, AddFileTouches, RowIs, SkillWindows.Subagents;
    var a, turn := desk.ledger.accounts, arrival.turn;
    if turn.subagentId != "" {
      EventsKeep(desk.ledger.notes, turn.events);
      SkillWindows.EventsKeepSubagents(a, turn.events);
      SubagentRowsMove(WindowEvents(a, turn.events), desk.ledger.notes.scope.ring.capacity, front, arrival);
    } else {
      SkillWindows.MainAdmitsNone(a, desk.ledger.notes, turn);
      assert (front + [arrival])[..|front|] == front;
      AllAreNamed(front);
    }
  }

  /** In every run each sub-agent there was room for has the row its lines give: the type and description of the last spawn,
      the last model, the first and last dates, all files, and all turns. */
  lemma {:induction false} RowsAreTheLines(desk: Desk, arrivals: seq<Arrival>)
    requires desk.ledger.accounts == EMPTY_ACCOUNTS
    ensures RowsAre(IngestAll(desk, arrivals).ledger.accounts, desk.ledger.notes.scope.ring.capacity, arrivals)
  {
    hide Ingest, RowIs, SkillWindows.Subagents, MainStream;
    if arrivals != [] {
      var front, last := arrivals[..|arrivals| - 1], arrivals[|arrivals| - 1];
      RowsAreTheLines(desk, front);
      SkillWindows.SubagentsAreTheFirst(desk, front);
      StreamIsTheLines(desk, front);
      IngestRows(IngestAll(desk, front), front, last);
      assert front + [last] == arrivals;
    }
  }

  // ---- The whole session ----

  /** In every run a session seen for the first time is what its lines say, whatever the directory it takes its plan from. */
  lemma SessionIsItsLines(id: Id, agent: Agent, depth: Capacity, disk: Option<PlanDisk>, arrivals: seq<Arrival>)
    ensures var after := IngestAll(Desk(NewLedger(id, agent, depth, disk), disk), arrivals);
            var (notes, first) := (after.ledger.notes, PlanState(Hydrated(disk), if agent == Claude then disk else None, []));
            && DatesAre(notes, arrivals) && NamesAre(notes, Meta(id, "", "", "", "", None), arrivals)
            && Follows(notes, after.disk, agent, disk, StoryOf(agent, first, arrivals))
            && notes.currentPromptId == SkillWindows.LastPrompt(arrivals)
            && notes.touchedFiles == AddFileTouches(map[], Touched(arrivals))
            && notes.scope == TakeAll(Scope(None, Ring(depth, [], 0, 0)), MainStream(arrivals))
            && after.ledger.accounts.subagents.Keys == SkillWindows.Subagents(arrivals)
            && RowsAre(after.ledger.accounts, depth, arrivals)
  {
    hide IngestAll, DatesAre, NamesAre, Follows, RowsAre, StoryOf, Touched, MainStream, Hydrated, SkillWindows.LastPrompt,
         SkillWindows.Subagents, SkillWindows.Tells;
    var desk := Desk(NewLedger(id, agent, depth, disk), disk);
    DatesAreTheLines(desk, arrivals);
    NamesAreTheLines(desk, arrivals);
    StreamIsTheLines(desk, arrivals);
    StoryIsTheLines(desk, id, agent, depth, Hydrated(disk), arrivals);
    SkillWindows.WindowsAreTheLines(desk, arrivals);
    SkillWindows.SubagentsAreTheFirst(desk, arrivals);
    RowsAreTheLines(desk, arrivals);
  }
}
