/** A session read as a value: every pointer into its usage cells is an index (session/session.go,
    session/store.go). The session object of Sessions.dfy refines this ledger step by step. */
module Ledgers {
  import opened Types
  import opened EventBuffers
  import opened SubagentJoin
  import opened TurnBuffers
  import opened Plans

  const EVENT_BUFFER_CAPACITY := 3000
  const EVENT_BUFFER_DENIAL_BUDGET := 2000
  /** Five minutes; time counts seconds. */
  const IDLE_THRESHOLD := 300
  const MAX_TOUCHED_FILES := 2000
  const MAX_SUBAGENT_STATS := 300
  const MIN_SUBAGENT_TURN_DEPTH := 200
  const MAX_SKILL_STATS := 200
  const STOP_REASON_TOOL_USE := "tool_use"

  datatype Counters = Counters(
    modelChanges: nat, permissionCancellations: nat, permissionDenials: nat, permissionGrants: nat,
    permissionModeChanges: nat, planAlterations: nat, planRejections: nat, skillsInvoked: nat, subagentsSpawned: nat)

  datatype FileTouchCounts = FileTouchCounts(readCount: nat, writeCount: nat)

  type Touches = map<string, FileTouchCounts>

  datatype SkillRow = SkillRow(
    agentId: string, skill: string, args: string, model: string, startedAt: Time, endedAt: Time)

  datatype SubagentRow = SubagentRow(
    agentType: string, description: string, model: string, firstActive: Time, lastActive: Time,
    touchedFiles: Touches, scope: Scope)

  /** A usage cell: the session total, a skill window, or a sub-agent. */
  datatype Target = SessionCell | SkillCell(index: nat) | SubagentCell(id: string)

  /** What a request last counted, and the cells it was added to. */
  datatype RequestRow = RequestRow(counted: Tokens, targets: seq<Target>)

  /** The pointer graph of a session, by index: what each cell holds, and what points at which cell. */
  datatype Accounts = Accounts(
    cells: Cells,
    skills: seq<SkillRow>,
    subagents: map<string, SubagentRow>,
    active: map<string, nat>,
    requests: map<string, RequestRow>)

  /** The rest of a session: nothing here points into the usage cells. */
  datatype Notes = Notes(
    agent: Agent,
    counters: Counters,
    currentPromptId: string,
    events: EventLog,
    filePath: string,
    idle: nat,
    lastActive: Time,
    meta: Meta,
    planContent: string,
    planExitSeen: bool,
    planFilePath: string,
    planRevisions: seq<PlanRevision>,
    startedAt: Time,
    title: string,
    titleSource: TitleSource,
    touchedFiles: Touches,
    scope: Scope)

  datatype Ledger = Ledger(notes: Notes, accounts: Accounts)

  const EMPTY_ACCOUNTS := Accounts(map[SessionCell := ZERO], [], map[], map[], map[])

  function NewNotes(id: Id, agent: Agent, depth: Capacity): Notes {
    Notes(agent, Counters(0, 0, 0, 0, 0, 0, 0, 0, 0), "", NewLog(EVENT_BUFFER_CAPACITY, EVENT_BUFFER_DENIAL_BUDGET),
          "", 0, 0, Meta(id, "", "", "", "", None), "", false, "", [], 0, "", NoSource, map[], Scope(None, NewRing(depth)))
  }

  function WithBook(notes: Notes, book: PlanBook): Notes {
    notes.(planContent := book.content, planRevisions := book.revisions,
        counters := notes.counters.(planAlterations := book.alterations))
  }

  /** getOrCreate: an empty session, its plan taken over from the directory. */
  function NewLedger(id: Id, agent: Agent, depth: Capacity, disk: Option<PlanDisk>): Ledger {
    Ledger(WithBook(NewNotes(id, agent, depth), Hydrated(disk)), EMPTY_ACCOUNTS)
  }

  // ---- Usage cells ----

  type Cells = map<Target, Tokens>

  /** Adds to one cell; a target that is no cell is skipped. */
  function Adjust(cells: Cells, target: Target, usage: Tokens): Cells {
    if target in cells then cells[target := cells[target].Plus(usage)] else cells
  }

  function AdjustAll(cells: Cells, targets: seq<Target>, usage: Tokens): Cells {
    if targets == [] then cells
    else Adjust(AdjustAll(cells, targets[..|targets| - 1], usage), targets[|targets| - 1], usage)
  }

  function Undone(cells: Cells, requests: map<string, RequestRow>, requestId: string): Cells {
    if requestId in requests then AdjustAll(cells, requests[requestId].targets, ZERO.Minus(requests[requestId].counted))
        else cells
  }

  /** applyRequestUsage: take back what the request counted before, count it anew. */
  function Applied(cells: Cells, requests: map<string, RequestRow>, requestId: string, usage: Tokens,
                   targets: seq<Target>): Cells {
    AdjustAll(Undone(cells, requests, requestId), targets, usage)
  }

  function ApplyRequestUsage(a: Accounts, requestId: string, usage: Tokens, targets: seq<Target>): Accounts {
    a.(cells := Applied(a.cells, a.requests, requestId, usage, targets),
        requests := a.requests[requestId := RequestRow(usage, targets)])
  }

  predicate HasPlace(a: Accounts, t: Target) {
    match t
    case SessionCell => true
    case SkillCell(index) => index < |a.skills|
    case SubagentCell(id) => id in a.subagents
  }

  /** There is a cell for the session, for each skill and for each sub-agent, and no other; windows are open on
      skills of the session, and requests were counted into its cells. */
  ghost predicate Consistent(a: Accounts) {
    && (forall t :: t in a.cells <==> HasPlace(a, t))
    && (forall actor :: actor in a.active ==> a.active[actor] < |a.skills|)
    && (forall id, i :: id in a.requests && 0 <= i < |a.requests[id].targets| ==> a.requests[id].targets[i] in a.cells)
  }

  function WithSkill(a: Accounts, row: SkillRow, value: Tokens): Accounts {
    a.(cells := a.cells[SkillCell(|a.skills|) := value], skills := a.skills + [row])
  }

  function WithSubagent(a: Accounts, id: string, row: SubagentRow, value: Tokens): Accounts {
    a.(cells := a.cells[SubagentCell(id) := value], subagents := a.subagents[id := row])
  }

  // ---- Skill windows ----

  function ClosedRows(skills: seq<SkillRow>, active: map<string, nat>, actor: string, timestamp: Time): seq<SkillRow> {
    if actor in active && active[actor] < |skills| && skills[active[actor]].endedAt == 0 && timestamp != 0
    then skills[active[actor] := skills[active[actor]].(endedAt := timestamp)] else skills
  }

  function CloseSkillWindow(a: Accounts, actor: string, timestamp: Time): Accounts {
    a.(skills := ClosedRows(a.skills, a.active, actor, timestamp), active := a.active - {actor})
  }

  function OpenSkillWindow(a: Accounts, event: Event): Accounts
    requires event.skill.Some?
  {
    var closed := CloseSkillWindow(a, event.actor, event.timestamp);
    if |closed.skills| >= MAX_SKILL_STATS then closed else StartWindow(closed, event)
  }

  function StartWindow(a: Accounts, event: Event): Accounts
    requires event.skill.Some?
  {
    WithSkill(a, OpenedRow(event), ZERO).(active := a.active[event.actor := |a.skills|])
  }

  function OpenedRow(event: Event): SkillRow
    requires event.skill.Some?
  {
    SkillRow(event.actor, event.skill.value.skill, event.skill.value.args, "", event.timestamp, 0)
  }

  predicate IsSamePrompt(notes: Notes, promptId: string) { promptId != "" && promptId == notes.currentPromptId }

  // ---- Events ----

  predicate IsCancellation(event: Event) {
    event.permission.Some? && (event.permission.value.kind == "cancelled" || event.permission.value.kind == "interrupted")
  }

  function Counted(c: Counters, event: Event): Counters {
    match event.kind
    case ModelChanged => c.(modelChanges := c.modelChanges + 1)
    case PermissionDenied =>
      if IsCancellation(event) then c.(permissionCancellations := c.permissionCancellations + 1)
      else c.(permissionDenials := c.permissionDenials + 1)
    case PermissionGranted => c.(permissionGrants := c.permissionGrants + 1)
    case PermissionModeChanged => c.(permissionModeChanges := c.permissionModeChanges + 1)
    case PlanRejected => c.(planRejections := c.planRejections + 1)
    case SkillInvoked => c.(skillsInvoked := c.skillsInvoked + 1)
    case SubagentSpawned => c.(subagentsSpawned := c.subagentsSpawned + 1)
    case _ => c
  }

  /** appendEvent, on everything but the skill windows. */
  function NoteEvent(notes: Notes, event: Event): Notes {
    notes.(events := Arrive(notes.events, event), counters := Counted(notes.counters, event),
           planExitSeen := notes.planExitSeen || event.kind == PlanModeExit)
  }

  function NoteEvents(notes: Notes, events: seq<Event>): Notes {
    if events == [] then notes else NoteEvent(NoteEvents(notes, events[..|events| - 1]), events[|events| - 1])
  }

  /** appendEvent, on the skill windows. */
  function WindowEvent(a: Accounts, event: Event): Accounts {
    if event.kind == SkillInvoked && event.skill.Some? then OpenSkillWindow(a, event) else a
  }

  function WindowEvents(a: Accounts, events: seq<Event>): Accounts {
    if events == [] then a else WindowEvent(WindowEvents(a, events[..|events| - 1]), events[|events| - 1])
  }

  // ---- File touches ----

  function AddFileTouch(files: Touches, touch: FileTouch): Touches {
    if touch.path !in files && |files| >= MAX_TOUCHED_FILES then files
    else
      var counts := if touch.path in files then files[touch.path] else FileTouchCounts(0, 0);
      files[touch.path := if touch.write then counts.(writeCount := counts.writeCount + 1)
          else counts.(readCount := counts.readCount + 1)]
  }

  function AddFileTouches(files: Touches, touches: seq<FileTouch>): Touches {
    if touches == [] then files else AddFileTouch(AddFileTouches(files, touches[..|touches| - 1]), touches[|touches| - 1])
  }

  // ---- Turns ----

  /** A stored turn; its events are never read again. */
  function Kept(turn: Turn): Turn { turn.(events := []) }

  predicate CountsUsage(turn: Turn) { turn.usage.Some? && turn.requestId != "" }

  /** Where an actor's usage goes: its owner's cell and, while the actor has a skill window open, that window. */
  function ChargedTo(active: map<string, nat>, owner: Target, actor: string): seq<Target> {
    if actor in active then [owner, SkillCell(active[actor])] else [owner]
  }

  function UsedRows(skills: seq<SkillRow>, active: map<string, nat>, actor: string, turn: Turn): seq<SkillRow> {
    if actor !in active || active[actor] >= |skills| then skills
    else
      var row := skills[active[actor]];
      skills[active[actor] := row.(endedAt := turn.timestamp, model := if row.model == "" then turn.meta.model else row.model)]
  }

  function Charge(a: Accounts, owner: Target, actor: string, turn: Turn): Accounts {
    if !CountsUsage(turn) then a
    else
      ApplyRequestUsage(a.(skills := UsedRows(a.skills, a.active, actor, turn)), turn.requestId, turn.usage.value,
                        ChargedTo(a.active, owner, actor))
  }

  predicate EndsTurn(turn: Turn) { turn.stopReason != "" && turn.stopReason != STOP_REASON_TOOL_USE }

  /** AddTurn, on the accounts. */
  function ChargeTurn(a: Accounts, turn: Turn): Accounts {
    var charged := Charge(a, SessionCell, "", turn);
    if EndsTurn(turn) then CloseSkillWindow(charged, "", turn.timestamp) else charged
  }

  /** The idle time between two turns. */
  function Gap(lastActive: Time, timestamp: Time): nat {
    if lastActive != 0 && timestamp >= lastActive + IDLE_THRESHOLD then timestamp - lastActive else 0
  }

  /** AddTurn, on everything else. */
  function NoteTurn(notes: Notes, turn: Turn): Notes {
    var named := notes.(meta := notes.meta.Update(turn.meta), scope := notes.scope.Append(Kept(turn)));
    if turn.timestamp == 0 then named
    else
      named.(startedAt := if notes.startedAt == 0 then turn.timestamp else notes.startedAt,
             idle := notes.idle + Gap(notes.lastActive, turn.timestamp),
             lastActive := turn.timestamp)
  }

  function NewSubagent(depth: Capacity): SubagentRow {
    var capacity := if depth > MIN_SUBAGENT_TURN_DEPTH then depth else MIN_SUBAGENT_TURN_DEPTH;
    SubagentRow("", "", "", 0, 0, map[], Scope(None, NewRing(capacity)))
  }

  function Described(row: SubagentRow, events: seq<Event>): SubagentRow {
    if events == [] then row
    else
      var before, event := Described(row, events[..|events| - 1]), events[|events| - 1];
      if IsSpawn(event)
      then before.(agentType := event.subagent.value.agentType, description := event.subagent.value.description)
      else before
  }

  /** What a sub-agent's turn does to the sub-agent's own row, usage aside. */
  function SubagentSeen(row: SubagentRow, turn: Turn): SubagentRow {
    var answered := ApplyResults(row.scope, turn.toolResults);
    var scope := if turn.role != NoRole then answered.Append(Kept(turn)) else answered;
    var modelled := row.(scope := scope, model := if turn.meta.model != "" then turn.meta.model else row.model);
    var dated := if turn.timestamp == 0 then modelled
                 else modelled.(firstActive := if row.firstActive == 0 then turn.timestamp else row.firstActive,
                                lastActive := turn.timestamp);
    var described := Described(dated, turn.events);
    described.(touchedFiles := AddFileTouches(described.touchedFiles, turn.fileTouches))
  }

  /** A sub-agent seen for the first time gets a row and a cell, while there is room. */
  function Admitted(a: Accounts, depth: Capacity, id: string): Accounts {
    if id in a.subagents || |a.subagents| >= MAX_SUBAGENT_STATS then a
    else WithSubagent(a, id, NewSubagent(depth), ZERO)
  }

  /** AddSubagentTurn. */
  function AddSubagentTurn(a: Accounts, depth: Capacity, turn: Turn): Accounts {
    var id, known := turn.subagentId, Admitted(a, depth, turn.subagentId);
    if id !in known.subagents then known else Charge(Seen(known, id, turn), SubagentCell(id), id, turn)
  }

  function Seen(a: Accounts, id: string, turn: Turn): Accounts
    requires id in a.subagents
  {
    a.(subagents := a.subagents[id := SubagentSeen(a.subagents[id], turn)])
  }

  // ---- Titles ----

  function Rank(source: TitleSource): nat {
    match source case Custom => 2 case Index => 1 case _ => 0
  }

  predicate HasNewTitle(notes: Notes, title: string, source: TitleSource) {
    title != "" && Rank(source) >= Rank(notes.titleSource) && notes.title != title
  }

  predicate IsSpace(c: char) {
    c in {' ', '\t', '\n', '\r', '\U{0B}', '\U{0C}', '\U{85}', '\U{A0}', '\U{1680}', '\U{2028}', '\U{2029}', '\U{202F}',
        '\U{205F}', '\U{3000}'}
    || '\U{2000}' <= c <= '\U{200A}'
  }

  function TrimLeft(s: string): string { if s != "" && IsSpace(s[0]) then TrimLeft(s[1..]) else s }

  function TrimSpace(s: string): string
    decreases |s|
  {
    if s != "" && IsSpace(s[|s| - 1]) then TrimSpace(s[..|s| - 1]) else TrimLeft(s)
  }

  function FirstLine(s: string): string { if s == "" || s[0] == '\n' then "" else [s[0]] + FirstLine(s[1..]) }

  function DeriveTitle(text: string): string {
    var line := TrimSpace(FirstLine(text));
    if "<" <= line || "# AGENTS.md" <= line then "" else if |line| > 80 then line[..80] else line
  }

  // ---- Plans ----

  function PlanBookOf(notes: Notes): PlanBook {
    PlanBook(notes.planContent, notes.planRevisions, notes.counters.planAlterations)
  }

  /** The notes with a plan protocol's outcome in them. */
  function Planned(notes: Notes, state: PlanState): Notes {
    notes.(planContent := state.book.content, planRevisions := state.book.revisions,
           counters := notes.counters.(planAlterations := state.book.alterations),
           events := ArriveAll(notes.events, state.events))
  }

  /** The directory a session's plan is persisted to; only Claude's plans are. */
  function PlanDiskOf(agent: Agent, disk: Option<PlanDisk>): Option<PlanDisk> { if agent == Claude then disk else None }

  function PlanStateOf(notes: Notes, disk: Option<PlanDisk>): PlanState {
    PlanState(PlanBookOf(notes), PlanDiskOf(notes.agent, disk), [])
  }

  /** setPlanContent on a session: the plan protocol, its events appended. */
  function NotePlan(notes: Notes, disk: Option<PlanDisk>, edit: Edit, now: Time): (Notes, Option<PlanDisk>) {
    var r := SetPlanContent(PlanStateOf(notes, disk), notes.agent, notes.planExitSeen, edit, now);
    (Planned(notes, r), if notes.agent == Claude then r.disk else disk)
  }

  // ---- AddTurnBySessionId on the session it finds or creates ----

  function NoteTitle(notes: Notes, turn: Turn): Notes {
    var seen := if notes.lastActive == 0 && turn.timestamp != 0 then notes.(lastActive := turn.timestamp) else notes;
    if HasNewTitle(seen, turn.customTitle, turn.titleSource)
    then seen.(title := turn.customTitle, titleSource := turn.titleSource) else seen
  }

  function Located(notes: Notes, path: string): Notes {
    if path != "" && notes.filePath == "" then notes.(filePath := path) else notes
  }

  predicate IsPrompt(turn: Turn) { turn.role == User && TrimSpace(turn.text) != "" }

  function Prompted(notes: Notes, turn: Turn): Notes {
    var located := Located(notes, turn.filePath);
    if IsPrompt(turn) then located.(currentPromptId := turn.promptId) else located
  }

  function Observed(notes: Notes, turn: Turn): Notes {
    notes.(touchedFiles := AddFileTouches(notes.touchedFiles, turn.fileTouches),
        scope := ApplyResults(notes.scope, turn.toolResults))
  }

  /** What a main-chain turn signals besides the turn itself, on everything but the skill windows. */
  function NoteSignals(notes: Notes, turn: Turn): Notes {
    Observed(NoteEvents(Prompted(notes, turn), turn.events), turn)
  }

  /** A new prompt closes the main window. */
  function Bounded(a: Accounts, notes: Notes, turn: Turn): Accounts {
    if IsPrompt(turn) && !IsSamePrompt(notes, turn.promptId) then CloseSkillWindow(a, "", turn.timestamp) else a
  }

  /** The signals on the skill windows; an invoked skill opens one. */
  function WindowSignals(a: Accounts, notes: Notes, turn: Turn): Accounts {
    WindowEvents(Bounded(a, notes, turn), turn.events)
  }

  function NoteDerivedTitle(notes: Notes, turn: Turn): Notes {
    if notes.title == "" && turn.role == User && turn.text != "" && DeriveTitle(turn.text) != ""
    then notes.(title := DeriveTitle(turn.text), titleSource := Derived) else notes
  }

  function NoteModelChange(notes: Notes, turn: Turn): Notes {
    if turn.meta.model != "" && notes.meta.model != "" && turn.meta.model != notes.meta.model
    then
      var change := ModelPayload(notes.meta.model, turn.meta.model);
      NoteEvent(notes, BareEvent(ModelChanged, turn.timestamp).(model := Some(change)))
    else notes
  }

  /** A plan turn without text stops after its plan. */
  predicate IsPlanOnly(turn: Turn) { turn.planFilePath != "" && turn.text == "" }

  predicate IsChat(turn: Turn) { !IsPlanOnly(turn) && turn.role != NoRole }

  function NotePlanTurn(notes: Notes, disk: Option<PlanDisk>, turn: Turn, now: Time): (Notes, Option<PlanDisk>) {
    if turn.planFilePath == "" then (notes, disk)
    else NotePlan(notes.(planFilePath := turn.planFilePath), disk, Edit(turn.planContent, turn.timestamp), now)
  }

  function NoteChat(notes: Notes, turn: Turn): Notes {
    NoteTurn(NoteModelChange(NoteDerivedTitle(notes, turn), turn), turn)
  }

  function NoteMain(notes: Notes, disk: Option<PlanDisk>, turn: Turn, now: Time): (Notes, Option<PlanDisk>) {
    if turn.customTitle != "" then (NoteTitle(notes, turn), disk)
    else
      var (planned, after) := NotePlanTurn(NoteSignals(notes, turn), disk, turn, now);
      (if IsChat(turn) then NoteChat(planned, turn) else planned, after)
  }

  function ChargeMain(a: Accounts, notes: Notes, turn: Turn): Accounts {
    if turn.customTitle != "" then a
    else
      var signalled := WindowSignals(a, notes, turn);
      if IsPlanOnly(turn) then signalled
      else if turn.IsUsageSignal() then signalled.(cells := signalled.cells[SessionCell := turn.usage.value])
      else if turn.role == NoRole then signalled
      else ChargeTurn(signalled, turn)
  }

  /** One line's turn, and the clock reading it arrived at. */
  datatype Arrival = Arrival(turn: Turn, now: Time)

  /** A session together with its plan directory. */
  datatype Desk = Desk(ledger: Ledger, disk: Option<PlanDisk>)

  function IngestSubagent(ledger: Ledger, turn: Turn): Ledger {
    var told := NoteEvents(ledger.notes, turn.events);
    Ledger(told.(touchedFiles := AddFileTouches(told.touchedFiles, turn.fileTouches)),
           AddSubagentTurn(WindowEvents(ledger.accounts, turn.events), told.scope.ring.capacity, turn))
  }

  function Ingest(desk: Desk, arrival: Arrival): Desk {
    var turn, notes, accounts := arrival.turn, desk.ledger.notes, desk.ledger.accounts;
    if turn.subagentId != "" then desk.(ledger := IngestSubagent(desk.ledger, turn))
    else
      var (after, disk) := NoteMain(notes, desk.disk, turn, arrival.now);
      Desk(Ledger(after, ChargeMain(accounts, notes, turn)), disk)
  }

  function IngestAll(desk: Desk, arrivals: seq<Arrival>): Desk {
    if arrivals == [] then desk else Ingest(IngestAll(desk, arrivals[..|arrivals| - 1]), arrivals[|arrivals| - 1])
  }

  lemma IngestSnoc(desk: Desk, arrivals: seq<Arrival>, arrival: Arrival)
    ensures IngestAll(desk, arrivals + [arrival]) == Ingest(IngestAll(desk, arrivals), arrival)
  {
    hide Ingest;
    assert (arrivals + [arrival])[..|arrivals|] == arrivals;
  }
}
