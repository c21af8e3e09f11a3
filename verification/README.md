# Sessions, snapshots and plans of peek-mcp: a verified model

peek-mcp tails append-only transcripts of coding agents, folds each line into a per-session ledger, and can go
cold (write its store to a snapshot file and drop it) and warm again. This Dafny project models the state
underneath and proves what the program relies on.

- **The session** (`Types`, `EventBuffers`, `TurnBuffers`, `SubagentJoin`, `Plans`, `Ledgers`, `SessionParts`, `Sessions`).
  `Ledgers` is the session as a value: every usage pointer is an index, and `Ingest` is one line's effect. `Sessions`
  is the session as the program has it, objects that point into shared usage cells; `Session.AddTurnBySessionId` is
  proved to do exactly what `Ingest` does, whatever the pointers share. `now`, where the program reads the clock, is an input.
- **Its laws over whole runs** (`Conservation`, `SkillWindows`, `LastChunks`, `SessionNotes`, `Attribution`, `Denials`,
  `Bounds`). `SkillWindows`, `LastChunks` and `SessionNotes` read every field of a session off its lines alone: which cells a
  line is charged to, dates, names, title, events and counters, plan, files, turns and the rows of the sub-agents.
- **Its snapshot** (`Snapshots`, `SessionStores`): the pointer graph is flattened to indices and relinked; `Run` puts
  any number of cold and warm cycles anywhere into any run and ends where an uninterrupted run ends, for one session
  and for a store object of any number of sessions, with their plan directories.
- **Reading and the warm cycle** (`Readers`, `Stores`, `Warmth`, `WarmSets`): byte-exact incremental reading, and
  schedules of appends, reads, cool-downs and warm-ups with failures, under which no line is lost or taken twice.
  `Warmth` is the instance as a value, `WarmSets` the watchers and the store as objects that do what the value does.
- **Plan revisions** (`PlanSharing`, `PlanReplay`): several stores over one plan directory, and replays.
- **Around them**: `Lifecycles` (calls and keepalive timers), `Readiness` (the ready channel), `Pages` (pagination),
  `Telemetry` (bounded map over files), `DiffSnapshots` (LRU cache and diff files), `Walks` (which directories stay watched).

Objects the program mutates are classes here (`EventBuffer`, `TurnBuffer`, `Usage`, `SkillStat`, `SubagentStat`,
`Session`, `SessionStore`, `PlanDir`, `Watcher`, `Instance`, `Lifecycle`, `PageStore`, `Store`, `SnapshotCache`,
`DiffStore`); protocols between goroutines are state machines whose steps are the critical sections.

## What the proofs found

The code is modelled as it is. Where an expected law fails, the model has the exact condition and an input.

- A store that is told of an edit another store already persisted appends a phantom revision exactly when it has not
  recorded that edit itself, the edit's content is neither the store's nor the latest one, and catching up does not
  fill it: the replay check at session/store.go:204 looks at the store's own revisions before the disk is read at
  session/store.go:210. A store at most one edit behind is safe (`PlanSharing.ReplayWritesNothingExactly`,
  `PlanSharing.OneBehindIsSafe`, `PlanSharing.PhantomExample`).
- A lagging store whose content happens to equal latest.md skips adoption (session/store.go:233) and gives its next
  edit a number already taken (`PlanSharing.NewEditKeepsVersionsExactly`, `PlanSharing.OverwriteExample`).
- Replaying a plan history is idempotent exactly up to 50 changes (`PlanReplay.ReplayIsIdempotentExactly`,
  `PlanReplay.FiftyOneExample`).
- A restored snapshot takes every session but only the read positions under this warm period's directories
  (cmd/warm.go:75-82, watcher/watcher.go:176-180). A session whose directory is missing in one period is counted again
  from the start of its transcript when the directory is back (`Warmth.RestoreIsExactExactly`,
  `Warmth.LeftOutCountsTwice`, `Warmth.LeftOutExample`).
- Diff refreshes and polls are started outside the warm period's wait group (watcher/diff_watcher.go:116 and 299), so
  one that outlives its period reaches the store of the next. A step can be late exactly while such a refresh of an
  earlier period runs; no member of the wait group is ever late (`Readiness.NextMayBeLateExactly`,
  `Readiness.LateExample`, `Readiness.AlwaysSound`).
- A usage signal replaces the session total; from then on the total differs from its requests by exactly what the
  signal said beyond them (`Conservation.TotalIsItsRequestsExactly`, `LastChunks.SignalExample`).
- A dated title line before the first dated turn makes the gap up to that turn count as idle time of a session that has
  not begun (`Bounds.TitleKeepsIdleExactly`, `Bounds.IdleBeforeTheStart`).
- Pagination settles the number of pages before the cuts are known. A section that is alone loses bytes exactly when
  its runes cannot be divided, in order, over that many pages at all; several sections lose nothing if no page edge
  falls inside a rune, or if the last page has enough to spare (`Pages.LosslessExactly`, `Pages.CleanEdgesLoseNothing`,
  `Pages.SlackSuffices`, `Pages.WideRunesAreLost`).

## Model

| member | source | states |
|---|---|---|
| EventBuffers.EventBuffer.Push | session/event_buffer.go:82-96 | the buffer object appends an event exactly while its class has room left |
| EventBuffers.PushKeepsValid | session/event_buffer.go:54-70 | pushing keeps the denial count right and both budgets respected |
| EventBuffers.BufferMeaning | session/event_buffer.go:82-96 | after any history the items are, in order, the first denials and the first other events up to their budgets, never more than the capacity |
| EventBuffers.ClassIsPrefix | session/event_buffer.go:82-96 | each class alone is a prefix of its history: no kind of event displaces the other |
| SubagentJoin.ResolveSubagentActor | session/store.go:736-775 | the loops over the buffer give the arriving result its spawn's agent, and waiting results the arriving spawn's |
| SubagentJoin.ArriveKeepsValid | session/store.go:195-198 | resolving actors never changes what the buffer admits |
| SubagentJoin.JoinMeaning | session/store.go:195-198 | within the budget every interleaving of spawns and results ends as the same joined history |
| SubagentJoin.ResultsNameTheirSpawns | session/store.go:736-775 | a result that did not name its agent ends with its spawn's agent id, as id and as actor, wherever the spawn is; one that did has it for an actor if it had none; nothing else of any event changes |
| SubagentJoin.ArrivalsNameEachOther | session/store.go:736-775 | an arriving result takes the agent of the first spawn with its tool-use id, an arriving spawn gives its own to every waiting result |
| SubagentJoin.LoneResultsWait | session/store.go:748-760 | a result without a spawn stays as it came |
| SubagentJoin.OrderDoesNotMatter | session/store.go:736-775 | the agent an event ends with does not depend on the order of arrival |
| TurnBuffers.TurnBuffer.Push | session/turn_buffer.go:65-77 | the ring drops its oldest turn when full and counts every turn in one of two counters |
| TurnBuffers.TurnBuffer.MarkNewestCall | session/session.go:489-502 | the newest finished turn that made the call, and only its first such call, takes the result |
| TurnBuffers.AppendTurn | session/session.go:364-383 | a chunk of the active request is merged, another request pushes the active turn if it has content |
| TurnBuffers.ApplyToolResults | session/session.go:385-394 | each result marks the active turn's call, else the newest finished one |
| TurnBuffers.ResultMarks | session/session.go:385-502 | a result marks the first call with its id of the newest turn that has one, the turn in progress included, and changes nothing else |
| TurnBuffers.GroupsSnoc | session/session.go:364-383 | one more chunk extends the last maximal run of equal request ids or opens a new one |
| TurnBuffers.GroupingMeaning | session/session.go:364-383 | folding any history leaves the last maximal run active and the last closed non-empty runs in the ring, and counts them all |
| TurnBuffers.RunIsMaximal | session/session.go:364-383 | a run is exactly the chunks from the front with one request id, not empty if there are several |
| TurnBuffers.TwoChunks | session/session.go:364-383 | two chunks of one request are one turn, first chunk first, the rest from the second |
| TurnBuffers.TurnsKept | session/session.go:364-383 | closed turns without text, thinking and calls are dropped; tool-only ones are not conversational |
| TurnBuffers.MixedGroupingMeaning | session/session.go:364-394 | whatever tool results arrive between the chunks, error marks apart the stream reads as the maximal runs of its chunks |
| TurnBuffers.TotalsMeaning | session/session.go:415-481 | both totals count the whole history however many turns the ring has dropped; a read of n yields the last n of what the ring kept and the turn in progress |
| Plans.PlanDir.WritePlanVersion | state/dir.go:371-391 | a version is filed in index order; a file of the same name is replaced |
| Plans.PutFiles | state/dir.go:371-391 | files stay in index order, one a name; the written one takes the place of its name's, every other stays |
| PlanSharing.LateStoreHoldsTheSame | session/store.go:677-690 | a store that first sees the session late takes over exactly what the others hold |
| PlanSharing.FirstDelivery | session/store.go:240-270 | the store that meets a new edit first records and persists it as the next version |
| PlanSharing.LaterDelivery | session/store.go:220-236 | a store one edit behind adopts the recorded version and writes nothing |
| PlanSharing.CatchUp | session/store.go:640-656 | a lagging store adopts every missing version and its events, unless its content equals the latest |
| PlanSharing.RoundsAgree | session/store.go:200-270 | when each edit reaches every store before the next, in any order, all stores and the directory end with one list of revisions |
| PlanSharing.OneVersionPerRound | state/dir.go:234-251 | each round adds one version, numbered without gaps, and leaves the others as they were |
| PlanSharing.ReplayWritesNothingExactly | session/store.go:200-216 | an edit already on disk leaves the disk alone exactly when the store recorded it, its content is the store's or the latest one, or catching up fills the store |
| PlanSharing.OneBehindIsSafe | session/store.go:200-216 | a store at most one edit behind never adds a phantom revision |
| PlanSharing.PhantomExample | session/store.go:204-212 | two edits behind, a store appends a fourth version for the second of three edits |
| PlanSharing.NewEditKeepsVersionsExactly | session/store.go:233-236 | a new edit keeps every version on disk exactly when the store does not lag or its content is not the latest one |
| PlanSharing.OverwriteExample | session/store.go:233-236 | a lagging store with the latest content overwrites version 1 |
| PlanReplay.RecordedTimesIncrease | session/session.go:118-126 | recorded times strictly increase whatever order dated edits arrive in |
| PlanReplay.NewEditIs | session/store.go:240-270 | an edit new to a session without a directory: whole at first, then the next numbered diff while there is room, announced, dated by the clock if it has no time |
| PlanReplay.ChangesAreFlagged | session/session.go:110-115 | every change but the first is an alteration for Codex, and for Claude once plan mode was left; alterations are counted beyond the fifty kept |
| PlanReplay.FirstPass | session/store.go:240-270 | after a first pass the last revision is the last change there was room for |
| PlanReplay.ReplayIsIdempotentExactly | session/store.go:200-216 | re-ingesting a whole history changes nothing exactly when it changed the plan at most 50 times |
| PlanReplay.FiftyOneExample | session/store.go:262-265 | fifty alternating changes replay to the same state, fifty-one do not |
| SessionParts.Usage.Add | session/usage.go:60-73 | adds nine counters in place; nothing is added for an absent usage |
| SessionParts.Usage.Sub | session/usage.go:45-58 | takes nine counters off in place |
| SessionParts.SubagentStat.See | session/session.go:267-293 | a sub-agent's turn updates its own row: results, turn, model, dates, description, files |
| SessionParts.TouchAll | session/session.go:165-186 | the touch counts of a stream, with no new path once 2000 are known |
| SessionParts.ReadsAsConsistent | session/store_snapshot.go:102-144 | in a session's pointer graph every active skill is in the list and every usage target is one of the session's cells |
| Sessions.Session.ApplyRequestUsage | session/session.go:314-327 | a request's earlier count is taken back from the cells it went to, then the new one is added, cell by cell |
| Sessions.Session.CloseSkillWindow | session/session.go:210-219 | the actor's window closes; its end is set once, and only by a dated line |
| Sessions.Session.OpenSkillWindow | session/session.go:221-238 | the actor's old window closes and a new skill with a cell of its own becomes its window while there is room |
| Sessions.Session.UseWindow | session/session.go:345-351 | the open window names its model and end, and is the further cell charged |
| Sessions.Session.Charge | session/session.go:298-306 | usage goes where the ledger says by index, through the pointers; what that is, SkillWindows.ChargeMoves says |
| Sessions.Session.CountEvent | session/session.go:128-154 | each kind of event moves its own counter |
| Sessions.Session.AppendEvent | session/store.go:195-198 | an event is resolved, kept and counted, and an invoked skill opens its window |
| Sessions.Session.AddTurn | session/session.go:329-360 | a main-chain turn moves dates, idle time, usage, windows and turns as the ledger does |
| Sessions.Session.AdmitSubagent | session/session.go:253-265 | an unknown sub-agent gets a row and a cell while fewer than 300 are known |
| Sessions.Session.AddSubagentTurn | session/session.go:252-307 | a sub-agent's turn updates its row and charges its cell and its window |
| Sessions.Session.HydratePlanState | session/store.go:677-690 | a new session takes its plan over from the directory |
| Sessions.Session.AdoptPlanVersions | session/store.go:640-656 | every version from the session's next index on is appended and announced, the initial one unannounced |
| Sessions.Session.SyncPlanFromDisk | session/store.go:220-236 | a differing latest.md is adopted; tells whether the disk holds the content |
| Sessions.Session.RecordPlanRevision | session/store.go:240-270 | the first plan is stored whole, later ones as diffs with the next index, at most 50 of them |
| Sessions.Session.SetPlanContent | session/store.go:200-216 | an edit leaves session, events and directory where the plan protocol says |
| Sessions.Session.Retitle | session/store.go:88-102 | a title line changes title and source, and the last activity only if there was none |
| Sessions.Session.HandlePromptBoundary | session/session.go:197-204 | a prompt of another submission closes the main window |
| Sessions.Session.Signal | session/store.go:104-123 | file path, prompt, events, touches and tool results, in the code's order |
| Sessions.Session.UpdatePlan | session/store.go:125-135 | a plan turn sets the plan path and brings its content in |
| Sessions.Session.TakeTotal | session/store.go:137-141 | a usage signal replaces the total and no other cell |
| Sessions.Session.AddChat | session/store.go:147-168 | derived title and model change before the turn itself |
| Sessions.Session.AddTurnBySessionId | session/store.go:79-193 | the whole step over pointers is the ledger's step over indices, and keeps the graph well formed |
| Snapshots.ActiveSkillIndexes | session/store_snapshot.go:102-113 | the map from skill pointers gives every window its index; the default 0 is never used |
| Snapshots.UsageTargets | session/store_snapshot.go:134-144 | every cell of the session, and nothing else, gets its name |
| Snapshots.RequestUsageSnapshots | session/store_snapshot.go:116-132 | every target of every request is named; none is skipped |
| Snapshots.NewSessionSnapshot | session/store_snapshot.go:50-58 | the snapshot is the ledger flattened |
| Snapshots.SnapshotRoundTrip | session/store_snapshot.go:50-73 | restoring a ledger's snapshot gives back that ledger |
| Snapshots.Decode | session/store_snapshot.go:60-63 | a decoded session has fresh cells with the stored values and no private fields yet |
| Snapshots.Resolve | session/store_snapshot.go:90-100 | a target resolves to the cell in its place |
| Snapshots.Restore | session/store_snapshot.go:60-73 | relinking gives a well-formed session that reads as the snapshot says |
| Snapshots.Cycle | session/store.go:569-596 | snapshot and restore give a fresh session with the same view |
| Snapshots.Run | session/store.go:569-596 | cycles inserted anywhere in any run do not change the session or the plan directory it ends with |
| Snapshots.Create | session/store.go:598-616 | a session seen for the first time is empty but for its plan |
| SessionStores.IngestKeepsId | session/meta.go:25-28 | a line leaves its session under the id it was told to |
| SessionStores.SessionStore.GetOrCreate | session/store.go:598-616 | a known session stays as it is; an unknown one joins, sharing nothing, with the plan of its directory |
| SessionStores.SessionStore.Tell | session/store.go:79-87 | one session takes the line over its pointers and its plan directory, and no other session or directory moves |
| SessionStores.SessionStore.AddTurnBySessionId | session/store.go:79-193 | the store of objects and its plan directories do what the store of ledgers does; an unknown session's sub-agent turn is dropped |
| SessionStores.SessionStore.WriteSnapshot | session/store.go:585-596 | the snapshots of all sessions, in any order, stand for the whole store |
| SessionStores.SessionStore.Restore | session/store.go:569-583 | each restored session is fresh, and under the id it carries |
| SessionStores.SessionStore.Cycle | session/store.go:557-596 | writing, resetting and restoring leave the store as it was |
| SessionStores.Run | session/store.go:557-596 | cycles inserted anywhere in any run over any sessions change neither the store nor the plan directories it ends with |
| SessionStores.EachSessionIsItsOwn | session/store.go:79-87 | in every run each session is a new one of its first line's agent that ingested its own lines over its own plan directory; until its main chain is heard of there is none |
| Conservation.SumTakes | session/session.go:309-312 | what requests add up to does not depend on their order |
| Conservation.AdjustsEach | session/session.go:323-325 | adding to a list of cells adds to each as often as it is listed |
| Conservation.CountedAnew | session/session.go:314-327 | counting a request anew moves every cell as it moves the sum of the requests |
| Conservation.UsageIsConserved | session/session.go:314-327 | in every run each skill and sub-agent cell is the sum of what requests last counted into it; the total is that and the drift |
| Conservation.EveryCellIsItsRequests | session/session.go:343-353 | without usage signals every cell is the sum of its requests |
| Conservation.TotalIsItsRequestsExactly | session/store.go:139-143 | the total is the sum of its requests exactly when the last signalled total was |
| SkillWindows.CloseEndsIt | session/session.go:210-219 | closing gives the actor's open skill an end if it had none, removes the window and moves nothing else |
| SkillWindows.ChargeMoves | session/session.go:298-306 | a counted turn is taken back where its request was counted before, then added to its owner's cell and its actor's open skill, whose end and missing model it sets; no other cell, skill or request moves |
| SkillWindows.WindowsAreTheLines | session/session.go:189-238 | in every run an actor's window is on the skill it invoked last with no closing line since, and the skills are the first 200 invoked |
| SkillWindows.LinesAreCharged | session/session.go:343-353 | in every run a counted line adds its usage to its stream's cell and to that skill, in place of its request's earlier count, a signalled total replaces the session's, and no other cell changes |
| SkillWindows.TargetsAreCharged | session/session.go:343-353 | the cells a request is recorded with are exactly those its line is charged to |
| SkillWindows.SubagentsAreTheFirst | session/session.go:257-265 | the sub-agents known are the first 300 heard of |
| LastChunks.LastChunkDecides | session/session.go:309-327 | in every run a request's entry is its last counted line, and the cells that line is charged to as read off the lines |
| LastChunks.RequestsAreLastRows | session/session.go:309-327 | the entries of a run are its last counted lines, and no others |
| LastChunks.CellsSumLastChunks | session/session.go:309-327 | in every run each cell is the sum of the last counted lines charged to it, the total beside what the last signal said beyond them |
| LastChunks.SignalExample | session/store.go:137-141 | after a request of one token and a signalled total of two the total is not its requests' sum |
| LastChunks.SkillExample | session/session.go:343-353 | one invoked skill and one token: the session's and the skill's cell hold one each |
| SessionNotes.DatesAreTheLines | session/session.go:333-341 | in every run a session began with its first dated chat line, was last active at its last activity, and was idle for every gap of five minutes or more |
| SessionNotes.NamesAreTheLines | session/session.go:329-331 | its names are the last its chat lines gave, its file the first, its plan file the last, its title the last told of the highest rank or else the first prompt's |
| SessionNotes.StreamIsTheLines | session/store.go:104-123 | its files are those of all lines, its turns what the main lines told, results before the chunk |
| SessionNotes.EventsRecorded | session/session.go:128-154 | events are logged within the budgets and counted by kind, cancellations apart from denials, whether there is room or not |
| SessionNotes.StoryIsTheLines | session/store.go:79-193 | in every run the log, the counters and the plan are those of the lines' events, their plans and their changes of model, in that order |
| SessionNotes.SeenIs | session/session.go:267-293 | what a turn makes of its sub-agent's row, field by field |
| SessionNotes.RowsAreTheLines | session/session.go:252-293 | in every run a sub-agent's row is that of its lines: last spawn, last model, first and last dates, all files, all turns |
| SessionNotes.SessionIsItsLines | session/store.go:598-616 | a session seen for the first time is, in every run, what its lines say on top of its directory's plan |
| Attribution.AlwaysAttributed | session/session.go:221-238 | a window is always its own actor's, and a request is shared within one owner |
| Attribution.SubagentSkillsAtMost | session/session.go:298-306 | a sub-agent's skills together never hold more than the sub-agent |
| Attribution.MainSkillsAtMost | session/session.go:343-353 | the main chain's skills and the drift together never hold more than the session |
| Denials.DenialsAreCounted | session/session.go:88-96 | denials and cancellations add up to the denied events told; the buffer holds the first 2000 |
| Bounds.SessionsStayBounded | session/session.go:165-186 | 3000 events, 200 skills, 300 sub-agents and 2000 touched files are never exceeded |
| Bounds.TouchesAreCounted | session/session.go:165-186 | a kept path has every read and write counted; any other was never touched or came when the list was full |
| Bounds.DerivedTitleIsALine | session/store.go:805-816 | a derived title is the beginning, 80 characters at most, of the trimmed first line; markup and an AGENTS.md heading yield none |
| Bounds.BlanksAreTrimmed | session/store.go:108-110 | nothing is left of a blank text, and one that begins and ends visibly is left alone |
| Bounds.TitleRankNeverFalls | session/session.go:401-411 | a session is renamed only by a title line of no lower rank, or by its first prompt |
| Bounds.TurnKeepsIdle | session/session.go:333-341 | idle gaps stay within the span from the first dated turn to the last |
| Bounds.TitleKeepsIdleExactly | session/store.go:89-92 | a title line keeps that exactly when it is undated or the session has begun |
| Bounds.IdleBeforeTheStart | session/store.go:89-92 | otherwise the gap up to the first turn becomes idle time |
| Stores.ClockIsIdle | session/store.go:79-168 | a line without a plan does not depend on the clock |
| Stores.AddTurnMoves | session/store.go:79-87 | a turn moves its own session as that session's transcript alone would |
| Stores.SessionIsOneIngest | session/store.go:79-87 | a session is a new one that ingested its lines from the first of the main chain on; until then there is none |
| Readers.LinesSplit | watcher/watcher.go:401-428 | content that ends a line can be read apart from what follows |
| Readers.CompletePart | watcher/watcher.go:401-428 | all complete lines lie before the last newline |
| Readers.TextIsALine | watcher/watcher.go:401-428 | a text with a newline, or a carriage return and a newline, is read as itself; an empty line is not read |
| Readers.TakeLines | watcher/watcher.go:401-428 | the split loop takes the non-empty complete lines and counts exactly their bytes |
| Readers.IncrementalIsBatch | watcher/watcher.go:375-432 | any reads of a growing file hand on the lines of its last content, once and in order |
| Readers.ReadsOnlyAdd | watcher/watcher.go:385-399 | whatever becomes of the file no read takes back a line; of a file shorter than what was read it takes nothing |
| Warmth.ParseInTwo | watcher/watcher.go:414-425 | lines parsed in two goes, the parser kept in between, give the same turns |
| Warmth.ReadIsExact | watcher/watcher.go:375-432 | reading a file on keeps every session one ingest of the lines read, and stops where the last complete line ends |
| Warmth.RestoreIsExactExactly | watcher/watcher.go:172-189 | the restored store is exact exactly when every session's transcript is under a watched directory |
| Warmth.ScheduleIsExact | cmd/warm.go:141-189 | after every schedule of appends, reads, cool-downs and warm-ups, whatever fails, each session is one ingest of the lines its transcript is read up to, and so is what is saved |
| Warmth.ReadIsComplete | cmd/warm.go:141-189 | after any schedule, once a warm instance reads a watched transcript on, its sessions are one ingest of all its complete lines |
| Warmth.CycleResumes | cmd/warm.go:57-85 | going cold and warm over the same directories resumes with the same store and positions if the snapshot is written and restores, and from nothing if it does not open or decode; a snapshot is used once |
| Warmth.LeftOutCountsTwice | watcher/watcher.go:385-388 | a transcript read in one warm period, left out of the next and read again in the third counts every turn twice |
| Warmth.LeftOutExample | watcher/watcher.go:385-388 | in that schedule a transcript of one denial counts two |
| WarmSets.Watcher.ReadNewLines | watcher/watcher.go:375-432 | the loop over the new lines moves the watcher's file and the store as one read does |
| WarmSets.Watcher.RestoreFiles | watcher/watcher.go:172-189 | succeeds exactly when every parser under its directory can be restored, and then holds exactly those files; it may stop half way |
| WarmSets.MergedParts | watcher/watcher.go:172-189 | restored watcher by watcher, the files are those under any of the directories |
| WarmSets.Instance.FileStates | cmd/warm.go:116-124 | the watchers' states copied into one map are the instance's |
| WarmSets.Instance.Stop | cmd/warm.go:182-189 | store and read positions are saved together or not at all, then dropped |
| WarmSets.Instance.RestoreSnapshot | cmd/warm.go:57-85 | the store is taken over exactly when the snapshot opens, decodes and every parser is restored; once opened the snapshot is gone |
| WarmSets.Instance.Start | cmd/warm.go:141-150 | whatever a failed restore left in the watchers, nothing of it survives |
| WarmSets.Run | cmd/warm.go:141-189 | for every schedule the objects end in the schedule's state |
| Lifecycles.Lifecycle.Expire | tools/lifecycle.go:55-64 | a stale timer changes nothing but itself; a current one leaves the instance cold, with one expiry recorded if it was warm |
| Lifecycles.Lifecycle.Acquire | tools/lifecycle.go:74-86 | a call makes every earlier timer stale and finds the instance warm |
| Lifecycles.Lifecycle.Release | tools/lifecycle.go:88-100 | the last call to end starts a timer of the current generation |
| Lifecycles.Lifecycle.Start | tools/lifecycle.go:103-111 | warm at once exactly without keepalive |
| Lifecycles.Lifecycle.Widen | tools/lifecycle.go:114-128 | a wider window reloads; any other changes nothing |
| Lifecycles.AlwaysSafe | tools/tools.go:44-84 | after every schedule, late timers included: a current timer means no call in flight, no expiry under a call, strict alternation, a live timer for every warm idle instance unless a widened call is on its way |
| Lifecycles.CallsFindItWarm | tools/lifecycle.go:74-128 | calls in flight are those begun and not ended; under any of them the instance is warm, and with the widest window asked for |
| Lifecycles.GenerationCountsCalls | tools/lifecycle.go:74-86 | the generation is the number of calls begun |
| Lifecycles.FiringCoolsExactly | tools/lifecycle.go:55-64 | after any schedule a timer that fires is gone, and leaves the instance cold exactly when it was cold or no call began since the timer was started; nothing else changes |
| Lifecycles.ExpiryExample | tools/lifecycle.go:55-64 | one call and its keepalive over leave the instance cold |
| Lifecycles.Run | tools/lifecycle.go:48-128 | for every schedule the object ends in the schedule's state, which is safe |
| Readiness.AlwaysSound | cmd/warm.go:141-195 | over all interleavings each ready channel is closed at most once, after its own period's loads; the store is reset when its wait group is through, and only a diff refresh is ever late |
| Readiness.ReadyMeansLoaded | cmd/start.go:332-344 | a store is ready only when its present period's own reporter has seen all its loads |
| Readiness.CanBecomeReady | cmd/start.go:332-344 | from every point of a warm period its store can still become ready: its loads run on and its reporter waits for them |
| Readiness.NextMayBeLateExactly | watcher/diff_watcher.go:107-117 | a goroutine can touch a later period's store exactly while a refresh of an earlier one runs |
| Readiness.LateExample | watcher/diff_watcher.go:107-117 | a refresh outlives its period and touches the next one's store |
| Pages.UTF8SafeSlice | tools/pages.go:185-198 | the longest cut up to the limit that starts a rune |
| Pages.FillPage | tools/pages.go:87-136 | one page drains the six sections in order of priority |
| Pages.Build | tools/pages.go:68-140 | as many pages as the content size says, each the drain of what is left; every page fits, sections' chunks are prefixes, ASCII loses nothing and fills its pages, UTF-8 stays valid and loses at most 3 bytes a page; turns, events, plan, diff, uncommitted diff and memory come in that order |
| Pages.BuildEvents | tools/pages.go:143-176 | the same for two sections, events before revisions |
| Pages.PageFits | tools/pages.go:87-136 | a page carries at most Size bytes |
| Pages.ChunksAreAPrefix | tools/pages.go:87-136 | a section's chunks joined over the pages, and the rest, are the section |
| Pages.ChunksAreUtf8 | tools/pages.go:185-198 | no page cuts a rune: what it carries of valid UTF-8 is valid UTF-8 |
| Pages.PagesInOrder | tools/pages.go:87-136 | while something of a section is left the sections after it get at most what a cut rune leaves them |
| Pages.PageWastes | tools/pages.go:190-197 | a page that leaves something leaves at most the length of a cut rune |
| Pages.AsciiLosesNothing | tools/pages.go:84-140 | if every byte starts a rune nothing is lost and all pages but the last are full |
| Pages.Utf8LosesAtMostThree | tools/pages.go:84-140 | valid UTF-8 loses at most 3 bytes a page |
| Pages.SlackSuffices | tools/pages.go:84-140 | nothing is lost if the last page has room for what a rune may waste on each page before it |
| Pages.CleanEdgesLoseNothing | tools/pages.go:84-140 | if no page edge of the joined sections falls inside a rune nothing is lost and all pages but the last are full |
| Pages.LosslessExactly | tools/pages.go:84-140 | a section alone loses nothing exactly when its runes can be divided, in order, over that many pages at all |
| Pages.WideRunesAreLost | tools/pages.go:185-198 | two three-byte runes in pages of two bytes are lost |
| Pages.PageStore.Next | tools/pages.go:40-51 | the queue's next page; a drained queue yields a zero page |
| Pages.First | tools/tools.go:371-381 | the first page, with an id if others wait |
| Pages.Continue | tools/tools.go:220-237 | the next page; the id is forgotten with the last |
| Pages.EachPageOnce | tools/tools.go:220-237 | a request asked on until there is no more is answered with the first and every waiting page once, in order; only the last has no more, and nothing of it is kept |
| Telemetry.Store.EvictOldest | telemetry/store.go:240-250 | one session leaves memory, and no other was updated before it |
| Telemetry.Store.StatsFor | telemetry/store.go:121-132 | memory or file, the stats continue; memory stays within 1000 sessions |
| Telemetry.Store.Fold | telemetry/store.go:134-147 | a metric changes its session's file as it would an unbounded map, dates it, and changes no request and no other file |
| Telemetry.Store.FoldDecision | telemetry/store.go:149-172 | a decision changes its session's file as it would an unbounded map and no other; a denial or prompted one is listed as it came while fewer than 2000 are, and waits, if it has a tool-use id, at the index of its own request |
| Telemetry.Store.EnrichCommand | telemetry/store.go:174-194 | the waiting request of a session in memory gets the command, in its file, no other request or file changes, and the tool-use id no longer waits |
| Telemetry.Receive | telemetry/store.go:121-194 | one event moves the files as it would an unbounded map, and leaves every other waiting entry waiting unless they overflow |
| Telemetry.DecisionThenResult | telemetry/store.go:149-194 | a decision, other events, then its tool's result: without eviction and overflow in between the command is in the file at the decision's request |
| Telemetry.DecisionsAreCounted | telemetry/store.go:41-65 | over every sequence of events each decision is counted under its source, and the first 2000 denials and prompted ones are listed |
| Telemetry.MetricsAddUp | telemetry/store.go:252-259 | increments of a metric add up, running totals leave the greatest |
| Telemetry.Run | telemetry/store.go:121-194 | for every sequence of events received the files are the unbounded map's stats, and memory stays bounded |
| DiffSnapshots.SnapshotCache.Get | session/snapshot_cache.go:35-46 | a hit is what was last put, and comes first |
| DiffSnapshots.SnapshotCache.Put | session/snapshot_cache.go:48-71 | the cache stays the most recently touched distinct ids with their last content |
| DiffSnapshots.FirstMoved | session/snapshot_cache.go:48-71 | moving an id to the front of the recency list moves or replaces within the capacity |
| DiffSnapshots.TruncateOnce | state/dir.go:400-405 | truncating twice is truncating once |
| DiffSnapshots.TruncateMeans | state/dir.go:400-405 | up to 5 MB a text is kept as it is; of a longer one the first 5 MB and a note that it was cut |
| DiffSnapshots.CandidatesAre | session/store.go:375-388 | the candidates are exactly the sessions with a snapshot, in order of activity |
| DiffSnapshots.DiffStore.LoadDiff | session/store.go:336-368 | a diff is loaded with the cache as without it: the live output, else the snapshot the session knows of, else nothing |
| DiffSnapshots.DiffStore.SeedDiffCache | session/store.go:370-399 | the sessions with a snapshot, the most recent ones up to the capacity, are put from the last to the first |
| DiffSnapshots.SeededAreCached | session/store.go:370-399 | after seeding every seeded session with a file is cached, the most recently active first |
| DiffSnapshots.DiffStore.PersistSnapshot | watcher/diff_watcher.go:213-234 | an empty output never replaces a snapshot; sessions and files change as without a cache, and cache and file agree |
| DiffSnapshots.DiffStore.Refresh | watcher/diff_watcher.go:130-171 | every outcome of git changes sessions and files as without a cache, and leaves cache and files agreeing |
| DiffSnapshots.RefreshServes | watcher/diff_watcher.go:130-171 | git's text is served, and on file if written, unless a snapshot was written after the last turn; then that is served whatever git says; without a text the persisted snapshot is; no other session or file changes |
| DiffSnapshots.OthersServe | session/store.go:598-616 | a session met anew serves the snapshot on disk, a cold instance nothing, a restored session what it served |
| DiffSnapshots.RefreshExample | watcher/diff_watcher.go:130-171 | a stale snapshot gives way to git's text, which a failing refresh leaves to be served |
| DiffSnapshots.SnapshotsAreKept | watcher/diff_watcher.go:213-234 | in every run a snapshot, once there, is never lost and never empty |
| DiffSnapshots.Run | watcher/diff_watcher.go:130-234 | in every run, going cold and warm included, sessions, files and all answers are those of a store without a cache |
| Walks.FoldNewest | watcher/watcher.go:321-327 | the reverse pass gives each directory the newest own time at or below it |
| Walks.RecordModTimes | watcher/watcher.go:76-86 | a directory records the newest of itself and its files |
| Walks.WalkAndWatch | watcher/watcher.go:281-344 | each directory's time is the newest of everything visited below it; watched are the agent's directory and those with something at or below them not older than the cutoff, all of them without one, and no tool-results directory |
| Walks.KeptAreClosed | watcher/watcher.go:334-344 | a kept directory's parent is kept, and an unwatched one has nothing recent below it |

## Left out

- 64-bit wrap-around of counters, offsets and token sums: integers are unbounded here.
- Transcript formats: a parser is any deterministic step from a state and a line to a state and a turn; saving its state is the identity, as are gob and JSON.
- A turn's events after they are stored: a restore separates them from the event buffer's, and nothing reads them again, so stored turns keep none.
- Reading a plan file from disk when the line carries no plan content (session/store.go:704-720), and UpdatePlanForPath: a plan turn's content is part of the line.
- The text of a unified diff: a diff is kept as the pair of texts it is between.
- Two plan versions with one index and different suffixes: their reading order is not defined by the code, the model files them in the order they were written.
- Warmth.ScheduleIsExact: every session has one transcript and no line carries a plan, because across several files the order of reading decides, and a replayed plan reads what an earlier pass wrote; sub-agent files, journals and meta files are such other files.
- WarmSets.Run: the watched directories of a warm-up lie apart, as the program's do, so no path is read by two watchers; which step of opening, decoding or restoring fails is an input; that a failed write leaves the old snapshot is taken from the file layer.
- Lifecycles.Lifecycle.Widen: it may cool under calls in flight, as the code does.
- SessionStores.Run: the index of plain titles is not part of the store; a line's id is the one its turn carries, as at every call (watcher/watcher.go:425, 492 and 588, watcher/codex_index_watcher.go:79).
- Telemetry.Run: a state directory whose writes succeed; token costs are real numbers, so floating-point rounding is not modelled. Events without a session id and other metrics are dropped on receipt (telemetry/otlp.go:94-106 and 145-149).
- DiffSnapshots.Run: one instance, without garbage collection of snapshot files; git's answers and the sessions a restored snapshot holds are inputs, and a refresh is one step.
- Walks.WalkAndWatch: that a walk visits a directory before its contents, and nothing twice, is required of the visited list; which paths are transcripts is not modelled.
- Pages.Build: the page count divides integers where the code rounds a float64 up, equal below 2^53 bytes; JSON rendering of the sections is not modelled.
- The index of plain titles, title search, published events, HTTP, MCP, file-system and git plumbing, configuration and pricing.
