/** The session object (session/session.go): usage is counted through pointers into shared cells.
    Every method is proved to do what the ledger of Ledgers.dfy does by index. */
module Sessions {
  import opened Types
  import opened EventBuffers
  import opened SubagentJoin
  import opened TurnBuffers
  import opened Plans
  import opened Ledgers
  import opened SessionParts

  lemma PlannedEvent(was: Notes, state: PlanState, revision: PlanRevision)
    ensures NoteEvent(Planned(was, state), Revised(revision)) ==
            Planned(was, state.(events := state.events + [Revised(revision)]))
  {
    var events, event := state.events, Revised(revision);
    assert (events + [event])[..|events|] == events;
  }

  ghost function DiskOf(dir: PlanDir?): Option<PlanDisk>
    reads dir
  {
    if dir == null then None else Some(dir.Value())
  }

  class Session {
    const agent: Agent
    const events: EventBuffer
    const totalUsage: Usage
    const turnsFinished: TurnBuffer

    var activeSkills: map<string, SkillStat>
    var counters: Counters
    var currentPromptId: string
    var filePath: string
    var idle: nat
    var lastActive: Time
    var meta: Meta
    var planContent: string
    var planExitSeen: bool
    var planFilePath: string
    var planRevisions: seq<PlanRevision>
    var skills: seq<SkillStat>
    var startedAt: Time
    var subagents: map<string, SubagentStat>
    var title: string
    var titleSource: TitleSource
    var touchedFiles: Touches
    var turnActive: Option<Turn>
    var usageByRequestId: map<string, RequestUsage>

    /** The pointer graph read as indices, and the cells by place; Valid ties both to the objects. */
    ghost var accounts: Accounts
    ghost var cellAt: CellMap

    /** The objects the session owns, by kind. */
    ghost var ownedCells: set<Usage>
    ghost var ownedSkills: set<SkillStat>
    ghost var ownedSubagents: set<SubagentStat>
    ghost var ownedTurns: set<TurnBuffer>

    ghost function Repr(): set<object>
      reads this`ownedCells, this`ownedSkills, this`ownedSubagents, this`ownedTurns
    {
      {this, events, turnsFinished} + ownedCells + ownedSkills + ownedSubagents + ownedTurns
    }

    /** The shape of the pointer graph. */
    ghost predicate GraphOk()
      reads this`skills, this`subagents, this`cellAt, this`accounts, this`activeSkills, this`usageByRequestId
      reads this`ownedCells, this`ownedSkills, this`ownedSubagents, this`ownedTurns
      reads ownedCells, ownedSkills, ownedSubagents, ownedTurns
    {
      && InPlace(cellAt, totalUsage, skills, subagents)
      && WindowsOk(skills, activeSkills, accounts.active)
      && RequestsOk(cellAt, usageByRequestId, accounts.requests)
      && CellsHold(cellAt, accounts.cells, ownedCells)
      && SkillsHold(skills, accounts.skills, ownedSkills)
      && SubagentsHold(subagents, accounts.subagents, ownedSubagents, ownedTurns)
    }

    ghost predicate Valid()
      reads this, Repr()
    {
      turnsFinished.owner == None && turnsFinished !in ownedTurns && GraphOk()
    }

    function ReadNotes(): Notes
      reads this`counters, this`currentPromptId, this`filePath, this`idle, this`lastActive, this`meta, this`planContent
      reads this`planExitSeen, this`planFilePath, this`planRevisions, this`startedAt, this`title, this`titleSource
      reads this`touchedFiles, this`turnActive, events, turnsFinished
    {
      Notes(agent, counters, currentPromptId, events.Log(), filePath, idle, lastActive, meta,
            planContent, planExitSeen, planFilePath, planRevisions, startedAt, title, titleSource, touchedFiles,
            Scope(turnActive, turnsFinished.Value()))
    }

    /** The session as a ledger. */
    ghost function View(): Ledger
      reads this, events, turnsFinished
    {
      Ledger(ReadNotes(), accounts)
    }

    /** A session with these notes, this total, and no skill, sub-agent or request. */
    constructor (notes: Notes, total: Tokens)
      ensures Valid()
      ensures fresh(events) && fresh(turnsFinished) && ownedCells == {totalUsage} && fresh(totalUsage)
      ensures ownedSkills == {} && ownedSubagents == {} && ownedTurns == {}
      ensures ReadNotes() == notes && accounts == EMPTY_ACCOUNTS.(cells := map[SessionCell := total])
    {
      agent := notes.agent;
      events := new EventBuffer.Decode(notes.events);
      totalUsage := new Usage(total, SessionCell);
      turnsFinished := new TurnBuffer.Decode(notes.scope.ring, None);
      activeSkills, skills, subagents, usageByRequestId := map[], [], map[], map[];
      counters, meta := notes.counters, notes.meta;
      currentPromptId, filePath, planContent := notes.currentPromptId, notes.filePath, notes.planContent;
      planFilePath, title := notes.planFilePath, notes.title;
      idle, lastActive, startedAt, planExitSeen := notes.idle, notes.lastActive, notes.startedAt, notes.planExitSeen;
      planRevisions, titleSource, touchedFiles, turnActive := notes.planRevisions, notes.titleSource,
          notes.touchedFiles, notes.scope.active;
      accounts, cellAt := EMPTY_ACCOUNTS.(cells := map[SessionCell := total]), map[SessionCell := totalUsage];
      ownedCells, ownedSkills, ownedSubagents, ownedTurns := {totalUsage}, {}, {}, {};
      new;
      hide CellsHold, SkillsHold, SubagentsHold, InPlace, WindowsOk, RequestsOk;
      NothingYet(totalUsage);
    }

    // ---- Usage ----

    /** Adding to one cell moves that cell and nothing else. */
    method AddTo(u: Usage, usage: Tokens)
      requires CellsHold(cellAt, accounts.cells, ownedCells) && IsCell(cellAt, u)
      modifies this`accounts, u
      ensures CellsHold(cellAt, accounts.cells, ownedCells)
      ensures accounts == old(accounts).(cells := Adjust(old(accounts).cells, u.where, usage))
    {
      u.Add(Some(usage));
      accounts := accounts.(cells := accounts.cells[u.where := u.Value()]);
    }

    method SubFrom(u: Usage, usage: Tokens)
      requires CellsHold(cellAt, accounts.cells, ownedCells) && IsCell(cellAt, u)
      modifies this`accounts, u
      ensures CellsHold(cellAt, accounts.cells, ownedCells)
      ensures accounts == old(accounts).(cells := Adjust(old(accounts).cells, u.where, ZERO.Minus(usage)))
    {
      u.Sub(Some(usage));
      accounts := accounts.(cells := accounts.cells[u.where := u.Value()]);
    }

    method TakeBack(previous: RequestUsage)
      requires CellsHold(cellAt, accounts.cells, ownedCells) && AreCells(cellAt, previous.targets)
      modifies this`accounts, ownedCells
      ensures CellsHold(cellAt, accounts.cells, ownedCells)
      ensures accounts ==
              old(accounts).(cells := AdjustAll(old(accounts).cells, Places(previous.targets), ZERO.Minus(previous.counted)))
    {
      ghost var places, back := Places(previous.targets), ZERO.Minus(previous.counted);
      for i := 0 to |previous.targets|
        invariant CellsHold(cellAt, accounts.cells, ownedCells)
        invariant accounts == old(accounts).(cells := AdjustAll(old(accounts).cells, places[..i], back))
      {
        assert places[..i + 1][..i] == places[..i];
        SubFrom(previous.targets[i], previous.counted);
      }
      assert places[..|places|] == places;
    }

    method Count(usage: Tokens, targets: seq<Usage>)
      requires CellsHold(cellAt, accounts.cells, ownedCells) && AreCells(cellAt, targets)
      modifies this`accounts, ownedCells
      ensures CellsHold(cellAt, accounts.cells, ownedCells)
      ensures accounts == old(accounts).(cells := AdjustAll(old(accounts).cells, Places(targets), usage))
    {
      ghost var places := Places(targets);
      for i := 0 to |targets|
        invariant CellsHold(cellAt, accounts.cells, ownedCells)
        invariant accounts == old(accounts).(cells := AdjustAll(old(accounts).cells, places[..i], usage))
      {
        assert places[..i + 1][..i] == places[..i];
        AddTo(targets[i], usage);
      }
      assert places[..|places|] == places;
    }

    /** The request remembers what it counted and where. */
    method KeepRequest(requestId: string, usage: RequestUsage)
      requires RequestsOk(cellAt, usageByRequestId, accounts.requests) && AreCells(cellAt, usage.targets)
      modifies this`usageByRequestId, this`accounts
      ensures RequestsOk(cellAt, usageByRequestId, accounts.requests)
      ensures accounts == old(accounts).(
                requests := old(accounts).requests[requestId := RequestRow(usage.counted, Places(usage.targets))])
    {
      hide RequestsOk, AreCells, Places;
      RequestCounted(cellAt, usageByRequestId, accounts.requests, requestId, usage);
      usageByRequestId := usageByRequestId[requestId := usage];
      accounts := accounts.(requests := accounts.requests[requestId := RequestRow(usage.counted, Places(usage.targets))]);
    }

    /** applyRequestUsage: what the request counted before is taken back from the cells it went to. */
    method ApplyRequestUsage(requestId: string, usage: Tokens, targets: seq<Usage>)
      requires CellsHold(cellAt, accounts.cells, ownedCells) && RequestsOk(cellAt, usageByRequestId, accounts.requests)
      requires AreCells(cellAt, targets)
      modifies this`usageByRequestId, this`accounts, ownedCells
      ensures CellsHold(cellAt, accounts.cells, ownedCells) && RequestsOk(cellAt, usageByRequestId, accounts.requests)
      ensures accounts == Ledgers.ApplyRequestUsage(old(accounts), requestId, usage, Places(targets))
    {
      hide CellsHold, RequestsOk, AreCells, Places;
      if requestId in usageByRequestId {
        RequestHas(cellAt, usageByRequestId, accounts.requests, requestId);
        TakeBack(usageByRequestId[requestId]);
      } else {
        RequestHasNot(cellAt, usageByRequestId, accounts.requests, requestId);
      }
      Count(usage, targets);
      KeepRequest(requestId, RequestUsage(usage, targets));
    }

    // ---- Skill windows ----

    /** The end is set once, by a dated line. */
    method EndSkill(stat: SkillStat, timestamp: Time)
      requires SkillsHold(skills, accounts.skills, ownedSkills) && stat in skills
      modifies this`accounts, ownedSkills
      ensures SkillsHold(skills, accounts.skills, ownedSkills) && |accounts.skills| == |old(accounts).skills|
      ensures stat.index < |old(accounts).skills|
      ensures var row := old(accounts).skills[stat.index];
              accounts == old(accounts).(skills := old(accounts).skills[stat.index :=
                            if row.endedAt == 0 && timestamp != 0 then row.(endedAt := timestamp) else row])
    {
      if stat.endedAt == 0 && timestamp != 0 {
        stat.endedAt := timestamp;
      }
      accounts := accounts.(skills := accounts.skills[stat.index := stat.Row()]);
    }

    method CloseSkillWindow(actor: string, timestamp: Time)
      requires SkillsHold(skills, accounts.skills, ownedSkills) && WindowsOk(skills, activeSkills, accounts.active)
      modifies this`activeSkills, this`accounts, ownedSkills
      ensures SkillsHold(skills, accounts.skills, ownedSkills) && WindowsOk(skills, activeSkills, accounts.active)
      ensures accounts == Ledgers.CloseSkillWindow(old(accounts), actor, timestamp)
    {
      hide SkillsHold, WindowsOk;
      WindowCloses(skills, activeSkills, accounts.active, actor);
      WindowOf(skills, activeSkills, accounts.active, actor);
      if actor !in activeSkills {
        assert activeSkills == activeSkills - {actor} && accounts.active == accounts.active - {actor};
        return;
      }
      EndSkill(activeSkills[actor], timestamp);
      activeSkills := activeSkills - {actor};
      accounts := accounts.(active := accounts.active - {actor});
    }

    /** A new cell joins the session's. */
    ghost method OwnCell(u: Usage)
      requires CellsHold(cellAt, accounts.cells, ownedCells)
      modifies this`cellAt, this`accounts, this`ownedCells
      ensures CellsHold(cellAt, accounts.cells, ownedCells)
      ensures cellAt == old(cellAt)[u.where := u] && Repr() == old(Repr()) + {u}
      ensures accounts == old(accounts).(cells := old(accounts).cells[u.where := u.Value()])
    {
      cellAt, ownedCells := cellAt[u.where := u], ownedCells + {u};
      accounts := accounts.(cells := accounts.cells[u.where := u.Value()]);
    }

    ghost method OwnSkill(stat: SkillStat)
      modifies this`ownedSkills
      ensures ownedSkills == old(ownedSkills) + {stat} && Repr() == old(Repr()) + {stat}
    {
      ownedSkills := ownedSkills + {stat};
    }

    ghost method OwnStat(stat: SubagentStat)
      modifies this`ownedSubagents, this`ownedTurns
      ensures ownedSubagents == old(ownedSubagents) + {stat} && ownedTurns == old(ownedTurns) + {stat.turns}
      ensures Repr() == old(Repr()) + {stat, stat.turns}
    {
      ownedSubagents, ownedTurns := ownedSubagents + {stat}, ownedTurns + {stat.turns};
    }

    ghost method OwnSubagent(stat: SubagentStat)
      requires CellsHold(cellAt, accounts.cells, ownedCells)
      requires SubagentsHold(subagents, accounts.subagents, ownedSubagents, ownedTurns)
      requires stat.turns.owner == Some(stat.id)
      modifies this`cellAt, this`accounts, this`ownedCells, this`ownedSubagents, this`ownedTurns
      ensures CellsHold(cellAt, accounts.cells, ownedCells)
      ensures SubagentsHold(subagents[stat.id := stat], accounts.subagents, ownedSubagents, ownedTurns)
      ensures cellAt == old(cellAt)[stat.usage.where := stat.usage]
      ensures ownedTurns == old(ownedTurns) + {stat.turns} && Repr() == old(Repr()) + {stat.usage, stat, stat.turns}
      ensures accounts == old(accounts).(cells := old(accounts).cells[stat.usage.where := stat.usage.Value()],
                                         subagents := old(accounts).subagents[stat.id := stat.Row()])
    {
      hide CellsHold, SubagentsHold, SubagentStat.Row, Usage.Value, Repr;
      SubagentsHoldMore(subagents, accounts.subagents, ownedSubagents, ownedTurns, stat);
      OwnCell(stat.usage);
      OwnStat(stat);
      accounts := accounts.(subagents := accounts.subagents[stat.id := stat.Row()]);
    }

    /** Appends a skill with a cell of its own. */
    method PushSkill(row: SkillRow, value: Tokens) returns (stat: SkillStat)
      requires InPlace(cellAt, totalUsage, skills, subagents)
      requires CellsHold(cellAt, accounts.cells, ownedCells) && SkillsHold(skills, accounts.skills, ownedSkills)
      modifies this`skills, this`accounts, this`cellAt, this`ownedSkills, this`ownedCells
      ensures InPlace(cellAt, totalUsage, skills, subagents)
      ensures CellsHold(cellAt, accounts.cells, ownedCells) && SkillsHold(skills, accounts.skills, ownedSkills)
      ensures forall o :: o in Repr() && o !in old(Repr()) ==> fresh(o)
      ensures stat.index == |old(skills)| && skills == old(skills) + [stat]
      ensures SkillCell(stat.index) !in old(cellAt) && cellAt == old(cellAt)[SkillCell(stat.index) := stat.usage]
      ensures accounts == old(accounts).(cells := old(accounts).cells[SkillCell(stat.index) := value],
              skills := old(accounts).skills + [row])
    {
      hide CellsHold, SkillsHold, InPlace, Repr;
      stat := new SkillStat(row, value, |skills|);
      SkillInPlace(cellAt, totalUsage, skills, subagents, stat);
      OwnCell(stat.usage);
      SkillsHoldMore(skills, accounts.skills, ownedSkills, stat);
      OwnSkill(stat);
      skills, accounts := skills + [stat], accounts.(skills := accounts.skills + [row]);
    }

    /** A new skill becomes its actor's window. */
    method StartWindow(event: Event)
      requires GraphOk() && event.skill.Some?
      modifies this`activeSkills, this`skills, this`accounts, this`cellAt, this`ownedSkills, this`ownedCells
      ensures GraphOk() && accounts == Ledgers.StartWindow(old(accounts), event)
      ensures forall o :: o in Repr() && o !in old(Repr()) ==> fresh(o)
    {
      hide CellsHold, SkillsHold, SubagentsHold, InPlace, WindowsOk, RequestsOk, Repr;
      SkillsAlike(skills, accounts.skills, ownedSkills);
      ghost var before, cellsBefore := skills, cellAt;
      var stat := PushSkill(OpenedRow(event), ZERO);
      WindowOpens(before, activeSkills, accounts.active, event.actor, stat);
      RequestsSeeMoreCells(cellsBefore, usageByRequestId, accounts.requests, SkillCell(|before|), stat.usage);
      activeSkills, accounts := activeSkills[event.actor := stat],
          accounts.(active := accounts.active[event.actor := |before|]);
    }

    method OpenSkillWindow(event: Event)
      requires GraphOk() && event.skill.Some?
      modifies this`activeSkills, this`skills, this`accounts, this`cellAt, this`ownedSkills, this`ownedCells, ownedSkills
      ensures GraphOk() && accounts == Ledgers.OpenSkillWindow(old(accounts), event)
      ensures forall o :: o in Repr() && o !in old(Repr()) ==> fresh(o)
    {
      hide CellsHold, SkillsHold, SubagentsHold, InPlace, WindowsOk, RequestsOk, Repr;
      SkillsAlike(skills, accounts.skills, ownedSkills);
      CloseSkillWindow(event.actor, event.timestamp);
      if |skills| >= MAX_SKILL_STATS {
        return;
      }
      StartWindow(event);
    }

    // ---- Charging a turn's usage ----

    method UseSkill(stat: SkillStat, turn: Turn)
      requires SkillsHold(skills, accounts.skills, ownedSkills) && stat in skills
      modifies this`accounts, ownedSkills
      ensures SkillsHold(skills, accounts.skills, ownedSkills) && stat.index < |old(accounts).skills|
      ensures var row := old(accounts).skills[stat.index];
              accounts == old(accounts).(skills := old(accounts).skills[stat.index :=
                            row.(endedAt := turn.timestamp, model := if row.model == "" then turn.meta.model else row.model)])
    {
      stat.endedAt := turn.timestamp;
      if stat.model == "" {
        stat.model := turn.meta.model;
      }
      accounts := accounts.(skills := accounts.skills[stat.index := stat.Row()]);
    }

    /** The actor's open window is charged too; it names its model and its end. */
    method UseWindow(actor: string, turn: Turn) returns (targets: seq<Usage>)
      requires SkillsHold(skills, accounts.skills, ownedSkills) && WindowsOk(skills, activeSkills, accounts.active)
      modifies this`accounts, ownedSkills
      ensures SkillsHold(skills, accounts.skills, ownedSkills)
      ensures accounts == old(accounts).(skills := UsedRows(old(accounts).skills, old(accounts).active, actor, turn))
      ensures targets == if actor in activeSkills then [activeSkills[actor].usage] else []
    {
      hide SkillsHold, WindowsOk;
      WindowOf(skills, activeSkills, accounts.active, actor);
      SkillsAlike(skills, accounts.skills, ownedSkills);
      if actor !in activeSkills {
        return [];
      }
      UseSkill(activeSkills[actor], turn);
      return [activeSkills[actor].usage];
    }

    method Charge(owner: Usage, actor: string, turn: Turn)
      requires GraphOk() && IsCell(cellAt, owner)
      modifies this`accounts, this`usageByRequestId, ownedSkills, ownedCells
      ensures GraphOk() && accounts == Ledgers.Charge(old(accounts), owner.where, actor, turn)
    {
      hide CellsHold, SkillsHold, SubagentsHold, InPlace, WindowsOk, RequestsOk, Places, AreCells,
           Applied, UsedRows, ChargedTo;
      if turn.usage == None || turn.requestId == "" {
        return;
      }
      ChargedCells(cellAt, totalUsage, skills, subagents, activeSkills, accounts.active, owner, actor);
      var more := UseWindow(actor, turn);
      ApplyRequestUsage(turn.requestId, turn.usage.value, [owner] + more);
    }

    // ---- Events ----

    method CountEvent(event: Event)
      modifies this`counters, this`planExitSeen
      ensures counters == Counted(old(counters), event)
      ensures planExitSeen == (old(planExitSeen) || event.kind == PlanModeExit)
    {
      match event.kind
      case ModelChanged => counters := counters.(modelChanges := counters.modelChanges + 1);
      case PermissionDenied => CountDenial(event);
      case PermissionGranted => counters := counters.(permissionGrants := counters.permissionGrants + 1);
      case PermissionModeChanged => counters := counters.(permissionModeChanges := counters.permissionModeChanges + 1);
      case PlanModeExit => planExitSeen := true;
      case PlanRejected => counters := counters.(planRejections := counters.planRejections + 1);
      case SkillInvoked => counters := counters.(skillsInvoked := counters.skillsInvoked + 1);
      case SubagentSpawned => counters := counters.(subagentsSpawned := counters.subagentsSpawned + 1);
      case _ =>
    }

    method CountDenial(event: Event)
      requires event.kind == PermissionDenied
      modifies this`counters
      ensures counters == Counted(old(counters), event)
    {
      var isCancellation := event.permission.Some? && event.permission.value.kind in {"cancelled", "interrupted"};
      if isCancellation {
        counters := counters.(permissionCancellations := counters.permissionCancellations + 1);
        return;
      }
      counters := counters.(permissionDenials := counters.permissionDenials + 1);
    }

    /** The event finds its sub-agent, is kept and counted. */
    method RecordEvent(event: Event)
      modifies events, this`counters, this`planExitSeen
      ensures ReadNotes() == NoteEvent(old(ReadNotes()), event)
    {
      hide Counted, AnsweredAll, Resolved;
      var resolved := ResolveSubagentActor(event, events);
      events.Push(resolved);
      CountEvent(event);
    }

    /** appendEvent and AddEvent: recorded, the event may also open a skill window. */
    method AppendEvent(event: Event)
      requires Valid()
      modifies Repr()
      ensures Valid() && forall o :: o in Repr() && o !in old(Repr()) ==> fresh(o)
      ensures ReadNotes() == NoteEvent(old(ReadNotes()), event) && accounts == WindowEvent(old(accounts), event)
    {
      hide CellsHold, SkillsHold, SubagentsHold, InPlace, WindowsOk, RequestsOk, ReadNotes,
           NoteEvent;
      RecordEvent(event);
      if event.kind == SkillInvoked && event.skill.Some? {
        OpenSkillWindow(event);
      }
    }

    method AppendEvents(added: seq<Event>)
      requires Valid()
      modifies Repr()
      ensures Valid() && forall o :: o in Repr() && o !in old(Repr()) ==> fresh(o)
      ensures ReadNotes() == NoteEvents(old(ReadNotes()), added) && accounts == WindowEvents(old(accounts), added)
    {
      hide Valid, Repr, ReadNotes, NoteEvent, WindowEvent;
      for i := 0 to |added|
        invariant Valid() && forall o :: o in Repr() && o !in old(Repr()) ==> fresh(o)
        invariant ReadNotes() == NoteEvents(old(ReadNotes()), added[..i])
        invariant accounts == WindowEvents(old(accounts), added[..i])
      {
        assert added[..i + 1][..i] == added[..i];
        AppendEvent(added[i]);
      }
      assert added[..|added|] == added;
    }

    // ---- Turns ----

    method DateTurn(turn: Turn)
      modifies this`meta, this`startedAt, this`idle, this`lastActive
      ensures meta == old(meta).Update(turn.meta)
      ensures turn.timestamp == 0 ==> startedAt == old(startedAt) && idle == old(idle) && lastActive == old(lastActive)
      ensures turn.timestamp != 0 ==>
                && startedAt == (if old(startedAt) == 0 then turn.timestamp else old(startedAt))
                && idle == old(idle) + Gap(old(lastActive), turn.timestamp)
                && lastActive == turn.timestamp
    {
      meta := meta.Update(turn.meta);
      if turn.timestamp != 0 {
        if startedAt == 0 {
          startedAt := turn.timestamp;
        }
        var gap := turn.timestamp - lastActive;
        if lastActive != 0 && gap >= IDLE_THRESHOLD {
          idle := idle + gap;
        }
        lastActive := turn.timestamp;
      }
    }

    method NoteTurn(turn: Turn)
      requires turnsFinished.owner == None
      modifies this`meta, this`startedAt, this`idle, this`lastActive, this`turnActive, turnsFinished
      ensures ReadNotes() == Ledgers.NoteTurn(old(ReadNotes()), turn)
    {
      DateTurn(turn);
      turnActive := AppendTurn(turnActive, turnsFinished, Kept(turn));
    }

    method ChargeTurn(turn: Turn)
      requires GraphOk()
      modifies this`accounts, this`usageByRequestId, this`activeSkills, ownedSkills, ownedCells
      ensures GraphOk() && accounts == Ledgers.ChargeTurn(old(accounts), turn)
    {
      hide CellsHold, SkillsHold, SubagentsHold, InPlace, WindowsOk, RequestsOk, Ledgers.Charge;
      TotalOf(cellAt, totalUsage, skills, subagents);
      Charge(totalUsage, "", turn);
      if turn.stopReason != "" && turn.stopReason != STOP_REASON_TOOL_USE {
        CloseSkillWindow("", turn.timestamp);
      }
    }

    method AddTurn(turn: Turn)
      requires Valid()
      modifies Repr()
      ensures Valid() && Repr() == old(Repr())
      ensures ReadNotes() == Ledgers.NoteTurn(old(ReadNotes()), turn)
      ensures accounts == Ledgers.ChargeTurn(old(accounts), turn)
    {
      hide CellsHold, SkillsHold, SubagentsHold, InPlace, WindowsOk, RequestsOk, ReadNotes,
           Ledgers.NoteTurn, Ledgers.ChargeTurn;
      ChargeTurn(turn);
      NoteTurn(turn);
    }

    method PushSubagent(id: string, row: SubagentRow, value: Tokens)
      requires GraphOk() && id !in subagents && turnsFinished !in ownedTurns
      modifies this`subagents, this`accounts, this`cellAt, this`ownedCells, this`ownedSubagents, this`ownedTurns
      ensures GraphOk() && turnsFinished !in ownedTurns
      ensures forall o :: o in Repr() && o !in old(Repr()) ==> fresh(o)
      ensures accounts == old(accounts).(cells := old(accounts).cells[SubagentCell(id) := value],
              subagents := old(accounts).subagents[id := row])
      ensures id in subagents
    {
      hide CellsHold, SkillsHold, SubagentsHold, InPlace, WindowsOk, RequestsOk, Repr,
           SubagentStat.Row, Usage.Value, SkillStat.Row;
      var stat := new SubagentStat(row, value, id);
      SubagentInPlace(cellAt, totalUsage, skills, subagents, stat);
      RequestsSeeMoreCells(cellAt, usageByRequestId, accounts.requests, SubagentCell(id), stat.usage);
      OwnSubagent(stat);
      subagents := subagents[id := stat];
    }

    method SeeSubagent(id: string, turn: Turn)
      requires SubagentsHold(subagents, accounts.subagents, ownedSubagents, ownedTurns) && id in subagents
      requires id in accounts.subagents
      modifies this`accounts, ownedSubagents, ownedTurns
      ensures SubagentsHold(subagents, accounts.subagents, ownedSubagents, ownedTurns)
      ensures accounts == Seen(old(accounts), id, turn)
    {
      hide SubagentSeen, SubagentStat.Row, SubagentsHold;
      SubagentHeld(subagents, accounts.subagents, ownedSubagents, ownedTurns, id);
      ghost var (others, rows) := (subagents - {id}, accounts.subagents - {id});
      ghost var (stats, turns) := (ownedSubagents - {subagents[id]}, ownedTurns - {subagents[id].turns});
      subagents[id].See(turn);
      accounts := accounts.(subagents := accounts.subagents[id := SubagentSeen(accounts.subagents[id], turn)]);
      SubagentsHoldMore(others, rows, stats, turns, subagents[id]);
      assert others[id := subagents[id]] == subagents;
      assert rows[id := subagents[id].Row()] == accounts.subagents;
      assert stats + {subagents[id]} == ownedSubagents && turns + {subagents[id].turns} == ownedTurns;
    }

    method MeetSubagent(id: string, turn: Turn)
      requires GraphOk() && id in subagents && id in accounts.subagents
      modifies this`accounts, ownedSubagents, ownedTurns
      ensures GraphOk() && accounts == Seen(old(accounts), id, turn)
    {
      hide CellsHold, SkillsHold, SubagentsHold, InPlace, WindowsOk, RequestsOk, SubagentSeen;
      SeeSubagent(id, turn);
    }

    /** What a known sub-agent's turn adds to it. */
    method ChargeSubagent(id: string, turn: Turn)
      requires GraphOk() && id in subagents && id in accounts.subagents
      modifies this`accounts, this`usageByRequestId, ownedSkills, ownedCells, ownedSubagents, ownedTurns
      ensures GraphOk() && accounts == Ledgers.Charge(Seen(old(accounts), id, turn), SubagentCell(id), id, turn)
    {
      hide CellsHold, SkillsHold, SubagentsHold, InPlace, WindowsOk, RequestsOk, Seen, Ledgers.Charge;
      MeetSubagent(id, turn);
      SubagentOf(cellAt, totalUsage, skills, subagents, id);
      Charge(subagents[id].usage, id, turn);
    }

    /** It leaves the session's own turns alone. */
    method HearSubagent(id: string, turn: Turn)
      requires GraphOk() && id in subagents && id in accounts.subagents && turnsFinished !in ownedTurns
      modifies this`accounts, this`usageByRequestId, ownedSkills, ownedCells, ownedSubagents, ownedTurns
      ensures GraphOk() && ReadNotes() == old(ReadNotes())
      ensures accounts == Ledgers.Charge(Seen(old(accounts), id, turn), SubagentCell(id), id, turn)
    {
      hide GraphOk, Seen, Ledgers.Charge;
      ChargeSubagent(id, turn);
    }

    /** A sub-agent seen for the first time gets a row, while there is room. */
    method AdmitSubagent(id: string) returns (known: bool)
      requires Valid()
      modifies this
      ensures Valid() && forall o :: o in Repr() && o !in old(Repr()) ==> fresh(o)
      ensures ReadNotes() == old(ReadNotes()) && accounts == Admitted(old(accounts), turnsFinished.capacity, id)
      ensures known == (id in subagents) == (id in accounts.subagents)
    {
      hide CellsHold, SkillsHold, SubagentsHold, InPlace, WindowsOk, RequestsOk, ReadNotes;
      SubagentsAlike(subagents, accounts.subagents, ownedSubagents, ownedTurns);
      if id in subagents {
        return true;
      }
      if |subagents| >= MAX_SUBAGENT_STATS {
        return false;
      }
      PushSubagent(id, NewSubagent(turnsFinished.capacity), ZERO);
      return true;
    }

    method AddSubagentTurn(turn: Turn)
      requires Valid()
      modifies Repr()
      ensures Valid() && forall o :: o in Repr() && o !in old(Repr()) ==> fresh(o)
      ensures ReadNotes() == old(ReadNotes())
      ensures accounts == Ledgers.AddSubagentTurn(old(accounts), turnsFinished.capacity, turn)
    {
      hide CellsHold, SkillsHold, SubagentsHold, InPlace, WindowsOk, RequestsOk, ReadNotes,
           SubagentSeen, Ledgers.Charge, Admitted;
      var known := AdmitSubagent(turn.subagentId);
      if known {
        HearSubagent(turn.subagentId, turn);
      }
    }

    // ---- Plans ----

    method AppendPlanVersion(version: PlanVersion)
      modifies this`planRevisions, this`counters
      ensures planRevisions == old(planRevisions) + [Loaded(version)]
      ensures counters == old(counters).(
                planAlterations := old(counters).planAlterations + if version.isAlteration then 1 else 0)
    {
      planRevisions := planRevisions + [PlanRevision(version.body, version.index, version.isAlteration, version.modTime)];
      if version.isAlteration {
        counters := counters.(planAlterations := counters.planAlterations + 1);
      }
    }

    /** hydratePlanState, on a session that has no plan yet. */
    method HydratePlanState(dir: PlanDir?)
      requires PlanBookOf(ReadNotes()) == EMPTY_BOOK
      modifies this`planRevisions, this`counters, this`planContent
      ensures ReadNotes() == WithBook(old(ReadNotes()), Hydrated(DiskOf(dir)))
    {
      if dir == null || |dir.versions| == 0 {
        return;
      }
      var versions := dir.versions;
      for i := 0 to |versions|
        invariant ReadNotes() == WithBook(old(ReadNotes()), AppendVersions(EMPTY_BOOK, versions[..i]))
      {
        assert versions[..i + 1][..i] == versions[..i];
        AppendPlanVersion(versions[i]);
      }
      assert versions[..|versions|] == versions;
      if dir.latest.Some? {
        planContent := dir.latest.value;
      }
    }

    /** The session has got as far as `state` from `was`, and so has its plan directory. */
    ghost predicate Follows(dir: PlanDir?, was: Notes, state: PlanState)
      reads this`counters, this`currentPromptId, this`filePath, this`idle, this`lastActive, this`meta, this`planContent
      reads this`planExitSeen, this`planFilePath, this`planRevisions, this`startedAt, this`title, this`titleSource
      reads this`touchedFiles, this`turnActive, events, turnsFinished, dir
    {
      && agent == was.agent && ReadNotes() == Planned(was, state)
      && state.disk == PlanDiskOf(was.agent, if dir == null then None else Some(dir.Value()))
    }

    method AppendRevised(revision: PlanRevision, dir: PlanDir?, ghost was: Notes, ghost state: PlanState)
      requires Follows(dir, was, state)
      modifies events, this`counters, this`planExitSeen
      ensures Follows(dir, was, state.(events := state.events + [Revised(revision)]))
    {
      PlannedEvent(was, state, revision);
      hide Planned, NoteEvent;
      RecordEvent(BareEvent(PlanRevised, revision.timestamp).(plan := Some(PlanPayload(revision.index))));
    }

    method AdoptPlanVersion(version: PlanVersion, dir: PlanDir?, ghost was: Notes, ghost state: PlanState)
      requires Follows(dir, was, state)
      modifies events, this`planRevisions, this`counters, this`planExitSeen
      ensures Follows(dir, was, Adopted(state, version))
    {
      AppendPlanVersion(version);
      if version.index != 0 {
        AppendRevised(Loaded(version), dir, was, PlanState(state.book.Append(Loaded(version)), state.disk, state.events));
      }
    }

    method AdoptPlanVersions(dir: PlanDir, ghost was: Notes, ghost state: PlanState)
      requires Follows(dir, was, state)
      modifies events, this`planRevisions, this`counters, this`planExitSeen
      ensures Follows(dir, was, Adopt(state, dir.versions, state.book.NextIndex()))
    {
      hide Follows;
      var next := NextPlanIndex(dir, was, state);
      var versions := dir.versions;
      for i := 0 to |versions|
        invariant Follows(dir, was, Adopt(state, versions[..i], next))
      {
        assert versions[..i + 1][..i] == versions[..i];
        if versions[i].index >= next {
          AdoptPlanVersion(versions[i], dir, was, Adopt(state, versions[..i], next));
        }
      }
      assert versions[..|versions|] == versions;
    }

    method NextPlanIndex(dir: PlanDir?, ghost was: Notes, ghost state: PlanState) returns (next: nat)
      requires Follows(dir, was, state)
      ensures next == state.book.NextIndex()
    {
      if |planRevisions| == 0 {
        return 0;
      }
      return planRevisions[|planRevisions| - 1].index + 1;
    }

    /** Adopts what other instances recorded; tells whether the disk already holds the content. */
    method SyncPlanFromDisk(content: string, dir: PlanDir?, ghost was: Notes,
                            ghost state: PlanState) returns (held: bool)
      requires Follows(dir, was, state)
      modifies events, this`planRevisions, this`counters, this`planExitSeen, this`planContent
      ensures Follows(dir, was, Synced(state)) && held == DiskHolds(state.disk, content)
    {
      if dir == null || agent != Claude || dir.latest == None {
        return false;
      }
      var latest := dir.latest.value;
      if latest != planContent {
        AdoptPlanVersions(dir, was, state);
        planContent := latest;
      }
      return latest == content;
    }

    /** Only Claude's plans are written. */
    ghost function Written(dir: PlanDir?): set<object> { if agent == Claude && dir != null then {dir} else {} }

    method PersistPlanVersion(latest: string, revision: PlanRevision, dir: PlanDir?, ghost was: Notes,
                              ghost state: PlanState)
      requires Follows(dir, was, state)
      modifies Written(dir)
      ensures Follows(dir, was, state.(disk := Persisted(state.disk, latest, revision)))
    {
      if dir == null || agent != Claude {
        return;
      }
      dir.WritePlanVersion(Stored(revision));
      dir.WritePlanLatest(latest);
    }

    method IsAlterationPhase() returns (r: bool)
      ensures r == Plans.IsAlterationPhase(agent, planExitSeen, PlanBookOf(ReadNotes()))
    {
      if agent == Codex {
        return |planRevisions| >= 1;
      }
      return planExitSeen;
    }

    method RecordPlanRevision(current: string, previous: string, timestamp: Time, now: Time, dir: PlanDir?,
                              ghost was: Notes, ghost state: PlanState)
      requires Follows(dir, was, state)
      modifies events, this`planRevisions, this`counters, this`planExitSeen, Written(dir)
      ensures Follows(dir, was, Record(state, Plans.IsAlterationPhase(agent, was.planExitSeen, state.book), current,
              previous, timestamp, now))
    {
      var time := if timestamp == 0 then now else timestamp;
      if previous == "" {
        var initial := PlanRevision(Whole(current), 0, false, time);
        planRevisions := planRevisions + [initial];
        PersistPlanVersion(current, initial, dir, was,
            state.(book := state.book.(revisions := state.book.revisions + [initial])));
        return;
      }
      var index := NextPlanIndex(dir, was, state);
      var isAlteration := IsAlterationPhase();
      var revision := PlanRevision(Diff(current, previous), index, isAlteration, time);
      AddRevision(current, revision, dir, was, state);
    }

    method AddRevision(current: string, revision: PlanRevision, dir: PlanDir?, ghost was: Notes, ghost state: PlanState)
      requires Follows(dir, was, state)
      modifies events, this`planRevisions, this`counters, this`planExitSeen, Written(dir)
      ensures Follows(dir, was, Announced(state, current, revision))
    {
      hide Follows, Persisted, Revised, Extended;
      FollowsBook(dir, was, state);
      var isFull := |planRevisions| >= MAX_PLAN_REVISIONS;
      ghost var kept := state.(book := Extended(state.book, revision));
      KeepRevision(revision, dir, was, state);
      if !isFull {
        PersistPlanVersion(current, revision, dir, was, kept);
        kept := kept.(disk := Persisted(state.disk, current, revision));
      }
      AppendRevised(revision, dir, was, kept);
    }

    /** Counted always, kept while there is room. */
    method KeepRevision(revision: PlanRevision, dir: PlanDir?, ghost was: Notes, ghost state: PlanState)
      requires Follows(dir, was, state)
      modifies this`planRevisions, this`counters
      ensures Follows(dir, was, state.(book := Extended(state.book, revision)))
    {
      if revision.isAlteration {
        counters := counters.(planAlterations := counters.planAlterations + 1);
      }
      if |planRevisions| < MAX_PLAN_REVISIONS {
        planRevisions := planRevisions + [revision];
      }
    }

    /** isPlanReplay: no newer than the latest recorded revision. */
    method IsPlanReplay(timestamp: Time) returns (r: bool)
      ensures r == PlanBook(planContent, planRevisions, 0).IsReplay(timestamp)
    {
      if timestamp == 0 || |planRevisions| == 0 {
        return false;
      }
      return timestamp <= planRevisions[|planRevisions| - 1].timestamp;
    }

    lemma FollowsBook(dir: PlanDir?, was: Notes, state: PlanState)
      requires Follows(dir, was, state)
      ensures planContent == state.book.content && planRevisions == state.book.revisions && agent == was.agent
    {
    }

    method RenamePlan(content: string, dir: PlanDir?, ghost was: Notes, ghost state: PlanState)
      requires Follows(dir, was, state)
      modifies this`planContent
      ensures Follows(dir, was, state.(book := state.book.(content := content)))
    {
      planContent := content;
    }

    /** A new edit, not a replay: adopted from the disk, or recorded. */
    method TakeEdit(edit: Edit, now: Time, dir: PlanDir?, ghost was: Notes, ghost state: PlanState)
      requires Follows(dir, was, state)
      modifies events, this`planRevisions, this`counters, this`planExitSeen, this`planContent, Written(dir)
      ensures Follows(dir, was, Taken(state, was.agent, was.planExitSeen, edit, now))
    {
      hide Follows, Synced, Record;
      FollowsBook(dir, was, state);
      var held := SyncPlanFromDisk(edit.content, dir, was, state);
      if !held {
        FollowsBook(dir, was, Synced(state));
        var previous := planContent;
        RenamePlan(edit.content, dir, was, Synced(state));
        RecordPlanRevision(edit.content, previous, edit.timestamp, now, dir, was,
            Synced(state).(book := Synced(state).book.(content := edit.content)));
      }
    }

    /** setPlanContent. */
    method EditPlan(edit: Edit, now: Time, dir: PlanDir?, ghost was: Notes, ghost state: PlanState)
      requires Follows(dir, was, state)
      modifies events, this`planRevisions, this`counters, this`planExitSeen, this`planContent, Written(dir)
      ensures Follows(dir, was, Plans.SetPlanContent(state, was.agent, was.planExitSeen, edit, now))
    {
      hide Follows, Taken;
      FollowsBook(dir, was, state);
      if edit.content == "" || edit.content == planContent {
        return;
      }
      var isReplay := IsPlanReplay(edit.timestamp);
      if isReplay {
        RenamePlan(edit.content, dir, was, state);
        return;
      }
      TakeEdit(edit, now, dir, was, state);
    }

    lemma FollowsAtFirst(dir: PlanDir?)
      ensures Follows(dir, ReadNotes(), PlanStateOf(ReadNotes(), DiskOf(dir)))
    {
    }

    method SetPlanContent(edit: Edit, now: Time, dir: PlanDir?)
      modifies events, this`planRevisions, this`counters, this`planExitSeen, this`planContent, Written(dir)
      ensures (ReadNotes(), DiskOf(dir)) == NotePlan(old(ReadNotes()), old(DiskOf(dir)), edit, now)
    {
      hide Plans.SetPlanContent, Planned;
      FollowsAtFirst(dir);
      EditPlan(edit, now, dir, ReadNotes(), PlanStateOf(ReadNotes(), DiskOf(dir)));
    }

    // ---- One line's turn ----

    method SetTitle(turn: Turn)
      modifies this`title, this`titleSource, this`lastActive
      ensures ReadNotes() == NoteTitle(old(ReadNotes()), turn)
    {
      if lastActive == 0 && turn.timestamp != 0 {
        lastActive := turn.timestamp;
      }
      if turn.customTitle == "" || Rank(turn.titleSource) < Rank(titleSource) || title == turn.customTitle {
        return;
      }
      title, titleSource := turn.customTitle, turn.titleSource;
    }

    /** A title line changes the title and nothing else. */
    method Retitle(turn: Turn)
      requires Valid()
      modifies Repr()
      ensures Valid() && Repr() == old(Repr()) && accounts == old(accounts)
      ensures ReadNotes() == NoteTitle(old(ReadNotes()), turn)
    {
      hide CellsHold, SkillsHold, SubagentsHold, InPlace, WindowsOk, RequestsOk, ReadNotes,
           NoteTitle;
      SetTitle(turn);
    }

    method EnterPrompt(promptId: string) returns (isSameSubmission: bool)
      modifies this`currentPromptId
      ensures ReadNotes() == old(ReadNotes()).(currentPromptId := promptId)
      ensures isSameSubmission == IsSamePrompt(old(ReadNotes()), promptId)
    {
      isSameSubmission := promptId != "" && promptId == currentPromptId;
      currentPromptId := promptId;
    }

    /** HandlePromptBoundary: a prompt of another submission ends the main window. */
    method HandlePromptBoundary(promptId: string, timestamp: Time)
      requires Valid()
      modifies this`currentPromptId, this`activeSkills, this`accounts, ownedSkills
      ensures Valid() && ReadNotes() == old(ReadNotes()).(currentPromptId := promptId)
      ensures accounts == if IsSamePrompt(old(ReadNotes()), promptId) then old(accounts)
              else Ledgers.CloseSkillWindow(old(accounts), "", timestamp)
    {
      hide CellsHold, SkillsHold, SubagentsHold, InPlace, WindowsOk, RequestsOk, ReadNotes;
      var isSameSubmission := EnterPrompt(promptId);
      if !isSameSubmission {
        CloseSkillWindow("", timestamp);
      }
    }

    method TouchFiles(touches: seq<FileTouch>)
      modifies this`touchedFiles
      ensures ReadNotes() == old(ReadNotes()).(touchedFiles := AddFileTouches(old(ReadNotes()).touchedFiles, touches))
    {
      touchedFiles := TouchAll(touchedFiles, touches);
    }

    method NoteResults(results: seq<ToolResult>)
      modifies this`turnActive, turnsFinished
      ensures ReadNotes() == old(ReadNotes()).(scope := ApplyResults(old(ReadNotes()).scope, results))
    {
      turnActive := ApplyToolResults(turnActive, turnsFinished, results);
    }

    method LocateFile(path: string)
      modifies this`filePath
      ensures ReadNotes() == Located(old(ReadNotes()), path)
    {
      if path != "" && filePath == "" {
        filePath := path;
      }
    }

    /** A prompt is the boundary of what came before it. */
    method NotePrompt(turn: Turn)
      requires Valid()
      modifies Repr()
      ensures Valid() && Repr() == old(Repr())
      ensures ReadNotes() == Prompted(old(ReadNotes()), turn)
      ensures accounts == Bounded(old(accounts), old(ReadNotes()), turn)
    {
      hide CellsHold, SkillsHold, SubagentsHold, InPlace, WindowsOk, RequestsOk, ReadNotes;
      LocateFile(turn.filePath);
      if turn.role == User && TrimSpace(turn.text) != "" {
        HandlePromptBoundary(turn.promptId, turn.timestamp);
      }
    }

    method Observe(turn: Turn)
      requires Valid()
      modifies Repr()
      ensures Valid() && Repr() == old(Repr()) && accounts == old(accounts)
      ensures ReadNotes() == Observed(old(ReadNotes()), turn)
    {
      hide CellsHold, SkillsHold, SubagentsHold, InPlace, WindowsOk, RequestsOk, ReadNotes, AddFileTouches, ApplyResults;
      TouchFiles(turn.fileTouches);
      NoteResults(turn.toolResults);
    }

    /** What a main-chain turn says before it is a chat turn. */
    method Signal(turn: Turn)
      requires Valid()
      modifies Repr()
      ensures Valid() && forall o :: o in Repr() && o !in old(Repr()) ==> fresh(o)
      ensures ReadNotes() == NoteSignals(old(ReadNotes()), turn)
      ensures accounts == WindowSignals(old(accounts), old(ReadNotes()), turn)
    {
      hide Valid, Repr, ReadNotes, Prompted, Bounded, Observed, NoteEvents, WindowEvents;
      NotePrompt(turn);
      AppendEvents(turn.events);
      Observe(turn);
    }

    method PlanFrom(turn: Turn, now: Time, dir: PlanDir?)
      modifies events, this`planFilePath, this`planRevisions, this`counters, this`planExitSeen, this`planContent, Written(dir)
      ensures (ReadNotes(), DiskOf(dir)) == NotePlanTurn(old(ReadNotes()), old(DiskOf(dir)), turn, now)
    {
      hide NotePlan;
      if turn.planFilePath != "" {
        planFilePath := turn.planFilePath;
        SetPlanContent(Edit(turn.planContent, turn.timestamp), now, dir);
      }
    }

    method UpdatePlan(turn: Turn, now: Time, dir: PlanDir?)
      requires Valid()
      modifies Repr(), Written(dir)
      ensures Valid() && Repr() == old(Repr()) && accounts == old(accounts)
      ensures (ReadNotes(), DiskOf(dir)) == NotePlanTurn(old(ReadNotes()), old(DiskOf(dir)), turn, now)
    {
      hide CellsHold, SkillsHold, SubagentsHold, InPlace, WindowsOk, RequestsOk, ReadNotes,
           NotePlanTurn;
      PlanFrom(turn, now, dir);
    }

    method SetTotal(usage: Tokens)
      requires CellsHold(cellAt, accounts.cells, ownedCells) && IsCell(cellAt, totalUsage)
      requires totalUsage.where == SessionCell
      modifies this`accounts, totalUsage
      ensures CellsHold(cellAt, accounts.cells, ownedCells)
      ensures accounts == old(accounts).(cells := old(accounts).cells[SessionCell := usage])
    {
      totalUsage.Set(usage);
      accounts := accounts.(cells := accounts.cells[SessionCell := usage]);
    }

    /** A usage signal replaces the total. */
    method TakeTotal(usage: Tokens)
      requires Valid()
      modifies Repr()
      ensures Valid() && Repr() == old(Repr()) && ReadNotes() == old(ReadNotes())
      ensures accounts == old(accounts).(cells := old(accounts).cells[SessionCell := usage])
    {
      hide CellsHold, SkillsHold, SubagentsHold, InPlace, WindowsOk, RequestsOk;
      TotalOf(cellAt, totalUsage, skills, subagents);
      IsOwned(cellAt, accounts.cells, ownedCells, totalUsage);
      SetTotal(usage);
    }

    method DeriveTitle(turn: Turn)
      modifies this`title, this`titleSource
      ensures ReadNotes() == NoteDerivedTitle(old(ReadNotes()), turn)
    {
      var isUntitled := title == "";
      var isUserPrompt := turn.role == User && turn.text != "";
      if isUntitled && isUserPrompt {
        var derived := Ledgers.DeriveTitle(turn.text);
        if derived != "" {
          title, titleSource := derived, Derived;
        }
      }
    }

    method NoteModel(turn: Turn)
      modifies events, this`counters, this`planExitSeen
      ensures ReadNotes() == NoteModelChange(old(ReadNotes()), turn)
    {
      hide NoteEvent;
      if turn.meta.model != "" && meta.model != "" && turn.meta.model != meta.model {
        RecordEvent(BareEvent(ModelChanged, turn.timestamp).(model := Some(ModelPayload(meta.model, turn.meta.model))));
      }
    }

    /** The title a first prompt gives, and the model a turn changes to. */
    method Introduce(turn: Turn)
      requires Valid()
      modifies Repr()
      ensures Valid() && Repr() == old(Repr()) && accounts == old(accounts)
      ensures ReadNotes() == NoteModelChange(NoteDerivedTitle(old(ReadNotes()), turn), turn)
    {
      hide CellsHold, SkillsHold, SubagentsHold, InPlace, WindowsOk, RequestsOk, ReadNotes,
           NoteDerivedTitle, NoteModelChange;
      DeriveTitle(turn);
      NoteModel(turn);
    }

    method AddChat(turn: Turn)
      requires Valid()
      modifies Repr()
      ensures Valid() && Repr() == old(Repr())
      ensures ReadNotes() == NoteChat(old(ReadNotes()), turn) && accounts == Ledgers.ChargeTurn(old(accounts), turn)
    {
      hide Valid, Repr, ReadNotes, NoteDerivedTitle, NoteModelChange, Ledgers.NoteTurn, Ledgers.ChargeTurn;
      Introduce(turn);
      AddTurn(turn);
    }

    method HearSubagentTurn(turn: Turn)
      requires Valid()
      modifies Repr()
      ensures Valid() && forall o :: o in Repr() && o !in old(Repr()) ==> fresh(o)
      ensures View() == IngestSubagent(old(View()), turn)
    {
      hide CellsHold, SkillsHold, SubagentsHold, InPlace, WindowsOk, RequestsOk, NoteEvents,
           WindowEvents, Ledgers.AddSubagentTurn;
      AppendEvents(turn.events);
      TouchFiles(turn.fileTouches);
      AddSubagentTurn(turn);
    }

    /** A plan directory belongs to no session: several instances share it. */
    lemma NotOwned(dir: PlanDir?)
      ensures dir == null || dir !in Repr()
    {
    }

    // ---- Restoring a snapshot ----

    /** A decoded skill. */
    method AddSkill(row: SkillRow, value: Tokens)
      requires Valid()
      modifies this
      ensures Valid() && forall o :: o in Repr() && o !in old(Repr()) ==> fresh(o)
      ensures ReadNotes() == old(ReadNotes())
      ensures accounts == WithSkill(old(accounts), row, value)
    {
      hide CellsHold, SkillsHold, SubagentsHold, InPlace, WindowsOk, RequestsOk, Repr, ReadNotes;
      SkillsAlike(skills, accounts.skills, ownedSkills);
      ghost var before, cellsBefore := skills, cellAt;
      var stat := PushSkill(row, value);
      WindowsSeeMoreSkills(before, activeSkills, accounts.active, stat);
      RequestsSeeMoreCells(cellsBefore, usageByRequestId, accounts.requests, SkillCell(|before|), stat.usage);
    }

    /** A decoded sub-agent. */
    method AddSubagent(id: string, row: SubagentRow, value: Tokens)
      requires Valid() && id !in accounts.subagents
      modifies this
      ensures Valid() && forall o :: o in Repr() && o !in old(Repr()) ==> fresh(o)
      ensures ReadNotes() == old(ReadNotes())
      ensures accounts == WithSubagent(old(accounts), id, row, value)
    {
      hide CellsHold, SkillsHold, SubagentsHold, InPlace, WindowsOk, RequestsOk, Repr, ReadNotes;
      SubagentsAlike(subagents, accounts.subagents, ownedSubagents, ownedTurns);
      PushSubagent(id, row, value);
    }

    /** The fields the encoder did not see are set from the snapshot. */
    method RestorePrompt(promptId: string, exitSeen: bool)
      modifies this`currentPromptId, this`planExitSeen
      ensures ReadNotes() == old(ReadNotes()).(currentPromptId := promptId, planExitSeen := exitSeen)
    {
      currentPromptId, planExitSeen := promptId, exitSeen;
    }

    /** The pointers are relinked. */
    method Relink(active: map<string, SkillStat>, requests: map<string, RequestUsage>,
                  ghost activeRows: map<string, nat>, ghost requestRows: map<string, RequestRow>)
      requires Valid() && WindowsOk(skills, active, activeRows) && RequestsOk(cellAt, requests, requestRows)
      modifies this`activeSkills, this`usageByRequestId, this`accounts
      ensures Valid() && accounts == old(accounts).(active := activeRows, requests := requestRows)
    {
      hide CellsHold, SkillsHold, SubagentsHold, InPlace, WindowsOk, RequestsOk;
      activeSkills, usageByRequestId := active, requests;
      accounts := accounts.(active := activeRows, requests := requestRows);
    }

    method SetPrivate(promptId: string, exitSeen: bool, active: map<string, SkillStat>, requests: map<string, RequestUsage>,
                      ghost activeRows: map<string, nat>, ghost requestRows: map<string, RequestRow>)
      requires Valid() && WindowsOk(skills, active, activeRows) && RequestsOk(cellAt, requests, requestRows)
      modifies this
      ensures Valid() && Repr() == old(Repr())
      ensures accounts == old(accounts).(active := activeRows, requests := requestRows)
      ensures ReadNotes() == old(ReadNotes()).(currentPromptId := promptId, planExitSeen := exitSeen)
    {
      hide CellsHold, SkillsHold, SubagentsHold, InPlace, WindowsOk, RequestsOk, Repr, ReadNotes;
      RestorePrompt(promptId, exitSeen);
      Relink(active, requests, activeRows, requestRows);
    }

    /** What the pointers read as is a consistent ledger. */
    lemma ReadsConsistent()
      requires Valid()
      ensures Consistent(accounts)
    {
      ReadsAsConsistent(cellAt, totalUsage, skills, subagents, activeSkills, usageByRequestId, accounts,
                        ownedCells, ownedSkills, ownedSubagents, ownedTurns);
    }

    /** addSubagentTurn and AddTurnBySessionId on the session they find: the ledger's step, by pointers. */
    method AddTurnBySessionId(turn: Turn, now: Time, dir: PlanDir?)
      requires Valid()
      modifies Repr(), Written(dir)
      ensures Valid() && forall o :: o in Repr() && o !in old(Repr()) ==> fresh(o)
      ensures Desk(View(), DiskOf(dir)) == Ingest(old(Desk(View(), DiskOf(dir))), Arrival(turn, now))
    {
      hide Valid, Repr, ReadNotes, IngestSubagent, NoteTitle, NoteSignals, NotePlanTurn, NoteChat, WindowSignals,
           Ledgers.ChargeTurn;
      NotOwned(dir);
      if turn.subagentId != "" {
        HearSubagentTurn(turn);
        return;
      }
      if turn.customTitle != "" {
        Retitle(turn);
        return;
      }
      Signal(turn);
      UpdatePlan(turn, now, dir);
      if turn.planFilePath != "" && turn.text == "" {
        return;
      }
      if turn.usage.Some? && turn.role == NoRole {
        TakeTotal(turn.usage.value);
        return;
      }
      if turn.role == NoRole {
        return;
      }
      AddChat(turn);
    }
  }
}
