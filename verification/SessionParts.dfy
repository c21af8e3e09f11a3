/** What a session is made of (session/session.go, session/usage.go): usage cells, skills and sub-agents
    as objects, and what it takes for them to read as the rows of a ledger. */
module SessionParts {
  import opened Types
  import opened SubagentJoin
  import opened TurnBuffers
  import opened Ledgers

  /** One usage cell. */
  class Usage {
    /** The place the cell has in its session; it never moves. */
    ghost const where: Target

    var cacheCreation1hInputTokens: int
    var cacheCreation5mInputTokens: int
    var cacheCreationInputTokens: int
    var cacheReadInputTokens: int
    var cachedInputTokens: int
    var inputTokens: int
    var outputTokens: int
    var reasoningOutputTokens: int
    var totalTokens: int

    function Value(): Tokens
      reads this
    {
      Tokens(cacheCreation1hInputTokens, cacheCreation5mInputTokens, cacheCreationInputTokens, cacheReadInputTokens,
             cachedInputTokens, inputTokens, outputTokens, reasoningOutputTokens, totalTokens)
    }

    constructor (value: Tokens, ghost where: Target)
      ensures Value() == value && this.where == where
    {
      this.where := where;
      cacheCreation1hInputTokens, cacheCreation5mInputTokens := value.cacheCreation1h, value.cacheCreation5m;
      cacheCreationInputTokens, cacheReadInputTokens := value.cacheCreation, value.cacheRead;
      cachedInputTokens, inputTokens, outputTokens := value.cachedInput, value.input, value.output;
      reasoningOutputTokens, totalTokens := value.reasoning, value.total;
    }

    method Set(value: Tokens)
      modifies this
      ensures Value() == value
    {
      cacheCreation1hInputTokens, cacheCreation5mInputTokens := value.cacheCreation1h, value.cacheCreation5m;
      cacheCreationInputTokens, cacheReadInputTokens := value.cacheCreation, value.cacheRead;
      cachedInputTokens, inputTokens, outputTokens := value.cachedInput, value.input, value.output;
      reasoningOutputTokens, totalTokens := value.reasoning, value.total;
    }

    method Add(other: Option<Tokens>)
      modifies this
      ensures Value() == match other case Some(usage) => old(Value()).Plus(usage) case None => old(Value())
      ensures other.Some? ==>
                && inputTokens == old(inputTokens) + other.value.input
                && cachedInputTokens == old(cachedInputTokens) + other.value.cachedInput
                && outputTokens == old(outputTokens) + other.value.output
                && reasoningOutputTokens == old(reasoningOutputTokens) + other.value.reasoning
                && totalTokens == old(totalTokens) + other.value.total
                && cacheCreationInputTokens == old(cacheCreationInputTokens) + other.value.cacheCreation
                && cacheCreation5mInputTokens == old(cacheCreation5mInputTokens) + other.value.cacheCreation5m
                && cacheCreation1hInputTokens == old(cacheCreation1hInputTokens) + other.value.cacheCreation1h
                && cacheReadInputTokens == old(cacheReadInputTokens) + other.value.cacheRead
    {
      if other == None {
        return;
      }
      inputTokens := inputTokens + other.value.input;
      cachedInputTokens := cachedInputTokens + other.value.cachedInput;
      outputTokens := outputTokens + other.value.output;
      reasoningOutputTokens := reasoningOutputTokens + other.value.reasoning;
      totalTokens := totalTokens + other.value.total;
      cacheCreationInputTokens := cacheCreationInputTokens + other.value.cacheCreation;
      cacheCreation5mInputTokens := cacheCreation5mInputTokens + other.value.cacheCreation5m;
      cacheCreation1hInputTokens := cacheCreation1hInputTokens + other.value.cacheCreation1h;
      cacheReadInputTokens := cacheReadInputTokens + other.value.cacheRead;
    }

    method Sub(other: Option<Tokens>)
      modifies this
      ensures Value() == match other case Some(usage) => old(Value()).Minus(usage) case None => old(Value())
      ensures other.Some? ==>
                && inputTokens == old(inputTokens) - other.value.input
                && cachedInputTokens == old(cachedInputTokens) - other.value.cachedInput
                && outputTokens == old(outputTokens) - other.value.output
                && reasoningOutputTokens == old(reasoningOutputTokens) - other.value.reasoning
                && totalTokens == old(totalTokens) - other.value.total
                && cacheCreationInputTokens == old(cacheCreationInputTokens) - other.value.cacheCreation
                && cacheCreation5mInputTokens == old(cacheCreation5mInputTokens) - other.value.cacheCreation5m
                && cacheCreation1hInputTokens == old(cacheCreation1hInputTokens) - other.value.cacheCreation1h
                && cacheReadInputTokens == old(cacheReadInputTokens) - other.value.cacheRead
    {
      if other == None {
        return;
      }
      inputTokens := inputTokens - other.value.input;
      cachedInputTokens := cachedInputTokens - other.value.cachedInput;
      outputTokens := outputTokens - other.value.output;
      reasoningOutputTokens := reasoningOutputTokens - other.value.reasoning;
      totalTokens := totalTokens - other.value.total;
      cacheCreationInputTokens := cacheCreationInputTokens - other.value.cacheCreation;
      cacheCreation5mInputTokens := cacheCreation5mInputTokens - other.value.cacheCreation5m;
      cacheCreation1hInputTokens := cacheCreation1hInputTokens - other.value.cacheCreation1h;
      cacheReadInputTokens := cacheReadInputTokens - other.value.cacheRead;
    }
  }

  class SkillStat {
    /** The position in the session's Skills. */
    ghost const index: nat
    const agentId: string
    const skill: string
    const args: string
    const startedAt: Time
    const usage: Usage
    var endedAt: Time
    var model: string

    function Row(): SkillRow
      reads this
    {
      SkillRow(agentId, skill, args, model, startedAt, endedAt)
    }

    constructor (row: SkillRow, value: Tokens, ghost index: nat)
      ensures this.index == index && Row() == row
      ensures fresh(usage) && usage.where == SkillCell(index) && usage.Value() == value
    {
      agentId, skill, args, startedAt := row.agentId, row.skill, row.args, row.startedAt;
      endedAt, model := row.endedAt, row.model;
      this.index := index;
      usage := new Usage(value, SkillCell(index));
    }
  }

  class SubagentStat {
    /** The key in the session's Subagents. */
    ghost const id: string
    const turns: TurnBuffer
    const usage: Usage
    var agentType: string
    var description: string
    var firstActive: Time
    var lastActive: Time
    var model: string
    var touchedFiles: Touches
    var turnActive: Option<Turn>

    function Row(): SubagentRow
      reads this, turns
    {
      SubagentRow(agentType, description, model, firstActive, lastActive, touchedFiles, Scope(turnActive, turns.Value()))
    }

    constructor (row: SubagentRow, value: Tokens, ghost id: string)
      ensures this.id == id && turns.owner == Some(id) && fresh(turns) && Row() == row
      ensures fresh(usage) && usage.where == SubagentCell(id) && usage.Value() == value
    {
      agentType, description, model := row.agentType, row.description, row.model;
      firstActive, lastActive, touchedFiles, turnActive := row.firstActive, row.lastActive, row.touchedFiles, row.scope.active;
      this.id := id;
      turns := new TurnBuffer.Decode(row.scope.ring, Some(id));
      usage := new Usage(value, SubagentCell(id));
    }

    method Converse(turn: Turn)
      modifies this`turnActive, turns
      ensures var answered := ApplyResults(Scope(old(turnActive), old(turns.Value())), turn.toolResults);
              Scope(turnActive, turns.Value()) == if turn.role != NoRole then answered.Append(Kept(turn)) else answered
    {
      turnActive := ApplyToolResults(turnActive, turns, turn.toolResults);
      if turn.role != NoRole {
        turnActive := AppendTurn(turnActive, turns, Kept(turn));
      }
    }

    method Describe(events: seq<Event>)
      modifies this`agentType, this`description
      ensures Row() == Described(old(Row()), events)
    {
      for i := 0 to |events|
        invariant Row() == Described(old(Row()), events[..i])
      {
        assert events[..i + 1][..i] == events[..i];
        if events[i].kind == SubagentSpawned && events[i].subagent.Some? {
          agentType, description := events[i].subagent.value.agentType, events[i].subagent.value.description;
        }
      }
      assert events[..|events|] == events;
    }

    /** AddSubagentTurn on the sub-agent's own row, up to its usage. */
    method See(turn: Turn)
      modifies this, turns
      ensures Row() == SubagentSeen(old(Row()), turn)
    {
      Converse(turn);
      if turn.meta.model != "" {
        model := turn.meta.model;
      }
      if turn.timestamp != 0 {
        if firstActive == 0 {
          firstActive := turn.timestamp;
        }
        lastActive := turn.timestamp;
      }
      Describe(turn.events);
      touchedFiles := TouchAll(touchedFiles, turn.fileTouches);
    }
  }

  method TouchAll(files: Touches, touches: seq<FileTouch>) returns (r: Touches)
    ensures r == AddFileTouches(files, touches)
  {
    r := files;
    for i := 0 to |touches|
      invariant r == AddFileTouches(files, touches[..i])
    {
      assert touches[..i + 1][..i] == touches[..i];
      r := AddFileTouch(r, touches[i]);
    }
    assert touches[..|touches|] == touches;
  }

  /** requestUsage: what a request last counted, and pointers to the cells it was added to. */
  datatype RequestUsage = RequestUsage(counted: Tokens, targets: seq<Usage>)

  ghost function ActiveRows(active: map<string, SkillStat>): map<string, nat> {
    map actor | actor in active :: active[actor].index
  }

  ghost function RequestRows(requests: map<string, RequestUsage>): map<string, RequestRow> {
    map id | id in requests :: RequestRow(requests[id].counted, Places(requests[id].targets))
  }

  ghost function Places(targets: seq<Usage>): (r: seq<Target>)
    ensures |r| == |targets|
    ensures forall i :: 0 <= i < |r| ==> r[i] == targets[i].where
  {
    seq(|targets|, i requires 0 <= i < |targets| => targets[i].where)
  }

  type CellMap = map<Target, Usage>

  ghost predicate IsCell(cellAt: CellMap, u: Usage) {
    u.where in cellAt && cellAt[u.where] == u
  }

  ghost predicate AreCells(cellAt: CellMap, targets: seq<Usage>) {
    forall i :: 0 <= i < |targets| ==> IsCell(cellAt, targets[i])
  }

  ghost predicate IsPlace(skills: seq<SkillStat>, subagents: map<string, SubagentStat>, t: Target) {
    match t
    case SessionCell => true
    case SkillCell(index) => index < |skills|
    case SubagentCell(id) => id in subagents
  }

  /** The cells are the session total, one cell a skill and one a sub-agent, each in its place. */
  ghost predicate InPlace(cellAt: CellMap, total: Usage, skills: seq<SkillStat>, subagents: map<string,
                              SubagentStat>) {
    && IsCell(cellAt, total) && total.where == SessionCell
    && (forall i :: 0 <= i < |skills| ==> IsCell(cellAt, skills[i].usage) && skills[i].usage.where == SkillCell(i))
    && (forall id :: id in subagents ==> IsCell(cellAt, subagents[id].usage) && subagents[id].usage.where == SubagentCell(id))
    && (forall t :: t in cellAt ==> IsPlace(skills, subagents, t))
  }

  /** Every active skill is an element of Skills, and `rows` are their positions. */
  ghost predicate WindowsOk(skills: seq<SkillStat>, active: map<string, SkillStat>, rows: map<string, nat>) {
    && (forall actor :: actor in active ==> active[actor].index < |skills| && skills[active[actor].index] == active[actor])
    && rows == ActiveRows(active)
  }

  /** Every usage target is a cell of the session, and `rows` are their places. */
  ghost predicate RequestsOk(cellAt: CellMap, requests: map<string, RequestUsage>, rows: map<string, RequestRow>) {
    && (forall id :: id in requests ==> AreCells(cellAt, requests[id].targets))
    && rows == RequestRows(requests)
  }

  ghost predicate CellsHold(cellAt: CellMap, cells: Cells, owned: set<Usage>)
    reads owned
  {
    && (forall t :: t in cells <==> t in cellAt)
    && (forall t :: t in cellAt ==> cellAt[t].where == t && cellAt[t] in owned && cellAt[t].Value() == cells[t])
  }

  ghost predicate SkillsHold(skills: seq<SkillStat>, rows: seq<SkillRow>, owned: set<SkillStat>)
    reads owned
  {
    && |rows| == |skills|
    && (forall i :: 0 <= i < |skills| ==> skills[i] in owned && skills[i].index == i && skills[i].Row() == rows[i])
  }

  ghost predicate SubagentsHold(subagents: map<string, SubagentStat>, rows: map<string, SubagentRow>,
                                owned: set<SubagentStat>, turns: set<TurnBuffer>)
    reads owned, turns
  {
    && (forall id :: id in rows <==> id in subagents)
    && (forall id :: id in subagents ==>
          && subagents[id] in owned && subagents[id].turns in turns
          && subagents[id].id == id && subagents[id].turns.owner == Some(id)
          && subagents[id].Row() == rows[id])
  }

  /** The graph has a cell a place, and its indices point at rows and cells that are there. */
  lemma ReadsAsConsistent(cellAt: CellMap, total: Usage, skills: seq<SkillStat>, subagents: map<string, SubagentStat>,
                          active: map<string, SkillStat>, requests: map<string, RequestUsage>, a: Accounts,
                          cells: set<Usage>, owned: set<SkillStat>, stats: set<SubagentStat>, turns: set<TurnBuffer>)
    requires InPlace(cellAt, total, skills, subagents) && WindowsOk(skills, active, a.active)
    requires RequestsOk(cellAt, requests, a.requests)
    requires CellsHold(cellAt, a.cells, cells) && SkillsHold(skills, a.skills, owned)
    requires SubagentsHold(subagents, a.subagents, stats, turns)
    ensures Consistent(a)
  {
    forall t ensures t in a.cells <==> HasPlace(a, t) {
      assert t in a.cells <==> t in cellAt;
      match t
      case SessionCell =>
      case SkillCell(index) => assert index < |skills| ==> skills[index].usage.where == t;
      case SubagentCell(id) => assert id in subagents ==> subagents[id].usage.where == t;
    }
  }

  lemma IsOwned(cellAt: CellMap, cells: Cells, owned: set<Usage>, u: Usage)
    requires CellsHold(cellAt, cells, owned) && IsCell(cellAt, u)
    ensures u in owned
  {
  }

  lemma SkillsAlike(skills: seq<SkillStat>, rows: seq<SkillRow>, owned: set<SkillStat>)
    requires SkillsHold(skills, rows, owned)
    ensures |rows| == |skills|
  {
  }

  lemma SkillsHoldMore(skills: seq<SkillStat>, rows: seq<SkillRow>, owned: set<SkillStat>, stat: SkillStat)
    requires SkillsHold(skills, rows, owned) && stat.index == |skills|
    ensures SkillsHold(skills + [stat], rows + [stat.Row()], owned + {stat})
  {
  }

  lemma RequestCounted(cellAt: CellMap, requests: map<string, RequestUsage>, rows: map<string, RequestRow>, id: string,
                       usage: RequestUsage)
    requires RequestsOk(cellAt, requests, rows) && AreCells(cellAt, usage.targets)
    ensures RequestsOk(cellAt, requests[id := usage], rows[id := RequestRow(usage.counted, Places(usage.targets))])
  {
  }

  lemma RequestHas(cellAt: CellMap, requests: map<string, RequestUsage>, rows: map<string, RequestRow>, id: string)
    requires RequestsOk(cellAt, requests, rows) && id in requests
    ensures AreCells(cellAt, requests[id].targets)
    ensures id in rows && rows[id] == RequestRow(requests[id].counted, Places(requests[id].targets))
  {
  }

  lemma RequestHasNot(cellAt: CellMap, requests: map<string, RequestUsage>, rows: map<string, RequestRow>, id: string)
    requires RequestsOk(cellAt, requests, rows) && id !in requests
    ensures id !in rows
  {
  }

  lemma RequestsSeeMoreCells(cellAt: CellMap, requests: map<string, RequestUsage>, rows: map<string, RequestRow>,
                             t: Target, u: Usage)
    requires RequestsOk(cellAt, requests, rows) && t !in cellAt
    ensures RequestsOk(cellAt[t := u], requests, rows)
  {
  }

  lemma SkillInPlace(cellAt: CellMap, total: Usage, skills: seq<SkillStat>, subagents: map<string, SubagentStat>,
                     stat: SkillStat)
    requires InPlace(cellAt, total, skills, subagents) && stat.usage.where == SkillCell(|skills|)
    ensures SkillCell(|skills|) !in cellAt
    ensures InPlace(cellAt[SkillCell(|skills|) := stat.usage], total, skills + [stat], subagents)
  {
  }

  lemma WindowOpens(skills: seq<SkillStat>, active: map<string, SkillStat>, rows: map<string, nat>, actor: string,
                    stat: SkillStat)
    requires WindowsOk(skills, active, rows) && stat.index == |skills|
    ensures WindowsOk(skills + [stat], active[actor := stat], rows[actor := |skills|])
  {
  }

  lemma WindowsSeeMoreSkills(skills: seq<SkillStat>, active: map<string, SkillStat>, rows: map<string, nat>,
                             stat: SkillStat)
    requires WindowsOk(skills, active, rows)
    ensures WindowsOk(skills + [stat], active, rows)
  {
  }

  /** A window's skill stands at its index. */
  lemma WindowOf(skills: seq<SkillStat>, active: map<string, SkillStat>, rows: map<string, nat>, actor: string)
    requires WindowsOk(skills, active, rows)
    ensures actor in active <==> actor in rows
    ensures actor in active ==> active[actor] in skills && active[actor].index == rows[actor] < |skills|
  {
  }

  lemma WindowCloses(skills: seq<SkillStat>, active: map<string, SkillStat>, rows: map<string, nat>, actor: string)
    requires WindowsOk(skills, active, rows)
    ensures WindowsOk(skills, active - {actor}, rows - {actor})
  {
  }

  lemma SubagentInPlace(cellAt: CellMap, total: Usage, skills: seq<SkillStat>, subagents: map<string, SubagentStat>,
                        stat: SubagentStat)
    requires InPlace(cellAt, total, skills, subagents) && stat.id !in subagents
    requires stat.usage.where == SubagentCell(stat.id)
    ensures SubagentCell(stat.id) !in cellAt
    ensures InPlace(cellAt[SubagentCell(stat.id) := stat.usage], total, skills, subagents[stat.id := stat])
  {
  }

  lemma SubagentsHoldMore(subagents: map<string, SubagentStat>, rows: map<string, SubagentRow>,
                          owned: set<SubagentStat>, turns: set<TurnBuffer>, stat: SubagentStat)
    requires SubagentsHold(subagents, rows, owned, turns) && stat.turns.owner == Some(stat.id)
    ensures SubagentsHold(subagents[stat.id := stat], rows[stat.id := stat.Row()], owned + {stat}, turns + {stat.turns})
  {
  }

  /** The sub-agents other than one are held without its objects. */
  lemma SubagentHeld(subagents: map<string, SubagentStat>, rows: map<string, SubagentRow>, owned: set<SubagentStat>,
                     turns: set<TurnBuffer>, id: string)
    requires SubagentsHold(subagents, rows, owned, turns) && id in subagents
    ensures var stat := subagents[id];
            && stat in owned && stat.turns in turns && stat.id == id && stat.turns.owner == Some(id)
            && id in rows && stat.Row() == rows[id]
            && SubagentsHold(subagents - {id}, rows - {id}, owned - {stat}, turns - {stat.turns})
  {
  }

  lemma TotalOf(cellAt: CellMap, total: Usage, skills: seq<SkillStat>, subagents: map<string, SubagentStat>)
    requires InPlace(cellAt, total, skills, subagents)
    ensures IsCell(cellAt, total) && total.where == SessionCell
  {
  }

  lemma SubagentOf(cellAt: CellMap, total: Usage, skills: seq<SkillStat>, subagents: map<string, SubagentStat>,
                   id: string)
    requires InPlace(cellAt, total, skills, subagents) && id in subagents
    ensures IsCell(cellAt, subagents[id].usage) && subagents[id].usage.where == SubagentCell(id)
  {
  }

  lemma SubagentsAlike(subagents: map<string, SubagentStat>, rows: map<string, SubagentRow>, owned: set<SubagentStat>,
                       turns: set<TurnBuffer>)
    requires SubagentsHold(subagents, rows, owned, turns)
    ensures forall id :: id in subagents <==> id in rows
    ensures |subagents| == |rows|
  {
    assert subagents.Keys == rows.Keys;
    assert |subagents| == |subagents.Keys| && |rows| == |rows.Keys|;
  }

  /** The cells an actor's usage goes to. */
  ghost function CellsOf(active: map<string, SkillStat>, owner: Usage, actor: string): seq<Usage> {
    [owner] + if actor in active then [active[actor].usage] else []
  }

  lemma ChargedCells(cellAt: CellMap, total: Usage, skills: seq<SkillStat>, subagents: map<string, SubagentStat>,
                     active: map<string, SkillStat>, rows: map<string, nat>, owner: Usage, actor: string)
    requires InPlace(cellAt, total, skills, subagents) && WindowsOk(skills, active, rows) && IsCell(cellAt, owner)
    ensures AreCells(cellAt, CellsOf(active, owner, actor))
    ensures Places(CellsOf(active, owner, actor)) == ChargedTo(rows, owner.where, actor)
  {
  }

  lemma NothingYet(total: Usage)
    requires total.where == SessionCell
    ensures InPlace(map[SessionCell := total], total, [], map[])
    ensures CellsHold(map[SessionCell := total], map[SessionCell := total.Value()], {total})
    ensures SkillsHold([], [], {}) && SubagentsHold(map[], map[], {}, {})
    ensures WindowsOk([], map[], map[]) && RequestsOk(map[SessionCell := total], map[], map[])
  {
  }
}
