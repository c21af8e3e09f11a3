/** The values a transcript line is turned into before a session sees it
    (session/turn.go, session/event.go, session/meta.go). */
module Types {

  datatype Option<+T> = None | Some(value: T)

  /** Points in time and durations; 0 is the zero time of an undated turn. */
  type Time = nat

  type Id = string

  datatype Agent = Claude | Codex

  datatype Role = NoRole | User | Assistant | Developer

  datatype TitleSource = NoSource | Derived | Index | Custom

  datatype EventKind =
    | ModelChanged | PermissionDenied | PermissionGranted | PermissionModeChanged
    | PlanApproved | PlanModeEnter | PlanModeExit | PlanModeReenter | PlanRejected | PlanRevised
    | SkillInvoked | SubagentResult | SubagentSpawned | TaskCompleted | UserAnswer

  datatype ModelPayload = ModelPayload(from: string, to: string)

  datatype PermissionPayload = PermissionPayload(kind: string, tool: string, toolUseId: string)

  datatype PlanPayload = PlanPayload(revision: nat)

  datatype SkillPayload = SkillPayload(skill: string, args: string)

  datatype SubagentPayload = SubagentPayload(
    agentId: string, agentType: string, content: string, description: string, toolUseId: string)

  datatype Event = Event(
    kind: EventKind,
    actor: string,
    timestamp: Time,
    model: Option<ModelPayload>,
    permission: Option<PermissionPayload>,
    plan: Option<PlanPayload>,
    skill: Option<SkillPayload>,
    subagent: Option<SubagentPayload>)

  function BareEvent(kind: EventKind, timestamp: Time): Event {
    Event(kind, "", timestamp, None, None, None, None, None)
  }

  datatype FileTouch = FileTouch(path: string, write: bool)

  datatype ToolCall = ToolCall(id: string, name: string, input: string, timestamp: Time, isError: bool)

  datatype ToolResult = ToolResult(toolUseId: string, isError: bool)

  datatype Origin = Origin(
    agentNickname: string, cliVersion: string, commitHash: string, forkedFromId: string,
    originator: string, parentThreadId: string, repositoryUrl: string, sourceKind: string)

  datatype Meta = Meta(
    sessionId: Id, cwd: string, gitBranch: string, model: string, project: string, origin: Option<Origin>)
  {
    function Update(other: Meta): Meta {
      Meta(
        if other.sessionId != "" then other.sessionId else sessionId,
        if other.cwd != "" then other.cwd else cwd,
        if other.gitBranch != "" then other.gitBranch else gitBranch,
        if other.model != "" then other.model else model,
        if other.project != "" then other.project else project,
        if other.origin.Some? then other.origin else origin)
    }
  }

  /** The nine token counters of session/usage.go, as a value. */
  datatype Tokens = Tokens(
    cacheCreation1h: int, cacheCreation5m: int, cacheCreation: int, cacheRead: int, cachedInput: int,
    input: int, output: int, reasoning: int, total: int)
  {
    function Plus(other: Tokens): Tokens {
      Tokens(
        cacheCreation1h + other.cacheCreation1h, cacheCreation5m + other.cacheCreation5m,
        cacheCreation + other.cacheCreation, cacheRead + other.cacheRead,
        cachedInput + other.cachedInput, input + other.input, output + other.output,
        reasoning + other.reasoning, total + other.total)
    }

    function Minus(other: Tokens): Tokens {
      Tokens(
        cacheCreation1h - other.cacheCreation1h, cacheCreation5m - other.cacheCreation5m,
        cacheCreation - other.cacheCreation, cacheRead - other.cacheRead,
        cachedInput - other.cachedInput, input - other.input, output - other.output,
        reasoning - other.reasoning, total - other.total)
    }

    /** Field by field. */
    predicate AtMost(other: Tokens) {
      && cacheCreation1h <= other.cacheCreation1h && cacheCreation5m <= other.cacheCreation5m
      && cacheCreation <= other.cacheCreation && cacheRead <= other.cacheRead
      && cachedInput <= other.cachedInput && input <= other.input && output <= other.output
      && reasoning <= other.reasoning && total <= other.total
    }
  }

  const ZERO := Tokens(0, 0, 0, 0, 0, 0, 0, 0, 0)

  datatype Turn = Turn(
    role: Role,
    text: string,
    thinking: string,
    timestamp: Time,
    meta: Meta,
    requestId: string,
    usage: Option<Tokens>,
    events: seq<Event>,
    fileTouches: seq<FileTouch>,
    filePath: string,
    planFilePath: string,
    planContent: string,
    customTitle: string,
    promptId: string,
    stopReason: string,
    subagentId: string,
    titleSource: TitleSource,
    toolCalls: seq<ToolCall>,
    toolResults: seq<ToolResult>)
  {
    predicate IsToolOnly() {
      text == "" && thinking == "" && |toolCalls| > 0
    }

    predicate IsUsageSignal() {
      usage.Some? && role == NoRole
    }

    predicate HasContent() {
      text != "" || thinking != "" || |toolCalls| > 0
    }
  }
}
