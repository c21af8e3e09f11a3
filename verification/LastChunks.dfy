/** What a request's entry is: its last chunk, attributed to the windows open when that chunk arrived
    (session/session.go). Everything here is read off the lines. */
module LastChunks {
  import opened Types
  import opened Ledgers
  import opened TurnBuffers
  import opened Conservation
  import opened SkillWindows

  /** A counted line's usage, and the cells it is charged to. */
  ghost function RowOf(before: seq<Arrival>, turn: Turn): RequestRow
    requires turn.usage.Some?
  {
    RequestRow(turn.usage.value, TargetsOf(Deeds(before) + Opening(turn, LastPrompt(before)), turn))
  }

  /** The entry of a request as its last counted chunk leaves it. */
  ghost function LastRow(arrivals: seq<Arrival>, id: string): Option<RequestRow> {
    if arrivals == [] then None
    else
      var front, turn := arrivals[..|arrivals| - 1], arrivals[|arrivals| - 1].turn;
      if IsCounted(turn, Subagents(front)) && turn.requestId == id then Some(RowOf(front, turn)) else LastRow(front, id)
  }

  /** The last counted chunk of every request of a history. */
  ghost function LastRows(arrivals: seq<Arrival>): map<string, RequestRow> {
    if arrivals == [] then map[]
    else
      var front, turn := arrivals[..|arrivals| - 1], arrivals[|arrivals| - 1].turn;
      if IsCounted(turn, Subagents(front)) then LastRows(front)[turn.requestId := RowOf(front, turn)] else LastRows(front)
  }

  function Entry(requests: map<string, RequestRow>, id: string): Option<RequestRow> {
    if id in requests then Some(requests[id]) else None
  }

  lemma RequestsStep(a: Accounts, after: Accounts, turn: Turn, deeds: seq<Deed>)
    requires RequestsMove(a, after, turn, deeds)
    ensures after.requests ==
            if IsCounted(turn, a.subagents.Keys)
            then a.requests[turn.requestId := RequestRow(turn.usage.value, TargetsOf(deeds, turn))] else a.requests
  {
  }

  lemma {:induction false} RequestsAreLastRows(desk: Desk, arrivals: seq<Arrival>)
    requires desk.ledger.accounts == EMPTY_ACCOUNTS && desk.ledger.notes.currentPromptId == ""
    ensures IngestAll(desk, arrivals).ledger.accounts.requests == LastRows(arrivals)
  {
    hide IsCounted, RequestsMove, CellsMove, TargetsOf, Ingest, Deeds, LastPrompt, Opening, Subagents;
    if arrivals != [] {
      var front, last := arrivals[..|arrivals| - 1], arrivals[|arrivals| - 1];
      assert arrivals == front + [last];
      RequestsAreLastRows(desk, front);
      SubagentsAreTheFirst(desk, front);
      LinesAreCharged(desk, front, last);
      RequestsStep(IngestAll(desk, front).ledger.accounts, IngestAll(desk, arrivals).ledger.accounts, last.turn,
                   Deeds(front) + Opening(last.turn, LastPrompt(front)));
    }
  }

  lemma {:induction false} LastRowsHave(arrivals: seq<Arrival>, id: string)
    ensures Entry(LastRows(arrivals), id) == LastRow(arrivals, id)
  {
    hide IsCounted, RowOf, Subagents;
    if arrivals != [] { LastRowsHave(arrivals[..|arrivals| - 1], id); }
  }

  /** In every run a request's entry is its last counted chunk, whatever chunks came before it. */
  lemma LastChunkDecides(desk: Desk, arrivals: seq<Arrival>, id: string)
    requires desk.ledger.accounts == EMPTY_ACCOUNTS && desk.ledger.notes.currentPromptId == ""
    ensures Entry(IngestAll(desk, arrivals).ledger.accounts.requests, id) == LastRow(arrivals, id)
  {
    RequestsAreLastRows(desk, arrivals);
    LastRowsHave(arrivals, id);
  }

  /** In every run each cell is the sum, over all requests, of the last chunk's usage where that chunk was attributed
      to it; the session's, beside that, what the last signalled total said beyond its requests. */
  lemma CellsSumLastChunks(desk: Desk, arrivals: seq<Arrival>, t: Target)
    requires desk.ledger.accounts == EMPTY_ACCOUNTS && desk.ledger.notes.currentPromptId == ""
    ensures var cells := IngestAll(desk, arrivals).ledger.accounts.cells;
            t in cells ==>
              cells[t] == Sum(LastRows(arrivals), t).Plus(if t == SessionCell then Drift(desk, arrivals) else ZERO)
  {
    hide Sum, IngestAll, Drift, LastRows;
    UsageIsConserved(desk, arrivals);
    RequestsAreLastRows(desk, arrivals);
  }

  // ---- What a signalled total does ----

  const ONE_TOKEN := ZERO.(input := 1)

  /** One chunk of one request. */
  const CHUNK := Arrival(
    Turn(Assistant, "text", "", 1, Meta("s", "", "", "", "", None), "r", Some(ONE_TOKEN), [], [], "", "", "", "", "", "",
         "", NoSource, [], []), 0)

  /** A line that carries nothing but a total. */
  const SIGNAL := Arrival(CHUNK.turn.(role := NoRole, text := "", requestId := "", usage := Some(ONE_TOKEN.Plus(ONE_TOKEN))), 0)

  lemma IntoOne(usage: Tokens, t: Target)
    ensures Into(usage, [t], t).Plus(ZERO) == usage
  {
    assert [t][..0] == [];
  }

  lemma OneRequestSum(requests: map<string, RequestRow>, id: string, usage: Tokens, t: Target)
    requires requests.Keys == {id} && requests[id] == RequestRow(usage, [t])
    ensures Sum(requests, t) == usage
  {
    hide Sum, Into, Tokens.Plus;
    SumTakes(requests, id, t);
    assert requests - {id} == map[];
    SumOfNone(t);
    IntoOne(usage, t);
  }

  lemma ChunkRow()
    ensures IsCounted(CHUNK.turn, {}) && RowOf([], CHUNK.turn) == RequestRow(ONE_TOKEN, [SessionCell])
  {
    var deeds := Deeds([]) + Opening(CHUNK.turn, LastPrompt([]));
    assert deeds == [];
    NoDeedNoWindow("");
  }

  lemma NoDeedNoWindow(actor: string)
    ensures forall i :: !IsWindow([], actor, i)
  {
  }

  lemma OneChunk(desk: Desk)
    requires desk.ledger.accounts == EMPTY_ACCOUNTS && desk.ledger.notes.currentPromptId == ""
    ensures IngestAll(desk, [CHUNK]).ledger.accounts.requests == map["r" := RequestRow(ONE_TOKEN, [SessionCell])]
  {
    hide IsCounted, RowOf;
    assert [CHUNK][..0] == [];
    ChunkRow();
    RequestsAreLastRows(desk, [CHUNK]);
  }

  lemma DriftAfterSignal(desk: Desk, chunk: Arrival, signal: Arrival)
    requires SetsTotal(signal.turn)
    ensures Drift(desk, [chunk, signal]) ==
            signal.turn.usage.value.Minus(Sum(IngestAll(desk, [chunk]).ledger.accounts.requests, SessionCell))
  {
    hide IngestAll, Sum;
    assert [chunk, signal][..1] == [chunk];
  }

  lemma SignalSays()
    ensures SetsTotal(SIGNAL.turn) && SIGNAL.turn.usage == Some(ONE_TOKEN.Plus(ONE_TOKEN))
  {
    hide ONE_TOKEN, Tokens.Plus;
  }

  lemma NotZero()
    ensures ONE_TOKEN.input != ZERO.input
  {
  }

  lemma OneMore(a: Tokens)
    ensures a.Plus(a).Minus(a) == a
  {
  }

  /** A request of one token, then a signalled total of two: the total is no longer its requests' sum. */
  lemma SignalExample(desk: Desk)
    requires desk.ledger.accounts == EMPTY_ACCOUNTS && desk.ledger.notes.currentPromptId == ""
    ensures var a := IngestAll(desk, [CHUNK, SIGNAL]).ledger.accounts;
            SessionCell in a.cells && a.cells[SessionCell] != Sum(a.requests, SessionCell)
  {
    hide IngestAll, Sum, Drift, CHUNK, SIGNAL, ONE_TOKEN, Tokens.Plus, Tokens.Minus, SetsTotal;
    OneChunk(desk);
    OneRequestSum(IngestAll(desk, [CHUNK]).ledger.accounts.requests, "r", ONE_TOKEN, SessionCell);
    SignalSays();
    OneMore(ONE_TOKEN);
    NotZero();
    DriftAfterSignal(desk, CHUNK, SIGNAL);
    TotalIsItsRequestsExactly(desk, [CHUNK, SIGNAL]);
  }

  // ---- A skill is charged ----

  const INVOCATION := BareEvent(SkillInvoked, 1).(skill := Some(SkillPayload("skill", "")))

  /** A line that invokes a skill on the main chain. */
  const INVOKES := Arrival(CHUNK.turn.(role := NoRole, text := "", requestId := "", usage := None, events := [INVOCATION]), 0)

  lemma InvokesOpens()
    ensures Opening(INVOKES.turn, "") == [Invoked(INVOCATION)] && Closing(INVOKES.turn) == []
    ensures !IsCounted(INVOKES.turn, {}) && !SignalsTotal(INVOKES.turn)
  {
    hide TrimSpace;
    assert [INVOCATION][..0] == [];
    assert INVOKES.turn.events == [INVOCATION] && Invocations([INVOCATION]) == [] + [Invoked(INVOCATION)];
  }

  lemma ChunkOpensNothing()
    ensures Opening(CHUNK.turn, "") == [] && Owner(CHUNK.turn) == SessionCell && Actor(CHUNK.turn) == INVOCATION.actor
    ensures CHUNK.turn.requestId == "r" && CHUNK.turn.usage == Some(ONE_TOKEN)
  {
    hide ONE_TOKEN;
  }

  lemma InvokesDeeds()
    ensures Deeds([INVOKES]) == [Invoked(INVOCATION)] && LastPrompt([INVOKES]) == "" && Subagents([INVOKES]) == {}
  {
    hide Opening, Closing;
    assert [INVOKES][..0] == [];
    InvokesOpens();
    assert [] + [Invoked(INVOCATION)] + [] == [Invoked(INVOCATION)];
  }

  lemma FirstWindow(event: Event, i: nat)
    ensures IsWindow([Invoked(event)], event.actor, i) <==> i == 0
  {
    assert [] + [Invoked(event)] == [Invoked(event)];
    WindowSnoc([], Invoked(event), event.actor, i);
  }

  lemma UncountedLine(a: Accounts, after: Accounts, turn: Turn, deeds: seq<Deed>, t: Target)
    requires CellsMove(a, after, turn, deeds) && RequestsMove(a, after, turn, deeds)
    requires !IsCounted(turn, a.subagents.Keys) && !SignalsTotal(turn)
    ensures after.requests == a.requests && (t in after.cells ==> after.cells[t] == Held(a, t))
  {
  }

  lemma EmptyHolds(t: Target)
    ensures Held(EMPTY_ACCOUNTS, t) == ZERO && EMPTY_ACCOUNTS.subagents.Keys == {} && EMPTY_ACCOUNTS.requests == map[]
  {
  }

  lemma NothingYet(desk: Desk, t: Target)
    requires desk.ledger.accounts == EMPTY_ACCOUNTS && desk.ledger.notes.currentPromptId == ""
    ensures var a := IngestAll(desk, [INVOKES]).ledger.accounts;
            a.requests == map[] && (t in a.cells ==> a.cells[t] == ZERO)
  {
    hide IngestAll, Opening, Deeds, LastPrompt, INVOKES, IsCounted, SignalsTotal, CellsMove, RequestsMove, EMPTY_ACCOUNTS;
    InvokesOpens();
    StartsEmpty(desk);
    EmptyHolds(t);
    assert [] + [INVOKES] == [INVOKES];
    LinesAreCharged(desk, [], INVOKES);
    UncountedLine(EMPTY_ACCOUNTS, IngestAll(desk, [INVOKES]).ledger.accounts, INVOKES.turn,
                  Deeds([]) + Opening(INVOKES.turn, LastPrompt([])), t);
  }

  lemma StartsEmpty(desk: Desk)
    ensures IngestAll(desk, []) == desk
  {
  }

  lemma FirstSkill(a: Accounts)
    requires Tells(a, [Invoked(INVOCATION)])
    ensures SessionCell in a.cells && SkillCell(0) in a.cells
  {
    assert [Invoked(INVOCATION)][..0] == [];
    assert HasPlace(a, SessionCell) && HasPlace(a, SkillCell(0));
  }

  /** A skill is invoked, then one token is used: the session and the skill hold one token each. */
  lemma SkillExample(desk: Desk)
    requires desk.ledger.accounts == EMPTY_ACCOUNTS && desk.ledger.notes.currentPromptId == ""
    ensures var cells := IngestAll(desk, [INVOKES, CHUNK]).ledger.accounts.cells;
            && SessionCell in cells && cells[SessionCell] == ONE_TOKEN
            && SkillCell(0) in cells && cells[SkillCell(0)] == ONE_TOKEN
  {
    hide IngestAll, Deeds, Opening, LastPrompt, Tells, IsWindow, IsCounted, CHUNK, INVOKES, ONE_TOKEN, INVOCATION, Subagents,
         Tokens.Plus;
    InvokesDeeds();
    ChunkOpensNothing();
    ChunkRow();
    WindowsAreTheLines(desk, [INVOKES]);
    FirstSkill(IngestAll(desk, [INVOKES]).ledger.accounts);
    SubagentsAreTheFirst(desk, [INVOKES]);
    NothingYet(desk, SessionCell);
    NothingYet(desk, SkillCell(0));
    assert [INVOKES] + [CHUNK] == [INVOKES, CHUNK];
    LinesAreCharged(desk, [INVOKES], CHUNK);
    FirstWindow(INVOCATION, 0);
    PlusZero(ONE_TOKEN);
    assert [Invoked(INVOCATION)] + [] == [Invoked(INVOCATION)];
  }
}
