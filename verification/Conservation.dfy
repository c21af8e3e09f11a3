/** Where a session's usage is: every cell holds what the requests last counted into it add up to
    (session/session.go, session/usage.go). */
module Conservation {
  import opened Types
  import opened Ledgers
  import opened Plans
  import opened TurnBuffers

  // ---- Arithmetic of usage ----

  lemma PlusIsAGroup(a: Tokens, b: Tokens, c: Tokens)
    ensures a.Plus(b) == b.Plus(a) && a.Plus(b).Plus(c) == a.Plus(b.Plus(c))
    ensures a.Plus(ZERO) == a && a.Minus(a) == ZERO && a.Plus(ZERO.Minus(b)) == a.Minus(b)
    ensures a.Minus(b).Plus(b) == a && a.Plus(b).Minus(b) == a
  {
  }

  lemma PlusZero(a: Tokens)
    ensures ZERO.Plus(a) == a == a.Plus(ZERO)
  {
  }

  // ---- What requests add up to ----

  /** What counting `usage` into `targets` adds to the cell at `t`. */
  function Into(usage: Tokens, targets: seq<Target>, t: Target): Tokens {
    if targets == [] then ZERO
    else
      var before := Into(usage, targets[..|targets| - 1], t);
      if targets[|targets| - 1] == t then before.Plus(usage) else before
  }

  /** What all requests together last counted into the cell at `t`. */
  ghost function Sum(requests: map<string, RequestRow>, t: Target): Tokens {
    if requests == map[] then ZERO
    else
      var id :| id in requests;
      Into(requests[id].counted, requests[id].targets, t).Plus(Sum(requests - {id}, t))
  }

  lemma RemoveTwo(requests: map<string, RequestRow>, id: string, other: string)
    ensures requests - {id} - {other} == requests - {other} - {id}
  {
  }

  /** The sum does not depend on the order the requests are taken in. */
  lemma {:induction false} SumTakes(requests: map<string, RequestRow>, id: string, t: Target)
    requires id in requests
    ensures Sum(requests, t) == Into(requests[id].counted, requests[id].targets, t).Plus(Sum(requests - {id}, t))
    decreases |requests|
  {
    hide Into;
    var other :| other in requests &&
      Sum(requests, t) == Into(requests[other].counted, requests[other].targets, t).Plus(Sum(requests - {other}, t));
    if other != id {
      SumTakes(requests - {other}, id, t);
      SumTakes(requests - {id}, other, t);
      RemoveTwo(requests, id, other);
      Swap(Into(requests[id].counted, requests[id].targets, t), Into(requests[other].counted, requests[other].targets, t),
           Sum(requests - {id} - {other}, t));
    }
  }

  lemma Swap(a: Tokens, b: Tokens, c: Tokens)
    ensures a.Plus(b.Plus(c)) == b.Plus(a.Plus(c))
  {
  }

  lemma {:induction false} AdjustsEach(cells: Cells, targets: seq<Target>, usage: Tokens, t: Target)
    ensures t in AdjustAll(cells, targets, usage) <==> t in cells
    ensures t in cells ==> AdjustAll(cells, targets, usage)[t] == cells[t].Plus(Into(usage, targets, t))
  {
    if targets != [] {
      AdjustsEach(cells, targets[..|targets| - 1], usage, t);
    }
  }

  lemma {:induction false} BackIsMinus(usage: Tokens, targets: seq<Target>, t: Target)
    ensures Into(ZERO.Minus(usage), targets, t) == ZERO.Minus(Into(usage, targets, t))
  {
    if targets != [] { BackIsMinus(usage, targets[..|targets| - 1], t); }
  }

  lemma {:induction false} NothingInto(usage: Tokens, targets: seq<Target>, t: Target)
    requires t !in targets
    ensures Into(usage, targets, t) == ZERO
  {
    if targets != [] { NothingInto(usage, targets[..|targets| - 1], t); }
  }

  // ---- Every cell ----

  /** Every cell holds the sum of what is counted into it; the total holds `drift` besides. */
  ghost predicate Conserved(a: Accounts, drift: Tokens) {
    forall t :: t in a.cells ==> a.cells[t] == (if t == SessionCell then drift else ZERO).Plus(Sum(a.requests, t))
  }

  ghost predicate Balanced(a: Accounts, drift: Tokens) { Consistent(a) && Conserved(a, drift) }

  lemma RequestReplaced(requests: map<string, RequestRow>, id: string, row: RequestRow)
    ensures requests[id := row] - {id} == requests - {id}
    ensures id !in requests ==> requests - {id} == requests
  {
  }

  /** Counting a request anew moves every sum as it moves every cell. */
  lemma CountedAnew(a: Accounts, id: string, usage: Tokens, targets: seq<Target>, t: Target)
    requires t in a.cells
    ensures var b := ApplyRequestUsage(a, id, usage, targets);
            && t in b.cells
            && b.cells[t].Minus(Sum(b.requests, t)) == a.cells[t].Minus(Sum(a.requests, t))
  {
    hide Into, Sum, AdjustAll;
    var row, rest := RequestRow(usage, targets), a.requests - {id};
    RequestReplaced(a.requests, id, row);
    SumTakes(a.requests[id := row], id, t);
    var undone := Undone(a.cells, a.requests, id);
    if id in a.requests {
      SumTakes(a.requests, id, t);
      AdjustsEach(a.cells, a.requests[id].targets, ZERO.Minus(a.requests[id].counted), t);
      BackIsMinus(a.requests[id].counted, a.requests[id].targets, t);
    }
    AdjustsEach(undone, targets, usage, t);
  }

  lemma Rebalance(cell: Tokens, sum: Tokens, cell': Tokens, sum': Tokens, base: Tokens)
    requires cell == base.Plus(sum) && cell'.Minus(sum') == cell.Minus(sum)
    ensures cell' == base.Plus(sum')
  {
  }

  lemma ApplyKeepsCells(a: Accounts, id: string, usage: Tokens, targets: seq<Target>)
    ensures var b := ApplyRequestUsage(a, id, usage, targets);
            && (forall t :: t in b.cells <==> t in a.cells)
            && b.skills == a.skills && b.subagents == a.subagents && b.active == a.active
            && b.requests == a.requests[id := RequestRow(usage, targets)]
  {
    forall t ensures t in ApplyRequestUsage(a, id, usage, targets).cells <==> t in a.cells {
      if id in a.requests {
        AdjustsEach(a.cells, a.requests[id].targets, ZERO.Minus(a.requests[id].counted), t);
      }
      AdjustsEach(Undone(a.cells, a.requests, id), targets, usage, t);
    }
  }

  lemma ApplyKeepsConserved(a: Accounts, id: string, usage: Tokens, targets: seq<Target>, drift: Tokens)
    requires Conserved(a, drift)
    ensures Conserved(ApplyRequestUsage(a, id, usage, targets), drift)
  {
    hide ApplyRequestUsage;
    ApplyKeepsCells(a, id, usage, targets);
    var b := ApplyRequestUsage(a, id, usage, targets);
    forall t | t in b.cells ensures b.cells[t] == (if t == SessionCell then drift else ZERO).Plus(Sum(b.requests, t)) {
      CountedAnew(a, id, usage, targets, t);
      Rebalance(a.cells[t], Sum(a.requests, t), b.cells[t], Sum(b.requests, t), if t == SessionCell then drift else ZERO);
    }
  }

  lemma ApplyKeepsConsistent(a: Accounts, id: string, usage: Tokens, targets: seq<Target>)
    requires Consistent(a) && forall i :: 0 <= i < |targets| ==> targets[i] in a.cells
    ensures Consistent(ApplyRequestUsage(a, id, usage, targets))
  {
    hide ApplyRequestUsage;
    ApplyKeepsCells(a, id, usage, targets);
    var b := ApplyRequestUsage(a, id, usage, targets);
    forall t ensures t in b.cells <==> HasPlace(b, t) {
      assert t in a.cells <==> HasPlace(a, t);
    }
  }

  // ---- Every step ----

  lemma CloseKeeps(a: Accounts, actor: string, timestamp: Time, drift: Tokens)
    requires Balanced(a, drift)
    ensures Balanced(CloseSkillWindow(a, actor, timestamp), drift)
  {
    hide Sum;
    var b := CloseSkillWindow(a, actor, timestamp);
    assert |b.skills| == |a.skills|;
    forall t ensures t in b.cells <==> HasPlace(b, t) {
      assert t in a.cells <==> HasPlace(a, t);
    }
  }

  lemma SumOfNone(t: Target)
    ensures Sum(map[], t) == ZERO
  {
  }

  /** No request was counted into a cell that is not there. */
  lemma {:induction false} NothingCounted(requests: map<string, RequestRow>, t: Target)
    requires forall id :: id in requests ==> t !in requests[id].targets
    ensures Sum(requests, t) == ZERO
    decreases |requests|
  {
    hide Sum, Into, Tokens.Plus;
    PlusZero(ZERO);
    if requests == map[] {
      SumOfNone(t);
    } else {
      var id :| id in requests;
      SumTakes(requests, id, t);
      NothingInto(requests[id].counted, requests[id].targets, t);
      NothingCounted(requests - {id}, t);
    }
  }

  /** A cell that was not there starts at zero, and nothing was counted into it. */
  lemma NewCellConserved(a: Accounts, t: Target, cells: Cells, drift: Tokens)
    requires Balanced(a, drift) && t !in a.cells && t != SessionCell && cells == a.cells[t := ZERO]
    ensures Conserved(a.(cells := cells), drift)
  {
    hide Sum, Tokens.Plus;
    NothingCounted(a.requests, t);
    PlusZero(ZERO);
  }

  lemma ConservedAlike(a: Accounts, b: Accounts, drift: Tokens)
    requires Conserved(a, drift) && b.cells == a.cells && b.requests == a.requests
    ensures Conserved(b, drift)
  {
  }

  lemma SkillKeeps(a: Accounts, row: SkillRow, drift: Tokens)
    requires Balanced(a, drift)
    ensures Balanced(WithSkill(a, row, ZERO), drift)
  {
    hide Conserved;
    var b, t := WithSkill(a, row, ZERO), SkillCell(|a.skills|);
    assert t !in a.cells by { assert t in a.cells <==> HasPlace(a, t); }
    NewCellConserved(a, t, b.cells, drift);
    ConservedAlike(a.(cells := b.cells), b, drift);
    forall u ensures u in b.cells <==> HasPlace(b, u) {
      assert u in a.cells <==> HasPlace(a, u);
    }
  }

  lemma SubagentKeeps(a: Accounts, id: string, row: SubagentRow, drift: Tokens)
    requires Balanced(a, drift) && id !in a.subagents
    ensures Balanced(WithSubagent(a, id, row, ZERO), drift)
  {
    hide Conserved;
    var b, t := WithSubagent(a, id, row, ZERO), SubagentCell(id);
    assert t !in a.cells by { assert t in a.cells <==> HasPlace(a, t); }
    NewCellConserved(a, t, b.cells, drift);
    ConservedAlike(a.(cells := b.cells), b, drift);
    forall u ensures u in b.cells <==> HasPlace(b, u) {
      assert u in a.cells <==> HasPlace(a, u);
    }
  }

  lemma StartKeeps(a: Accounts, event: Event, drift: Tokens)
    requires Balanced(a, drift) && event.skill.Some?
    ensures Balanced(StartWindow(a, event), drift)
  {
    hide Sum;
    SkillKeeps(a, OpenedRow(event), drift);
    var b, c := WithSkill(a, OpenedRow(event), ZERO), StartWindow(a, event);
    forall t ensures t in c.cells <==> HasPlace(c, t) {
      assert t in b.cells <==> HasPlace(b, t);
    }
  }

  lemma {:induction false} WindowEventsKeep(a: Accounts, events: seq<Event>, drift: Tokens)
    requires Balanced(a, drift)
    ensures Balanced(WindowEvents(a, events), drift) && WindowEvents(a, events).requests == a.requests
  {
    hide Balanced;
    if events != [] {
      var event, before := events[|events| - 1], WindowEvents(a, events[..|events| - 1]);
      WindowEventsKeep(a, events[..|events| - 1], drift);
      if event.kind == SkillInvoked && event.skill.Some? {
        CloseKeeps(before, event.actor, event.timestamp, drift);
        StartKeeps(CloseSkillWindow(before, event.actor, event.timestamp), event, drift);
      }
    }
  }

  lemma UsedKeeps(a: Accounts, actor: string, turn: Turn, drift: Tokens)
    requires Balanced(a, drift)
    ensures Balanced(a.(skills := UsedRows(a.skills, a.active, actor, turn)), drift)
  {
    hide Sum;
    var b := a.(skills := UsedRows(a.skills, a.active, actor, turn));
    assert |b.skills| == |a.skills|;
    forall t ensures t in b.cells <==> HasPlace(b, t) {
      assert t in a.cells <==> HasPlace(a, t);
    }
  }

  lemma ChargeKeeps(a: Accounts, owner: Target, actor: string, turn: Turn, drift: Tokens)
    requires Balanced(a, drift) && owner in a.cells
    ensures Balanced(Charge(a, owner, actor, turn), drift)
  {
    hide ApplyRequestUsage, UsedRows, Conserved;
    if CountsUsage(turn) {
      UsedKeeps(a, actor, turn, drift);
      var b := a.(skills := UsedRows(a.skills, a.active, actor, turn));
      var targets := ChargedTo(a.active, owner, actor);
      assert actor in a.active ==> (SkillCell(a.active[actor]) in b.cells <==> HasPlace(b, SkillCell(a.active[actor])));
      ApplyKeepsConserved(b, turn.requestId, turn.usage.value, targets, drift);
      ApplyKeepsConsistent(b, turn.requestId, turn.usage.value, targets);
    }
  }

  lemma SeenKeeps(a: Accounts, id: string, turn: Turn, drift: Tokens)
    requires Balanced(a, drift) && id in a.subagents
    ensures Balanced(Seen(a, id, turn), drift)
  {
    hide Sum, SubagentSeen;
    var b := Seen(a, id, turn);
    forall t ensures t in b.cells <==> HasPlace(b, t) {
      assert t in a.cells <==> HasPlace(a, t);
    }
  }

  lemma AddSubagentKeeps(a: Accounts, depth: Capacity, turn: Turn, drift: Tokens)
    requires Balanced(a, drift)
    ensures Balanced(AddSubagentTurn(a, depth, turn), drift)
  {
    hide Conserved, Seen, Charge;
    var id, known := turn.subagentId, Admitted(a, depth, turn.subagentId);
    if id !in a.subagents { SubagentKeeps(a, id, NewSubagent(depth), drift); }
    if id in known.subagents {
      SeenKeeps(known, id, turn, drift);
      assert SubagentCell(id) in Seen(known, id, turn).cells by { SubagentHasCell(known, id, turn); }
      ChargeKeeps(Seen(known, id, turn), SubagentCell(id), id, turn, drift);
    }
  }

  lemma SubagentHasCell(a: Accounts, id: string, turn: Turn)
    requires Consistent(a) && id in a.subagents
    ensures SubagentCell(id) in Seen(a, id, turn).cells
  {
    assert SubagentCell(id) in a.cells <==> HasPlace(a, SubagentCell(id));
  }

  lemma TotalHasCell(a: Accounts)
    requires Consistent(a)
    ensures SessionCell in a.cells
  {
    assert SessionCell in a.cells <==> HasPlace(a, SessionCell);
  }

  lemma ChargeTurnKeeps(a: Accounts, turn: Turn, drift: Tokens)
    requires Balanced(a, drift)
    ensures Balanced(ChargeTurn(a, turn), drift)
  {
    hide Conserved, Charge, CloseSkillWindow, Consistent;
    TotalHasCell(a);
    ChargeKeeps(a, SessionCell, "", turn, drift);
    CloseKeeps(Charge(a, SessionCell, "", turn), "", turn.timestamp, drift);
  }

  // ---- Every run ----

  /** The line replaces the total instead of adding to it. */
  predicate SetsTotal(turn: Turn) {
    turn.subagentId == "" && turn.customTitle == "" && !IsPlanOnly(turn) && turn.IsUsageSignal()
  }

  lemma BoundedKeeps(a: Accounts, notes: Notes, turn: Turn, drift: Tokens)
    requires Balanced(a, drift)
    ensures Balanced(WindowSignals(a, notes, turn), drift) && WindowSignals(a, notes, turn).requests == a.requests
  {
    hide Balanced;
    CloseKeeps(a, "", turn.timestamp, drift);
    WindowEventsKeep(Bounded(a, notes, turn), turn.events, drift);
  }

  /** A signalled total is off by what the requests do not account for. */
  lemma SignalDrifts(a: Accounts, usage: Tokens, drift: Tokens)
    requires Balanced(a, drift)
    ensures Balanced(a.(cells := a.cells[SessionCell := usage]), usage.Minus(Sum(a.requests, SessionCell)))
  {
    hide Sum;
    var b := a.(cells := a.cells[SessionCell := usage]);
    forall t ensures t in b.cells <==> HasPlace(b, t) {
      assert t in a.cells <==> HasPlace(a, t);
    }
    PlusIsAGroup(usage, Sum(a.requests, SessionCell), ZERO);
  }

  /** What the last signalled total said beyond the requests known then. */
  ghost function Drift(desk: Desk, arrivals: seq<Arrival>): Tokens {
    if arrivals == [] then ZERO
    else
      var front, turn := arrivals[..|arrivals| - 1], arrivals[|arrivals| - 1].turn;
      if SetsTotal(turn) then turn.usage.value.Minus(Sum(IngestAll(desk, front).ledger.accounts.requests, SessionCell))
      else Drift(desk, front)
  }

  lemma MainKeeps(a: Accounts, notes: Notes, turn: Turn, drift: Tokens)
    requires Balanced(a, drift) && turn.subagentId == ""
    ensures Balanced(ChargeMain(a, notes, turn),
                     if SetsTotal(turn) then turn.usage.value.Minus(Sum(a.requests, SessionCell)) else drift)
  {
    hide Balanced, Sum, ChargeTurn;
    BoundedKeeps(a, notes, turn, drift);
    var signalled := WindowSignals(a, notes, turn);
    if SetsTotal(turn) {
      SignalDrifts(signalled, turn.usage.value, drift);
    } else {
      ChargeTurnKeeps(signalled, turn, drift);
    }
  }

  lemma IngestKeeps(desk: Desk, arrival: Arrival, drift: Tokens)
    requires Balanced(desk.ledger.accounts, drift)
    ensures Balanced(Ingest(desk, arrival).ledger.accounts,
                     if SetsTotal(arrival.turn)
                     then arrival.turn.usage.value.Minus(Sum(desk.ledger.accounts.requests, SessionCell)) else drift)
  {
    hide Balanced, Sum, ChargeMain, AddSubagentTurn;
    var a, turn := desk.ledger.accounts, arrival.turn;
    if turn.subagentId == "" {
      MainKeeps(a, desk.ledger.notes, turn, drift);
    } else {
      WindowEventsKeep(a, turn.events, drift);
      AddSubagentKeeps(WindowEvents(a, turn.events), NoteEvents(desk.ledger.notes, turn.events).scope.ring.capacity,
          turn, drift);
    }
  }

  lemma NothingDrifts()
    ensures Balanced(EMPTY_ACCOUNTS, ZERO)
  {
    hide Sum, Tokens.Plus;
    SumOfNone(SessionCell);
    PlusZero(ZERO);
    forall t ensures t in EMPTY_ACCOUNTS.cells <==> HasPlace(EMPTY_ACCOUNTS, t) {
    }
  }

  /** In every run each skill's and each sub-agent's cell holds exactly what the requests last counted into it,
      however chunks repeat, interleave or move between windows; the session's holds that and the drift. */
  lemma {:induction false} UsageIsConserved(desk: Desk, arrivals: seq<Arrival>)
    requires desk.ledger.accounts == EMPTY_ACCOUNTS
    ensures Balanced(IngestAll(desk, arrivals).ledger.accounts, Drift(desk, arrivals))
  {
    hide Balanced, Sum, Ingest, SetsTotal;
    if arrivals == [] {
      NothingDrifts();
    } else {
      var front := arrivals[..|arrivals| - 1];
      UsageIsConserved(desk, front);
      IngestKeeps(IngestAll(desk, front), arrivals[|arrivals| - 1], Drift(desk, front));
    }
  }

  lemma {:induction false} NoSignalNoDrift(desk: Desk, arrivals: seq<Arrival>)
    requires forall i :: 0 <= i < |arrivals| ==> !SetsTotal(arrivals[i].turn)
    ensures Drift(desk, arrivals) == ZERO
  {
    if arrivals != [] { NoSignalNoDrift(desk, arrivals[..|arrivals| - 1]); }
  }

  /** Without signalled totals every cell is the sum of its requests. */
  lemma EveryCellIsItsRequests(desk: Desk, arrivals: seq<Arrival>)
    requires desk.ledger.accounts == EMPTY_ACCOUNTS
    requires forall i :: 0 <= i < |arrivals| ==> !SetsTotal(arrivals[i].turn)
    ensures var a := IngestAll(desk, arrivals).ledger.accounts;
            forall t :: t in a.cells ==> a.cells[t] == Sum(a.requests, t)
  {
    hide Sum, IngestAll, Drift, Tokens.Plus;
    UsageIsConserved(desk, arrivals);
    NoSignalNoDrift(desk, arrivals);
    var a := IngestAll(desk, arrivals).ledger.accounts;
    forall t | t in a.cells ensures a.cells[t] == Sum(a.requests, t) {
      PlusZero(Sum(a.requests, t));
    }
  }

  /** The total is the sum of its requests exactly when the last signalled total was. */
  lemma TotalIsItsRequestsExactly(desk: Desk, arrivals: seq<Arrival>)
    requires desk.ledger.accounts == EMPTY_ACCOUNTS
    ensures var a := IngestAll(desk, arrivals).ledger.accounts;
            && SessionCell in a.cells
            && (a.cells[SessionCell] == Sum(a.requests, SessionCell) <==> Drift(desk, arrivals) == ZERO)
  {
    hide Sum, IngestAll, Drift;
    UsageIsConserved(desk, arrivals);
    TotalHasCell(IngestAll(desk, arrivals).ledger.accounts);
  }
}
