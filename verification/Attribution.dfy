/** A skill window never holds more than the stream it belongs to (session/session.go). */
module Attribution {
  import opened Types
  import opened Ledgers
  import opened TurnBuffers
  import opened Conservation

  /** Whose usage an actor's skills share in: the session's for the main chain, else the sub-agent's. */
  function OwnerOf(actor: string): Target { if actor == "" then SessionCell else SubagentCell(actor) }

  /** The request counted into an owner, and besides at most into one skill of that owner. */
  predicate IsShared(skills: seq<SkillRow>, row: RequestRow) {
    && 1 <= |row.targets| <= 2 && !row.targets[0].SkillCell?
    && (|row.targets| == 2 ==>
          && row.targets[1].SkillCell? && row.targets[1].index < |skills|
          && OwnerOf(skills[row.targets[1].index].agentId) == row.targets[0])
  }

  /** Every window is its own actor's, and every request is shared within one owner. */
  ghost predicate Attributed(a: Accounts) {
    && (forall actor :: actor in a.active ==> a.active[actor] < |a.skills| && a.skills[a.active[actor]].agentId == actor)
    && (forall id :: id in a.requests ==> IsShared(a.skills, a.requests[id]) && ZERO.AtMost(a.requests[id].counted))
  }

  // ---- Every step ----

  ghost predicate SameAgents(skills: seq<SkillRow>, later: seq<SkillRow>) {
    |skills| <= |later| && forall i :: 0 <= i < |skills| ==> later[i].agentId == skills[i].agentId
  }

  lemma LaterSkills(a: Accounts, skills: seq<SkillRow>)
    requires Attributed(a) && SameAgents(a.skills, skills)
    ensures Attributed(a.(skills := skills))
  {
  }

  lemma CloseAttributed(a: Accounts, actor: string, timestamp: Time)
    requires Attributed(a)
    ensures Attributed(CloseSkillWindow(a, actor, timestamp))
  {
    LaterSkills(a, ClosedRows(a.skills, a.active, actor, timestamp));
  }

  lemma StartAttributed(a: Accounts, event: Event)
    requires Attributed(a) && event.skill.Some?
    ensures Attributed(StartWindow(a, event))
  {
    LaterSkills(a, a.skills + [OpenedRow(event)]);
  }

  lemma {:induction false} WindowEventsAttributed(a: Accounts, events: seq<Event>)
    requires Attributed(a)
    ensures Attributed(WindowEvents(a, events))
  {
    hide Attributed;
    if events != [] {
      var event, before := events[|events| - 1], WindowEvents(a, events[..|events| - 1]);
      WindowEventsAttributed(a, events[..|events| - 1]);
      if event.kind == SkillInvoked && event.skill.Some? {
        CloseAttributed(before, event.actor, event.timestamp);
        StartAttributed(CloseSkillWindow(before, event.actor, event.timestamp), event);
      }
    }
  }

  lemma ChargeAttributed(a: Accounts, actor: string, turn: Turn)
    requires Attributed(a) && (turn.usage.Some? ==> ZERO.AtMost(turn.usage.value))
    ensures Attributed(Charge(a, OwnerOf(actor), actor, turn))
  {
    if CountsUsage(turn) {
      LaterSkills(a, UsedRows(a.skills, a.active, actor, turn));
      var b := a.(skills := UsedRows(a.skills, a.active, actor, turn));
      assert IsShared(b.skills, RequestRow(turn.usage.value, ChargedTo(a.active, OwnerOf(actor), actor)));
    }
  }

  lemma MainAttributed(a: Accounts, notes: Notes, turn: Turn)
    requires Attributed(a) && (turn.usage.Some? ==> ZERO.AtMost(turn.usage.value))
    ensures Attributed(ChargeMain(a, notes, turn))
  {
    hide Charge, CloseSkillWindow, WindowEvents;
    CloseAttributed(a, "", turn.timestamp);
    WindowEventsAttributed(Bounded(a, notes, turn), turn.events);
    var signalled := WindowSignals(a, notes, turn);
    ChargeAttributed(signalled, "", turn);
    CloseAttributed(Charge(signalled, SessionCell, "", turn), "", turn.timestamp);
  }

  lemma IngestAttributed(desk: Desk, arrival: Arrival)
    requires Attributed(desk.ledger.accounts) && (arrival.turn.usage.Some? ==> ZERO.AtMost(arrival.turn.usage.value))
    ensures Attributed(Ingest(desk, arrival).ledger.accounts)
  {
    hide Charge, WindowEvents, ChargeMain, NoteMain, NoteEvents, SubagentSeen, Tokens.AtMost;
    var a, turn := desk.ledger.accounts, arrival.turn;
    if turn.subagentId == "" {
      MainAttributed(a, desk.ledger.notes, turn);
    } else {
      var id, told := turn.subagentId, WindowEvents(a, turn.events);
      WindowEventsAttributed(a, turn.events);
      var known := Admitted(told, NoteEvents(desk.ledger.notes, turn.events).scope.ring.capacity, id);
      if id in known.subagents {
        ChargeAttributed(Seen(known, id, turn), id, turn);
      }
    }
  }

  ghost predicate NonNegative(arrivals: seq<Arrival>) {
    forall i :: 0 <= i < |arrivals| && arrivals[i].turn.usage.Some? ==> ZERO.AtMost(arrivals[i].turn.usage.value)
  }

  lemma {:induction false} AlwaysAttributed(desk: Desk, arrivals: seq<Arrival>)
    requires desk.ledger.accounts == EMPTY_ACCOUNTS && NonNegative(arrivals)
    ensures Attributed(IngestAll(desk, arrivals).ledger.accounts)
  {
    hide Ingest;
    if arrivals != [] {
      AlwaysAttributed(desk, arrivals[..|arrivals| - 1]);
      IngestAttributed(IngestAll(desk, arrivals[..|arrivals| - 1]), arrivals[|arrivals| - 1]);
    }
  }

  // ---- The sum over an owner's skills ----

  /** What the cells of the owner's first n skills hold together. */
  ghost function SkillsHold(a: Accounts, owner: Target, n: nat): Tokens
    requires n <= |a.skills| && forall i :: 0 <= i < n ==> SkillCell(i) in a.cells
  {
    if n == 0 then ZERO
    else
      var before := SkillsHold(a, owner, n - 1);
      if OwnerOf(a.skills[n - 1].agentId) == owner then before.Plus(a.cells[SkillCell(n - 1)]) else before
  }

  /** The same sum, taken over what requests count into those skills. */
  ghost function Share(skills: seq<SkillRow>, requests: map<string, RequestRow>, owner: Target, n: nat): Tokens
    requires n <= |skills|
  {
    if n == 0 then ZERO
    else
      var before := Share(skills, requests, owner, n - 1);
      if OwnerOf(skills[n - 1].agentId) == owner then before.Plus(Sum(requests, SkillCell(n - 1))) else before
  }

  /** One request's part in it. */
  ghost function RowShare(skills: seq<SkillRow>, row: RequestRow, owner: Target, n: nat): Tokens
    requires n <= |skills|
  {
    if n == 0 then ZERO
    else
      var before := RowShare(skills, row, owner, n - 1);
      if OwnerOf(skills[n - 1].agentId) == owner then before.Plus(Into(row.counted, row.targets, SkillCell(n - 1))) else before
  }

  lemma {:induction false} HoldIsShare(a: Accounts, drift: Tokens, owner: Target, n: nat)
    requires Balanced(a, drift) && n <= |a.skills|
    ensures forall i :: 0 <= i < n ==> SkillCell(i) in a.cells
    ensures SkillsHold(a, owner, n) == Share(a.skills, a.requests, owner, n)
  {
    hide Sum, Tokens.Plus;
    if n > 0 {
      HoldIsShare(a, drift, owner, n - 1);
      assert SkillCell(n - 1) in a.cells <==> HasPlace(a, SkillCell(n - 1));
      PlusZero(Sum(a.requests, SkillCell(n - 1)));
    }
  }

  lemma Regroup(a: Tokens, b: Tokens, c: Tokens, d: Tokens)
    ensures a.Plus(b).Plus(c.Plus(d)) == a.Plus(c).Plus(b.Plus(d))
  {
  }

  lemma {:induction false} ShareTakes(skills: seq<SkillRow>, requests: map<string, RequestRow>, id: string,
                                      owner: Target, n: nat)
    requires id in requests && n <= |skills|
    ensures Share(skills, requests, owner, n) ==
            RowShare(skills, requests[id], owner, n).Plus(Share(skills, requests - {id}, owner, n))
  {
    hide Sum, Into, Tokens.Plus;
    if n == 0 {
      PlusZero(ZERO);
    } else {
      var rest, t := requests - {id}, SkillCell(n - 1);
      ShareTakes(skills, requests, id, owner, n - 1);
      SumTakes(requests, id, t);
      Regroup(RowShare(skills, requests[id], owner, n - 1), Share(skills, rest, owner, n - 1),
              Into(requests[id].counted, requests[id].targets, t), Sum(rest, t));
    }
  }

  lemma {:induction false} ShareOfNone(skills: seq<SkillRow>, owner: Target, n: nat)
    requires n <= |skills|
    ensures Share(skills, map[], owner, n) == ZERO
  {
    hide Tokens.Plus;
    if n > 0 {
      ShareOfNone(skills, owner, n - 1);
      SumOfNone(SkillCell(n - 1));
      PlusZero(ZERO);
    }
  }

  lemma IntoTwo(row: RequestRow, t: Target)
    requires 1 <= |row.targets| <= 2 && (|row.targets| == 2 ==> row.targets[0] != row.targets[1])
    ensures Into(row.counted, row.targets, t) == if t in row.targets then row.counted else ZERO
  {
    var front := row.targets[..|row.targets| - 1];
    assert Into(row.counted, front, t) == if t in front then row.counted else ZERO by {
      if |front| == 1 {
        assert front[..0] == [];
      }
      PlusZero(row.counted);
    }
    assert row.targets == front + [row.targets[|row.targets| - 1]];
    PlusZero(row.counted);
  }

  /** A request's part in the owner's skills is all of it or nothing. */
  lemma {:induction false} RowShareIs(skills: seq<SkillRow>, row: RequestRow, owner: Target, n: nat)
    requires n <= |skills| && IsShared(skills, row)
    ensures RowShare(skills, row, owner, n) ==
            if row.targets[0] == owner && |row.targets| == 2 && row.targets[1].index < n then row.counted else ZERO
  {
    hide Into, Tokens.Plus;
    if n > 0 {
      RowShareIs(skills, row, owner, n - 1);
      IntoTwo(row, SkillCell(n - 1));
      PlusZero(row.counted);
      PlusZero(ZERO);
    }
  }

  lemma RowShareAtMost(skills: seq<SkillRow>, row: RequestRow, owner: Target)
    requires IsShared(skills, row) && ZERO.AtMost(row.counted) && !owner.SkillCell?
    ensures RowShare(skills, row, owner, |skills|).AtMost(Into(row.counted, row.targets, owner))
  {
    hide Into, RowShare;
    RowShareIs(skills, row, owner, |skills|);
    IntoTwo(row, owner);
  }

  lemma AddAtMost(a: Tokens, b: Tokens, c: Tokens, d: Tokens)
    requires a.AtMost(b) && c.AtMost(d)
    ensures a.Plus(c).AtMost(b.Plus(d))
  {
  }

  lemma {:induction false} ShareAtMost(skills: seq<SkillRow>, requests: map<string, RequestRow>, owner: Target)
    requires !owner.SkillCell?
    requires forall id :: id in requests ==> IsShared(skills, requests[id]) && ZERO.AtMost(requests[id].counted)
    ensures Share(skills, requests, owner, |skills|).AtMost(Sum(requests, owner))
    decreases |requests|
  {
    hide Share, RowShare, Sum, Into, IsShared, Tokens.Plus;
    if requests == map[] {
      ShareOfNone(skills, owner, |skills|);
      SumOfNone(owner);
    } else {
      var id :| id in requests;
      ShareTakes(skills, requests, id, owner, |skills|);
      SumTakes(requests, id, owner);
      ShareAtMost(skills, requests - {id}, owner);
      RowShareAtMost(skills, requests[id], owner);
      AddAtMost(RowShare(skills, requests[id], owner, |skills|), Into(requests[id].counted, requests[id].targets, owner),
                Share(skills, requests - {id}, owner, |skills|), Sum(requests - {id}, owner));
    }
  }

  /** What the owner's skills hold and what the owner's cell holds besides requests fit into the cell. */
  lemma OwnedAtMost(a: Accounts, drift: Tokens, owner: Target)
    requires Balanced(a, drift) && Attributed(a) && owner in a.cells && !owner.SkillCell?
    ensures forall i :: 0 <= i < |a.skills| ==> SkillCell(i) in a.cells
    ensures (if owner == SessionCell then drift else ZERO).Plus(SkillsHold(a, owner, |a.skills|)).AtMost(a.cells[owner])
  {
    hide Share, Sum, SkillsHold, Tokens.AtMost, Tokens.Plus;
    var base := if owner == SessionCell then drift else ZERO;
    HoldIsShare(a, drift, owner, |a.skills|);
    ShareAtMost(a.skills, a.requests, owner);
    AtMostItself(base);
    AddAtMost(base, base, Share(a.skills, a.requests, owner, |a.skills|), Sum(a.requests, owner));
  }

  lemma AtMostItself(a: Tokens)
    ensures a.AtMost(a)
  {
  }

  /** With non-negative usage, a sub-agent's skills together never hold more than the sub-agent, field by field. */
  lemma SubagentSkillsAtMost(desk: Desk, arrivals: seq<Arrival>, id: string)
    requires desk.ledger.accounts == EMPTY_ACCOUNTS && NonNegative(arrivals)
    requires id in IngestAll(desk, arrivals).ledger.accounts.subagents
    ensures var a := IngestAll(desk, arrivals).ledger.accounts;
            && SubagentCell(id) in a.cells && (forall i :: 0 <= i < |a.skills| ==> SkillCell(i) in a.cells)
            && SkillsHold(a, SubagentCell(id), |a.skills|).AtMost(a.cells[SubagentCell(id)])
  {
    hide IngestAll, Drift, Conserved, Attributed, SkillsHold, Tokens.AtMost, Tokens.Plus;
    var a := IngestAll(desk, arrivals).ledger.accounts;
    UsageIsConserved(desk, arrivals);
    AlwaysAttributed(desk, arrivals);
    assert SubagentCell(id) in a.cells <==> HasPlace(a, SubagentCell(id));
    OwnedAtMost(a, Drift(desk, arrivals), SubagentCell(id));
    PlusZero(SkillsHold(a, SubagentCell(id), |a.skills|));
  }

  /** The main chain's skills and the drift never hold more than the session: in a run without signalled
      totals, whose drift is zero, the skills alone never do. */
  lemma MainSkillsAtMost(desk: Desk, arrivals: seq<Arrival>)
    requires desk.ledger.accounts == EMPTY_ACCOUNTS && NonNegative(arrivals)
    ensures var a := IngestAll(desk, arrivals).ledger.accounts;
            && SessionCell in a.cells && (forall i :: 0 <= i < |a.skills| ==> SkillCell(i) in a.cells)
            && Drift(desk, arrivals).Plus(SkillsHold(a, SessionCell, |a.skills|)).AtMost(a.cells[SessionCell])
            && ((forall i :: 0 <= i < |arrivals| ==> !SetsTotal(arrivals[i].turn)) ==>
                  SkillsHold(a, SessionCell, |a.skills|).AtMost(a.cells[SessionCell]))
  {
    hide IngestAll, Drift, Conserved, Attributed, SkillsHold, Tokens.AtMost, Tokens.Plus;
    var a := IngestAll(desk, arrivals).ledger.accounts;
    UsageIsConserved(desk, arrivals);
    AlwaysAttributed(desk, arrivals);
    TotalHasCell(a);
    OwnedAtMost(a, Drift(desk, arrivals), SessionCell);
    if forall i :: 0 <= i < |arrivals| ==> !SetsTotal(arrivals[i].turn) {
      NoSignalNoDrift(desk, arrivals);
      PlusZero(SkillsHold(a, SessionCell, |a.skills|));
    }
  }
}
