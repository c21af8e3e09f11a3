/** What a counted line is charged to (session/session.go, session/store.go), read off the lines alone: the stream it
    belongs to and, beside that, the skill its actor invoked last, unless a later line closed it. */
module SkillWindows {
  import opened Types
  import opened TurnBuffers
  import opened Plans
  import opened Ledgers
  import opened Conservation

  // ---- The lines' deeds ----

  /** A skill was invoked, or an actor's window ended. */
  datatype Deed = Invoked(event: Event) | Ended(actor: string)

  function ActorOf(deed: Deed): string { match deed case Invoked(event) => event.actor case Ended(actor) => actor }

  function Invocations(events: seq<Event>): seq<Deed> {
    if events == [] then []
    else
      var front, last := Invocations(events[..|events| - 1]), events[|events| - 1];
      if last.kind == SkillInvoked && last.skill.Some? then front + [Invoked(last)] else front
  }

  predicate IsPromptLine(turn: Turn) {
    turn.subagentId == "" && turn.customTitle == "" && turn.role == User && TrimSpace(turn.text) != ""
  }

  /** The prompt id of the last prompt. */
  function LastPrompt(arrivals: seq<Arrival>): string {
    if arrivals == [] then ""
    else
      var last := arrivals[|arrivals| - 1].turn;
      if IsPromptLine(last) then last.promptId else LastPrompt(arrivals[..|arrivals| - 1])
  }

  /** What a line does before its usage is counted: a prompt of another submission ends the main window, an invoked
      skill opens its actor's. */
  function Opening(turn: Turn, lastPrompt: string): seq<Deed> {
    if turn.subagentId == "" && turn.customTitle != "" then []
    else
      (if IsPromptLine(turn) && (turn.promptId == "" || turn.promptId != lastPrompt) then [Ended("")] else [])
      + Invocations(turn.events)
  }

  /** A chat line of the main chain. */
  predicate IsChatLine(turn: Turn) {
    turn.subagentId == "" && turn.customTitle == "" && turn.role != NoRole && (turn.planFilePath == "" || turn.text != "")
  }

  /** What it does afterwards: the end of the main chain's turn ends the window. */
  function Closing(turn: Turn): seq<Deed> {
    if IsChatLine(turn) && turn.stopReason != "" && turn.stopReason != "tool_use" then [Ended("")] else []
  }

  function Deeds(arrivals: seq<Arrival>): seq<Deed> {
    if arrivals == [] then []
    else
      var front, turn := arrivals[..|arrivals| - 1], arrivals[|arrivals| - 1].turn;
      Deeds(front) + Opening(turn, LastPrompt(front)) + Closing(turn)
  }

  /** The skills invoked, in order. */
  function InvokedEvents(deeds: seq<Deed>): seq<Event> {
    if deeds == [] then []
    else
      var front, last := InvokedEvents(deeds[..|deeds| - 1]), deeds[|deeds| - 1];
      if last.Invoked? then front + [last.event] else front
  }

  /** The p-th deed invokes a skill of the actor's, and no later deed is the actor's. */
  ghost predicate OpensAt(deeds: seq<Deed>, actor: string, p: nat) {
    p < |deeds| && deeds[p].Invoked? && deeds[p].event.actor == actor
    && forall q :: p < q < |deeds| ==> ActorOf(deeds[q]) != actor
  }

  /** The actor's open window is on skill i: the i-th invoked, one of the 200 there is room for. */
  ghost predicate IsWindow(deeds: seq<Deed>, actor: string, i: nat) {
    i < 200 && exists p: nat :: OpensAt(deeds, actor, p) && |InvokedEvents(deeds[..p])| == i
  }

  lemma InvokedSnoc(deeds: seq<Deed>, deed: Deed)
    ensures InvokedEvents(deeds + [deed]) ==
            if deed.Invoked? then InvokedEvents(deeds) + [deed.event] else InvokedEvents(deeds)
  {
    assert (deeds + [deed])[..|deeds|] == deeds;
  }

  /** One more deed of the actor's own decides; any other leaves the window. */
  lemma WindowSnoc(deeds: seq<Deed>, deed: Deed, actor: string, i: nat)
    ensures IsWindow(deeds + [deed], actor, i) <==>
            if ActorOf(deed) != actor then IsWindow(deeds, actor, i)
            else deed.Invoked? && i == |InvokedEvents(deeds)| < 200
  {
    hide InvokedEvents;
    var all := deeds + [deed];
    if ActorOf(deed) != actor {
      if IsWindow(deeds, actor, i) {
        var p: nat :| OpensAt(deeds, actor, p) && |InvokedEvents(deeds[..p])| == i;
        assert all[..p] == deeds[..p] && OpensAt(all, actor, p);
      }
      if IsWindow(all, actor, i) {
        var p: nat :| OpensAt(all, actor, p) && |InvokedEvents(all[..p])| == i;
        assert all[..p] == deeds[..p] && OpensAt(deeds, actor, p);
      }
    } else {
      assert all[..|deeds|] == deeds && all[|deeds|] == deed;
      if deed.Invoked? && i == |InvokedEvents(deeds)| < 200 {
        assert OpensAt(all, actor, |deeds|);
      }
      if IsWindow(all, actor, i) {
        var p: nat :| OpensAt(all, actor, p) && |InvokedEvents(all[..p])| == i;
        assert p == |deeds|;
      }
    }
  }

  // ---- The ledger's windows are those of the deeds ----

  ghost predicate WindowsAre(active: map<string, nat>, deeds: seq<Deed>) {
    forall actor, i :: IsWindow(deeds, actor, i) <==> actor in active && active[actor] == i
  }

  /** The first 200 invoked skills have rows that name them. */
  ghost predicate SkillsAre(skills: seq<SkillRow>, invoked: seq<Event>) {
    && |skills| == (if |invoked| < 200 then |invoked| else 200)
    && forall i :: 0 <= i < |skills| ==>
         && invoked[i].skill.Some? && skills[i].agentId == invoked[i].actor
         && skills[i].skill == invoked[i].skill.value.skill && skills[i].args == invoked[i].skill.value.args
         && skills[i].startedAt == invoked[i].timestamp
  }

  /** Every request counts into each of its cells once. */
  ghost predicate CountsOnce(requests: map<string, RequestRow>) {
    forall id :: id in requests ==> OnceEach(requests[id].targets)
  }

  ghost predicate OnceEach(targets: seq<Target>) { forall i, j :: 0 <= i < j < |targets| ==> targets[i] != targets[j] }

  ghost predicate Tells(a: Accounts, deeds: seq<Deed>) {
    && Consistent(a) && WindowsAre(a.active, deeds) && SkillsAre(a.skills, InvokedEvents(deeds))
    && CountsOnce(a.requests)
  }

  /** A closed window's skill gets an end if it had none, and nothing else moves. */
  lemma CloseEndsIt(a: Accounts, actor: string, timestamp: Time)
    requires Consistent(a)
    ensures var after := CloseSkillWindow(a, actor, timestamp);
            && after.active == a.active - {actor} && after.cells == a.cells && after.requests == a.requests
            && after.subagents == a.subagents && |after.skills| == |a.skills|
            && forall i :: 0 <= i < |a.skills| ==>
                 after.skills[i] == if actor in a.active && i == a.active[actor] && a.skills[i].endedAt == 0
                                    then a.skills[i].(endedAt := timestamp) else a.skills[i]
  {
  }

  lemma EndTells(a: Accounts, deeds: seq<Deed>, actor: string, timestamp: Time)
    requires Tells(a, deeds)
    ensures Tells(CloseSkillWindow(a, actor, timestamp), deeds + [Ended(actor)])
  {
    hide InvokedEvents, IsWindow, CloseSkillWindow;
    CloseEndsIt(a, actor, timestamp);
    InvokedSnoc(deeds, Ended(actor));
    forall other, i ensures IsWindow(deeds + [Ended(actor)], other, i) <==> other != actor && IsWindow(deeds, other, i) {
      WindowSnoc(deeds, Ended(actor), other, i);
    }
  }

  /** What a start does, in fields. */
  lemma StartIs(a: Accounts, event: Event)
    requires event.skill.Some?
    ensures var after := StartWindow(a, event);
            && after.active == a.active[event.actor := |a.skills|] && |after.skills| == |a.skills| + 1
            && after.skills[..|a.skills|] == a.skills
            && after.cells == a.cells[SkillCell(|a.skills|) := ZERO]
            && after.requests == a.requests && after.subagents == a.subagents
            && after.skills[|a.skills|] ==
               SkillRow(event.actor, event.skill.value.skill, event.skill.value.args, "", event.timestamp, 0)
  {
  }

  lemma StartTells(a: Accounts, deeds: seq<Deed>, event: Event)
    requires Tells(a, deeds + [Ended(event.actor)]) && event.skill.Some?
    ensures Tells(if |a.skills| < 200 then StartWindow(a, event) else a, deeds + [Invoked(event)])
  {
    hide InvokedEvents, IsWindow, StartWindow;
    var after := if |a.skills| < 200 then StartWindow(a, event) else a;
    StartIs(a, event);
    InvokedSnoc(deeds, Ended(event.actor));
    InvokedSnoc(deeds, Invoked(event));
    forall actor, i
      ensures IsWindow(deeds + [Invoked(event)], actor, i) <==> actor in after.active && after.active[actor] == i
    {
      WindowSnoc(deeds, Ended(event.actor), actor, i);
      WindowSnoc(deeds, Invoked(event), actor, i);
    }
    StartConsistent(a, event);
  }

  lemma StartConsistent(a: Accounts, event: Event)
    requires Consistent(a) && event.skill.Some?
    ensures Consistent(StartWindow(a, event))
  {
  }

  lemma {:induction false} InvocationsTell(a: Accounts, deeds: seq<Deed>, events: seq<Event>)
    requires Tells(a, deeds)
    ensures Tells(WindowEvents(a, events), deeds + Invocations(events))
  {
    hide Tells, CloseSkillWindow, StartWindow;
    if events == [] {
      assert deeds + [] == deeds;
    } else {
      var front, last := events[..|events| - 1], events[|events| - 1];
      InvocationsTell(a, deeds, front);
      if last.kind == SkillInvoked && last.skill.Some? {
        var before, told := WindowEvents(a, front), deeds + Invocations(front);
        EndTells(before, told, last.actor, last.timestamp);
        StartTells(CloseSkillWindow(before, last.actor, last.timestamp), told, last);
        assert told + [Invoked(last)] == deeds + Invocations(events);
      }
    }
  }

  // ---- One count ----

  /** A cell without what the request counted into it before. */
  function TakenBack(a: Accounts, requestId: string, t: Target): Tokens {
    var held := if t in a.cells then a.cells[t] else ZERO;
    if requestId in a.requests && t in a.requests[requestId].targets then held.Minus(a.requests[requestId].counted)
    else held
  }

  lemma {:induction false} IntoOnce(usage: Tokens, targets: seq<Target>, t: Target)
    requires OnceEach(targets)
    ensures Into(usage, targets, t) == if t in targets then ZERO.Plus(usage) else ZERO
  {
    if targets != [] {
      var front, last := targets[..|targets| - 1], targets[|targets| - 1];
      IntoOnce(usage, front, t);
      assert targets == front + [last];
    }
  }

  lemma CountIs(a: Accounts, requestId: string, usage: Tokens, targets: seq<Target>, t: Target)
    requires t in a.cells && OnceEach(targets) && CountsOnce(a.requests)
    ensures var after := ApplyRequestUsage(a, requestId, usage, targets);
            t in after.cells &&
            after.cells[t] == TakenBack(a, requestId, t).Plus(if t in targets then usage else ZERO)
  {
    hide AdjustAll, Into, OnceEach;
    if requestId in a.requests {
      var row := a.requests[requestId];
      AdjustsEach(a.cells, row.targets, ZERO.Minus(row.counted), t);
      IntoOnce(ZERO.Minus(row.counted), row.targets, t);
    }
    AdjustsEach(Undone(a.cells, a.requests, requestId), targets, usage, t);
    IntoOnce(usage, targets, t);
  }

  /** A counted turn takes its request's earlier count back, and adds its usage to its owner's cell and to the skill its
      actor has open, whose end and, if it had none, whose model it sets; every other cell and skill stays. */
  lemma ChargeMoves(a: Accounts, owner: Target, actor: string, turn: Turn)
    requires Consistent(a) && CountsOnce(a.requests) && owner in a.cells && !owner.SkillCell?
    requires turn.usage.Some? && turn.requestId != ""
    ensures var after := Charge(a, owner, actor, turn);
            && after.cells.Keys == a.cells.Keys && after.active == a.active && after.subagents == a.subagents
            && |after.skills| == |a.skills| && Consistent(after) && CountsOnce(after.requests)
            && (forall t :: t in a.cells ==>
                  after.cells[t] == TakenBack(a, turn.requestId, t).Plus(
                    if t == owner || (actor in a.active && t == SkillCell(a.active[actor])) then turn.usage.value else ZERO))
            && (forall i :: 0 <= i < |a.skills| ==>
                  after.skills[i] == if actor in a.active && i == a.active[actor]
                                     then a.skills[i].(endedAt := turn.timestamp,
                                            model := if a.skills[i].model != "" then a.skills[i].model else turn.meta.model)
                                     else a.skills[i])
            && after.requests.Keys == a.requests.Keys + {turn.requestId}
            && (forall id :: id in a.requests && id != turn.requestId ==> after.requests[id] == a.requests[id])
            && after.requests[turn.requestId].counted == turn.usage.value
            && after.requests[turn.requestId].targets ==
               [owner] + if actor in a.active then [SkillCell(a.active[actor])] else []
  {
    hide AdjustAll, Tokens.Plus, Tokens.Minus, TakenBack;
    var charged := a.(skills := UsedRows(a.skills, a.active, actor, turn));
    var targets := ChargedTo(a.active, owner, actor);
    forall t ensures t in Charge(a, owner, actor, turn).cells <==> t in a.cells {
      KeepsCells(a, turn.requestId, turn.usage.value, targets, t);
    }
    forall t | t in a.cells
      ensures Charge(a, owner, actor, turn).cells[t] ==
              TakenBack(a, turn.requestId, t).Plus(if t in targets then turn.usage.value else ZERO)
    {
      CountIs(charged, turn.requestId, turn.usage.value, targets, t);
      SameBack(a, charged, turn.requestId, t);
    }
  }

  lemma SameBack(a: Accounts, b: Accounts, requestId: string, t: Target)
    requires b.cells == a.cells && b.requests == a.requests
    ensures TakenBack(b, requestId, t) == TakenBack(a, requestId, t)
  {
  }

  lemma KeepsCells(a: Accounts, requestId: string, usage: Tokens, targets: seq<Target>, t: Target)
    ensures t in Applied(a.cells, a.requests, requestId, usage, targets) <==> t in a.cells
  {
    hide AdjustAll;
    if requestId in a.requests {
      AdjustsEach(a.cells, a.requests[requestId].targets, ZERO.Minus(a.requests[requestId].counted), t);
    }
    AdjustsEach(Undone(a.cells, a.requests, requestId), targets, usage, t);
  }

  // ---- One line ----

  /** What a cell holds; one that is not there yet, nothing. */
  function Held(a: Accounts, t: Target): Tokens { if t in a.cells then a.cells[t] else ZERO }

  /** Cells may have come, empty; nothing was counted. */
  ghost predicate OnlyNewCells(a: Accounts, after: Accounts) {
    && after.requests == a.requests && (forall t :: t in a.cells ==> t in after.cells)
    && forall t :: t in after.cells ==> after.cells[t] == Held(a, t)
  }

  /** The stream a line belongs to, and the actor whose skill it may be charged to. */
  function Owner(turn: Turn): Target { if turn.subagentId != "" then SubagentCell(turn.subagentId) else SessionCell }

  function Actor(turn: Turn): string { turn.subagentId }

  /** The line's usage is counted: a chat line's, or that of a sub-agent there is room for. */
  predicate IsCounted(turn: Turn, known: set<string>) {
    && turn.usage.Some? && turn.requestId != ""
    && if turn.subagentId != "" then turn.subagentId in known || |known| < 300 else IsChatLine(turn)
  }

  /** It is a total signalled for the whole session. */
  predicate SignalsTotal(turn: Turn) {
    turn.subagentId == "" && turn.customTitle == "" && turn.role == NoRole && turn.usage.Some?
    && (turn.planFilePath == "" || turn.text != "")
  }

  /** What a line may be charged to. */
  ghost predicate IsCharged(deeds: seq<Deed>, turn: Turn, t: Target) {
    t == Owner(turn) || (t.SkillCell? && IsWindow(deeds, Actor(turn), t.index))
  }

  /** The open window, if there is one. */
  ghost function WindowOf(deeds: seq<Deed>, actor: string): Option<nat> {
    if exists i: nat :: IsWindow(deeds, actor, i) then
      var i: nat :| IsWindow(deeds, actor, i);
      Some(i)
    else None
  }

  /** The cells a line is charged to, its own stream's first. */
  ghost function TargetsOf(deeds: seq<Deed>, turn: Turn): seq<Target> {
    [Owner(turn)] + match WindowOf(deeds, Actor(turn)) case Some(i) => [SkillCell(i)] case None => []
  }

  lemma OneWindow(deeds: seq<Deed>, actor: string, i: nat, j: nat)
    requires IsWindow(deeds, actor, i) && IsWindow(deeds, actor, j)
    ensures i == j
  {
    hide InvokedEvents;
    var p: nat :| OpensAt(deeds, actor, p) && |InvokedEvents(deeds[..p])| == i;
    var q: nat :| OpensAt(deeds, actor, q) && |InvokedEvents(deeds[..q])| == j;
    assert p == q;
  }

  lemma TargetsAre(active: map<string, nat>, deeds: seq<Deed>, turn: Turn)
    requires WindowsAre(active, deeds)
    ensures TargetsOf(deeds, turn) ==
            [Owner(turn)] + if Actor(turn) in active then [SkillCell(active[Actor(turn)])] else []
  {
    hide IsWindow;
    if Actor(turn) in active {
      assert IsWindow(deeds, Actor(turn), active[Actor(turn)]);
    }
  }

  lemma TargetsAreCharged(deeds: seq<Deed>, turn: Turn, t: Target)
    ensures t in TargetsOf(deeds, turn) <==> IsCharged(deeds, turn, t)
  {
    hide IsWindow;
    if t.SkillCell? && IsWindow(deeds, Actor(turn), t.index) && WindowOf(deeds, Actor(turn)).Some? {
      OneWindow(deeds, Actor(turn), t.index, WindowOf(deeds, Actor(turn)).value);
    }
  }

  /** What the line makes of every cell, given the deeds up to its count. */
  ghost predicate CellsMove(a: Accounts, after: Accounts, turn: Turn, deeds: seq<Deed>) {
    && (forall t :: t in a.cells ==> t in after.cells)
    && forall t :: t in after.cells ==>
         after.cells[t] ==
           if IsCounted(turn, a.subagents.Keys)
           then TakenBack(a, turn.requestId, t).Plus(if IsCharged(deeds, turn, t) then turn.usage.value else ZERO)
           else if SignalsTotal(turn) && t == SessionCell then turn.usage.value
           else Held(a, t)
  }

  /** And of the requests: a counted line's is counted into exactly what it is charged to. */
  ghost predicate RequestsMove(a: Accounts, after: Accounts, turn: Turn, deeds: seq<Deed>) {
    if IsCounted(turn, a.subagents.Keys) then
      && after.requests.Keys == a.requests.Keys + {turn.requestId}
      && (forall id :: id in a.requests && id != turn.requestId ==> after.requests[id] == a.requests[id])
      && after.requests[turn.requestId] == RequestRow(turn.usage.value, TargetsOf(deeds, turn))
    else after.requests == a.requests
  }

  lemma OnlyNewTwice(a: Accounts, b: Accounts, c: Accounts)
    requires OnlyNewCells(a, b) && OnlyNewCells(b, c)
    ensures OnlyNewCells(a, c)
  {
  }

  lemma CloseOnlyNew(a: Accounts, actor: string, timestamp: Time)
    ensures OnlyNewCells(a, CloseSkillWindow(a, actor, timestamp))
    ensures CloseSkillWindow(a, actor, timestamp).subagents == a.subagents
  {
  }

  lemma StartOnlyNew(a: Accounts, event: Event)
    requires Consistent(a) && event.skill.Some?
    ensures OnlyNewCells(a, StartWindow(a, event)) && StartWindow(a, event).subagents == a.subagents
  {
    assert SkillCell(|a.skills|) !in a.cells by { assert !HasPlace(a, SkillCell(|a.skills|)); }
  }

  lemma {:induction false} InvocationsOnlyNew(a: Accounts, deeds: seq<Deed>, events: seq<Event>)
    requires Tells(a, deeds)
    ensures OnlyNewCells(a, WindowEvents(a, events)) && WindowEvents(a, events).subagents == a.subagents
  {
    hide Tells, CloseSkillWindow, StartWindow, OnlyNewCells;
    if events == [] {
      NothingNew(a);
    } else {
      var front, last := events[..|events| - 1], events[|events| - 1];
      InvocationsOnlyNew(a, deeds, front);
      if last.kind == SkillInvoked && last.skill.Some? {
        var before, told := WindowEvents(a, front), deeds + Invocations(front);
        InvocationsTell(a, deeds, front);
        EndTells(before, told, last.actor, last.timestamp);
        var closed := CloseSkillWindow(before, last.actor, last.timestamp);
        CloseOnlyNew(before, last.actor, last.timestamp);
        OnlyNewTwice(a, before, closed);
        TellsConsistent(closed, told + [Ended(last.actor)]);
        StartOnlyNew(closed, last);
        OnlyNewTwice(a, closed, StartWindow(closed, last));
      }
    }
  }

  lemma TellsConsistent(a: Accounts, deeds: seq<Deed>)
    requires Tells(a, deeds)
    ensures Consistent(a) && CountsOnce(a.requests)
  {
  }

  lemma NothingNew(a: Accounts)
    ensures OnlyNewCells(a, a)
  {
  }

  /** The signals of a line, up to its count. */
  lemma SignalsTell(a: Accounts, notes: Notes, turn: Turn, deeds: seq<Deed>)
    requires Tells(a, deeds) && turn.subagentId == "" && turn.customTitle == ""
    ensures var after := WindowSignals(a, notes, turn);
            Tells(after, deeds + Opening(turn, notes.currentPromptId)) && OnlyNewCells(a, after)
            && after.subagents == a.subagents
  {
    hide Tells, CloseSkillWindow, WindowEvents, OnlyNewCells;
    var bounded := Bounded(a, notes, turn);
    NothingNew(a);
    EndTells(a, deeds, "", turn.timestamp);
    CloseOnlyNew(a, "", turn.timestamp);
    var ended := if IsPrompt(turn) && !IsSamePrompt(notes, turn.promptId) then [Ended("")] else [];
    assert deeds + [] == deeds;
    InvocationsTell(bounded, deeds + ended, turn.events);
    InvocationsOnlyNew(bounded, deeds + ended, turn.events);
    OnlyNewTwice(a, bounded, WindowEvents(bounded, turn.events));
    assert deeds + Opening(turn, notes.currentPromptId) == deeds + ended + Invocations(turn.events);
  }

  /** A counted line, once its deeds before the count are told. */
  lemma ChargeTells(a: Accounts, b: Accounts, turn: Turn, deeds: seq<Deed>)
    requires Tells(b, deeds) && OnlyNewCells(a, b) && turn.usage.Some? && turn.requestId != ""
    requires CountsOnce(a.requests) && Consistent(a) && Owner(turn) in b.cells
    ensures var after := Charge(b, Owner(turn), Actor(turn), turn);
            && Tells(after, deeds) && (forall t :: t in a.cells ==> t in after.cells)
            && (forall t :: t in after.cells ==>
                  after.cells[t] == TakenBack(a, turn.requestId, t).Plus(
                    if IsCharged(deeds, turn, t) then turn.usage.value else ZERO))
            && after.requests.Keys == a.requests.Keys + {turn.requestId}
            && (forall id :: id in a.requests && id != turn.requestId ==> after.requests[id] == a.requests[id])
            && after.requests[turn.requestId] == RequestRow(turn.usage.value, TargetsOf(deeds, turn))
  {
    hide Charge, Tokens.Plus, Tokens.Minus, IsWindow, InvokedEvents, Consistent, CountsOnce, TargetsOf;
    ChargeMoves(b, Owner(turn), Actor(turn), turn);
    var after := Charge(b, Owner(turn), Actor(turn), turn);
    forall t | t in b.cells ensures TakenBack(b, turn.requestId, t) == TakenBack(a, turn.requestId, t) {
    }
    RowsTell(b.skills, after.skills, InvokedEvents(deeds));
    TargetsAre(b.active, deeds, turn);
  }

  lemma RowsTell(skills: seq<SkillRow>, later: seq<SkillRow>, invoked: seq<Event>)
    requires SkillsAre(skills, invoked) && |later| == |skills|
    requires forall i :: 0 <= i < |skills| ==>
               && later[i].agentId == skills[i].agentId && later[i].skill == skills[i].skill
               && later[i].args == skills[i].args && later[i].startedAt == skills[i].startedAt
    ensures SkillsAre(later, invoked)
  {
  }

  ghost predicate LineMoves(a: Accounts, after: Accounts, turn: Turn, lastPrompt: string, deeds: seq<Deed>) {
    var upTo := deeds + Opening(turn, lastPrompt);
    && Tells(after, upTo + Closing(turn)) && CellsMove(a, after, turn, upTo) && RequestsMove(a, after, turn, upTo)
  }

  lemma UncountedMoves(a: Accounts, after: Accounts, turn: Turn, deeds: seq<Deed>)
    requires OnlyNewCells(a, after) && !IsCounted(turn, a.subagents.Keys) && !SignalsTotal(turn)
    ensures CellsMove(a, after, turn, deeds) && RequestsMove(a, after, turn, deeds)
  {
  }

  lemma SignalMoves(a: Accounts, b: Accounts, turn: Turn, deeds: seq<Deed>)
    requires Tells(b, deeds) && OnlyNewCells(a, b) && SignalsTotal(turn)
    ensures var after := b.(cells := b.cells[SessionCell := turn.usage.value]);
            Tells(after, deeds) && CellsMove(a, after, turn, deeds) && RequestsMove(a, after, turn, deeds)
  {
    hide IsWindow, InvokedEvents;
    assert HasPlace(b, SessionCell);
  }

  /** A chat line: the count, then the end of the turn. */
  lemma ChatMoves(a: Accounts, b: Accounts, turn: Turn, deeds: seq<Deed>)
    requires Tells(b, deeds) && OnlyNewCells(a, b) && Consistent(a) && CountsOnce(a.requests) && IsChatLine(turn)
    ensures var after := ChargeTurn(b, turn);
            && Tells(after, deeds + Closing(turn)) && CellsMove(a, after, turn, deeds)
            && RequestsMove(a, after, turn, deeds)
  {
    hide Charge, CloseSkillWindow, Tells, IsCharged, TakenBack;
    TellsConsistent(b, deeds);
    assert SessionCell in b.cells by { assert HasPlace(b, SessionCell); }
    var charged := Charge(b, SessionCell, "", turn);
    if turn.usage.Some? && turn.requestId != "" {
      ChargeTells(a, b, turn, deeds);
    } else {
      ChargesNothing(b, SessionCell, "", turn);
    }
    EndTells(charged, deeds, "", turn.timestamp);
    TellsConsistent(charged, deeds);
    CloseEndsIt(charged, "", turn.timestamp);
    assert deeds + [] == deeds;
  }

  lemma ChargesNothing(a: Accounts, owner: Target, actor: string, turn: Turn)
    requires turn.usage == None || turn.requestId == ""
    ensures Charge(a, owner, actor, turn) == a
  {
  }

  lemma MainMoves(a: Accounts, notes: Notes, turn: Turn, deeds: seq<Deed>)
    requires Tells(a, deeds) && turn.subagentId == ""
    ensures LineMoves(a, ChargeMain(a, notes, turn), turn, notes.currentPromptId, deeds)
  {
    hide Tells, WindowSignals, ChargeTurn, OnlyNewCells, Opening, Deeds, CellsMove, RequestsMove;
    var upTo := deeds + Opening(turn, notes.currentPromptId);
    TellsConsistent(a, deeds);
    assert upTo + [] == upTo;
    if turn.customTitle != "" {
      TitleOpensNothing(turn, notes.currentPromptId);
      assert deeds + [] == deeds;
      NothingNew(a);
      UncountedMoves(a, a, turn, upTo);
    } else {
      var signalled := WindowSignals(a, notes, turn);
      SignalsTell(a, notes, turn, deeds);
      if IsChatLine(turn) {
        ChatMoves(a, signalled, turn, upTo);
      } else if SignalsTotal(turn) {
        SignalMoves(a, signalled, turn, upTo);
      } else {
        UncountedMoves(a, signalled, turn, upTo);
      }
    }
  }

  lemma TitleOpensNothing(turn: Turn, lastPrompt: string)
    requires turn.subagentId == "" && turn.customTitle != ""
    ensures Opening(turn, lastPrompt) == []
  {
  }

  /** A sub-agent is admitted while there is room. */
  lemma AdmittedTells(a: Accounts, depth: Capacity, id: string, deeds: seq<Deed>)
    requires Tells(a, deeds)
    ensures var admitted := Admitted(a, depth, id);
            && Tells(admitted, deeds) && OnlyNewCells(a, admitted)
            && (id in admitted.subagents <==> id in a.subagents || |a.subagents.Keys| < 300)
            && (id in admitted.subagents ==> SubagentCell(id) in admitted.cells)
  {
    hide WindowsAre, SkillsAre, CountsOnce, InvokedEvents, NewSubagent, Consistent, OnlyNewCells;
    assert |a.subagents| == |a.subagents.Keys|;
    AdmittedConsistent(a, depth, id);
  }

  lemma AdmittedConsistent(a: Accounts, depth: Capacity, id: string)
    requires Consistent(a)
    ensures var admitted := Admitted(a, depth, id);
            && Consistent(admitted) && OnlyNewCells(a, admitted)
            && (id in admitted.subagents ==> SubagentCell(id) in admitted.cells)
  {
    hide NewSubagent, WithSubagent, Consistent, OnlyNewCells;
    ConsistentPlaces(a, SubagentCell(id));
    NothingNew(a);
    WithRow(a, id, NewSubagent(depth));
  }

  lemma ConsistentPlaces(a: Accounts, t: Target)
    requires Consistent(a)
    ensures t in a.cells <==> HasPlace(a, t)
  {
  }

  lemma WithRow(a: Accounts, id: string, row: SubagentRow)
    requires Consistent(a)
    ensures var after := WithSubagent(a, id, row, ZERO);
            && (id !in a.subagents ==> Consistent(after) && OnlyNewCells(a, after))
            && id in after.subagents && SubagentCell(id) in after.cells
  {
    var after := WithSubagent(a, id, row, ZERO);
    if id !in a.subagents {
      ConsistentPlaces(a, SubagentCell(id));
      forall t ensures t in after.cells <==> HasPlace(after, t) { ConsistentPlaces(a, t); }
    }
  }

  /** Its row then sees the turn. */
  lemma SeenTells(a: Accounts, turn: Turn, deeds: seq<Deed>)
    requires Tells(a, deeds) && turn.subagentId in a.subagents
    ensures Tells(Seen(a, turn.subagentId, turn), deeds) && OnlyNewCells(a, Seen(a, turn.subagentId, turn))
    ensures Seen(a, turn.subagentId, turn).cells == a.cells
  {
    hide IsWindow, InvokedEvents, SubagentSeen;
  }

  lemma SubagentMoves(a: Accounts, depth: Capacity, turn: Turn, lastPrompt: string, deeds: seq<Deed>)
    requires Tells(a, deeds) && turn.subagentId != ""
    ensures LineMoves(a, AddSubagentTurn(WindowEvents(a, turn.events), depth, turn), turn, lastPrompt, deeds)
  {
    hide Tells, WindowEvents, OnlyNewCells, CellsMove, RequestsMove, Charge, Admitted, Seen;
    var told, upTo := WindowEvents(a, turn.events), deeds + Invocations(turn.events);
    TellsConsistent(a, deeds);
    InvocationsTell(a, deeds, turn.events);
    InvocationsOnlyNew(a, deeds, turn.events);
    assert Opening(turn, lastPrompt) == Invocations(turn.events) && upTo + [] == upTo;
    var admitted := Admitted(told, depth, turn.subagentId);
    AdmittedTells(told, depth, turn.subagentId, upTo);
    OnlyNewTwice(a, told, admitted);
    if turn.subagentId !in admitted.subagents {
      UncountedMoves(a, admitted, turn, upTo);
    } else {
      var seen := Seen(admitted, turn.subagentId, turn);
      SeenTells(admitted, turn, upTo);
      OnlyNewTwice(a, admitted, seen);
      if turn.usage.Some? && turn.requestId != "" {
        ChargeTells(a, seen, turn, upTo);
        CountedMoves(a, Charge(seen, Owner(turn), Actor(turn), turn), turn, upTo);
      } else {
        ChargesNothing(seen, Owner(turn), Actor(turn), turn);
        UncountedMoves(a, seen, turn, upTo);
      }
    }
  }

  lemma CountedMoves(a: Accounts, after: Accounts, turn: Turn, deeds: seq<Deed>)
    requires IsCounted(turn, a.subagents.Keys)
    requires forall t :: t in a.cells ==> t in after.cells
    requires forall t :: t in after.cells ==>
               after.cells[t] == TakenBack(a, turn.requestId, t).Plus(
                 if IsCharged(deeds, turn, t) then turn.usage.value else ZERO)
    requires after.requests.Keys == a.requests.Keys + {turn.requestId}
    requires forall id :: id in a.requests && id != turn.requestId ==> after.requests[id] == a.requests[id]
    requires after.requests[turn.requestId] == RequestRow(turn.usage.value, TargetsOf(deeds, turn))
    ensures CellsMove(a, after, turn, deeds) && RequestsMove(a, after, turn, deeds)
  {
  }

  // ---- Every run ----

  lemma {:induction false} EventsKeepPrompt(notes: Notes, events: seq<Event>)
    ensures NoteEvents(notes, events).currentPromptId == notes.currentPromptId
  {
    if events != [] { EventsKeepPrompt(notes, events[..|events| - 1]); }
  }

  lemma PlanKeepsPrompt(notes: Notes, disk: Option<PlanDisk>, turn: Turn, now: Time)
    ensures NotePlanTurn(NoteSignals(notes, turn), disk, turn, now).0.currentPromptId ==
            if IsPrompt(turn) then turn.promptId else notes.currentPromptId
  {
    hide SetPlanContent, NoteEvents, AddFileTouches, ApplyResults, TrimSpace;
    EventsKeepPrompt(Prompted(notes, turn), turn.events);
  }

  lemma ChatKeepsPrompt(notes: Notes, turn: Turn)
    ensures NoteChat(notes, turn).currentPromptId == notes.currentPromptId
  {
  }

  lemma IngestPrompts(desk: Desk, arrival: Arrival)
    ensures Ingest(desk, arrival).ledger.notes.currentPromptId ==
            if IsPromptLine(arrival.turn) then arrival.turn.promptId else desk.ledger.notes.currentPromptId
  {
    hide ChargeMain, AddSubagentTurn, WindowEvents, NoteEvents, AddFileTouches, NoteChat, NotePlanTurn, NoteSignals,
         TrimSpace;
    var notes, turn := desk.ledger.notes, arrival.turn;
    EventsKeepPrompt(notes, turn.events);
    PlanKeepsPrompt(notes, desk.disk, turn, arrival.now);
    ChatKeepsPrompt(NotePlanTurn(NoteSignals(notes, turn), desk.disk, turn, arrival.now).0, turn);
  }

  lemma IngestMoves(desk: Desk, arrival: Arrival, deeds: seq<Deed>)
    requires Tells(desk.ledger.accounts, deeds)
    ensures LineMoves(desk.ledger.accounts, Ingest(desk, arrival).ledger.accounts, arrival.turn,
                      desk.ledger.notes.currentPromptId, deeds)
  {
    hide ChargeMain, AddSubagentTurn, WindowEvents, NoteEvents, AddFileTouches, NoteMain, LineMoves, Tells;
    var ledger, turn := desk.ledger, arrival.turn;
    if turn.subagentId != "" {
      var depth := NoteEvents(ledger.notes, turn.events).scope.ring.capacity;
      SubagentMoves(ledger.accounts, depth, turn, ledger.notes.currentPromptId, deeds);
    } else {
      MainMoves(ledger.accounts, ledger.notes, turn, deeds);
    }
  }

  lemma NothingTold()
    ensures Tells(EMPTY_ACCOUNTS, [])
  {
  }

  /** In every run the ledger's windows, skills and last prompt are those of the lines. */
  lemma {:induction false} WindowsAreTheLines(desk: Desk, arrivals: seq<Arrival>)
    requires desk.ledger.accounts == EMPTY_ACCOUNTS && desk.ledger.notes.currentPromptId == ""
    ensures var ledger := IngestAll(desk, arrivals).ledger;
            Tells(ledger.accounts, Deeds(arrivals)) && ledger.notes.currentPromptId == LastPrompt(arrivals)
  {
    hide Tells, Ingest, IsPromptLine, Opening, Closing;
    if arrivals == [] {
      NothingTold();
    } else {
      var front, last := arrivals[..|arrivals| - 1], arrivals[|arrivals| - 1];
      WindowsAreTheLines(desk, front);
      IngestMoves(IngestAll(desk, front), last, Deeds(front));
      IngestPrompts(IngestAll(desk, front), last);
    }
  }

  /** In every run a counted line takes back what its request counted before, and adds its usage to its own stream's cell
      and to the skill its actor invoked last, if nothing ended that window since; no other cell changes. A signalled
      total replaces the session's. */
  lemma LinesAreCharged(desk: Desk, arrivals: seq<Arrival>, arrival: Arrival)
    requires desk.ledger.accounts == EMPTY_ACCOUNTS && desk.ledger.notes.currentPromptId == ""
    ensures var a := IngestAll(desk, arrivals).ledger.accounts;
            var after := IngestAll(desk, arrivals + [arrival]).ledger.accounts;
            var deeds := Deeds(arrivals) + Opening(arrival.turn, LastPrompt(arrivals));
            CellsMove(a, after, arrival.turn, deeds) && RequestsMove(a, after, arrival.turn, deeds)
  {
    hide Ingest, Tells, CellsMove, RequestsMove, Opening, Closing;
    assert (arrivals + [arrival])[..|arrivals|] == arrivals;
    WindowsAreTheLines(desk, arrivals);
    IngestMoves(IngestAll(desk, arrivals), arrival, Deeds(arrivals));
  }

  /** The sub-agents there was room for: the first 300 heard of. */
  function Subagents(arrivals: seq<Arrival>): set<string> {
    if arrivals == [] then {}
    else
      var before, turn := Subagents(arrivals[..|arrivals| - 1]), arrivals[|arrivals| - 1].turn;
      if turn.subagentId != "" && |before| < 300 then before + {turn.subagentId} else before
  }

  lemma ChargeKeepsSubagents(a: Accounts, owner: Target, actor: string, turn: Turn)
    ensures Charge(a, owner, actor, turn).subagents == a.subagents
  {
  }

  lemma {:induction false} EventsKeepSubagents(a: Accounts, events: seq<Event>)
    ensures WindowEvents(a, events).subagents == a.subagents
  {
    if events != [] { EventsKeepSubagents(a, events[..|events| - 1]); }
  }

  lemma MainAdmitsNone(a: Accounts, notes: Notes, turn: Turn)
    ensures ChargeMain(a, notes, turn).subagents == a.subagents
  {
    hide Charge, WindowEvents;
    EventsKeepSubagents(Bounded(a, notes, turn), turn.events);
    ChargeKeepsSubagents(WindowSignals(a, notes, turn), SessionCell, "", turn);
  }

  lemma AdmittedAre(a: Accounts, depth: Capacity, id: string)
    ensures Admitted(a, depth, id).subagents.Keys ==
            if id in a.subagents || |a.subagents| >= 300 then a.subagents.Keys else a.subagents.Keys + {id}
  {
    hide NewSubagent;
  }

  lemma SeenAre(a: Accounts, id: string, turn: Turn)
    requires id in a.subagents
    ensures Seen(a, id, turn).subagents.Keys == a.subagents.Keys
  {
    hide SubagentSeen;
  }

  lemma SubagentIsAdmitted(a: Accounts, depth: Capacity, turn: Turn)
    ensures AddSubagentTurn(a, depth, turn).subagents.Keys ==
            if |a.subagents| < 300 then a.subagents.Keys + {turn.subagentId} else a.subagents.Keys
  {
    hide Charge, Admitted, Seen;
    var id, known := turn.subagentId, Admitted(a, depth, turn.subagentId);
    AdmittedAre(a, depth, id);
    if id in known.subagents {
      SeenAre(known, id, turn);
      ChargeKeepsSubagents(Seen(known, id, turn), SubagentCell(id), id, turn);
    }
  }

  lemma IngestAdmits(desk: Desk, arrival: Arrival)
    ensures var (before, turn) := (desk.ledger.accounts.subagents.Keys, arrival.turn);
            Ingest(desk, arrival).ledger.accounts.subagents.Keys ==
            if turn.subagentId != "" && |before| < 300 then before + {turn.subagentId} else before
  {
    hide ChargeMain, AddSubagentTurn, WindowEvents, NoteEvents, AddFileTouches, NoteMain;
    var a, turn := desk.ledger.accounts, arrival.turn;
    if turn.subagentId != "" {
      EventsKeepSubagents(a, turn.events);
      assert |a.subagents| == |a.subagents.Keys|;
      SubagentIsAdmitted(WindowEvents(a, turn.events), NoteEvents(desk.ledger.notes, turn.events).scope.ring.capacity, turn);
    } else {
      MainAdmitsNone(a, desk.ledger.notes, turn);
    }
  }

  /** In every run the sub-agents known are the first 300 heard of. */
  lemma {:induction false} SubagentsAreTheFirst(desk: Desk, arrivals: seq<Arrival>)
    requires desk.ledger.accounts == EMPTY_ACCOUNTS
    ensures IngestAll(desk, arrivals).ledger.accounts.subagents.Keys == Subagents(arrivals)
  {
    hide Ingest;
    if arrivals != [] {
      SubagentsAreTheFirst(desk, arrivals[..|arrivals| - 1]);
      IngestAdmits(IngestAll(desk, arrivals[..|arrivals| - 1]), arrivals[|arrivals| - 1]);
    }
  }
}
