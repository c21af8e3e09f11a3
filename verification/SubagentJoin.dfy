/** Spawn and result events of a sub-agent find each other whichever arrives first (session/store.go). */
module SubagentJoin {
  import opened Types
  import opened EventBuffers

  predicate IsSpawn(event: Event) { event.kind == SubagentSpawned && event.subagent.Some? }

  predicate IsResult(event: Event) { event.kind == SubagentResult && event.subagent.Some? }

  /** A result that does not know its agent yet. */
  predicate Waits(event: Event) { IsResult(event) && event.subagent.value.agentId == "" }

  function ToolUseId(event: Event): string
    requires event.subagent.Some?
  {
    event.subagent.value.toolUseId
  }

  function WithAgent(event: Event, agentId: string): Event
    requires event.subagent.Some?
  {
    event.(actor := agentId, subagent := Some(event.subagent.value.(agentId := agentId)))
  }

  /** The agent id of the first spawn with this tool-use id. */
  function SpawnOf(events: seq<Event>, toolUseId: string): Option<string> {
    if events == [] then None
    else if IsSpawn(events[0]) && ToolUseId(events[0]) == toolUseId then Some(events[0].subagent.value.agentId)
    else SpawnOf(events[1..], toolUseId)
  }

  /** What resolveSubagentActor makes of an arriving event. */
  function Resolved(event: Event, seen: seq<Event>): Event {
    if !IsResult(event) then event
    else if event.subagent.value.agentId != "" then
      if event.actor == "" then event.(actor := event.subagent.value.agentId) else event
    else
      match SpawnOf(seen, ToolUseId(event))
      case Some(agentId) => WithAgent(event, agentId)
      case None => event
  }

  /** What an arriving event makes of one already in the buffer. */
  function Answered(event: Event, seen: Event): Event {
    if IsSpawn(event) && event.subagent.value.agentId != "" && Waits(seen) && ToolUseId(seen) == ToolUseId(event)
    then WithAgent(seen, event.subagent.value.agentId)
    else seen
  }

  function AnsweredAll(event: Event, seen: seq<Event>): (r: seq<Event>)
    ensures |r| == |seen|
    ensures forall i :: 0 <= i < |seen| ==> r[i] == Answered(event, seen[i])
  {
    if seen == [] then [] else [Answered(event, seen[0])] + AnsweredAll(event, seen[1..])
  }

  /** resolveSubagentActor followed by the push. */
  function Arrive(log: EventLog, event: Event): EventLog {
    log.(items := AnsweredAll(event, log.items)).Push(Resolved(event, log.items))
  }

  function ArriveAll(log: EventLog, events: seq<Event>): EventLog {
    if events == [] then log else Arrive(ArriveAll(log, events[..|events| - 1]), events[|events| - 1])
  }

  lemma {:induction false} AnsweredKeepsKinds(event: Event, seen: seq<Event>)
    ensures CountDenials(AnsweredAll(event, seen)) == CountDenials(seen)
  {
    if seen != [] {
      var n := |seen| - 1;
      AnsweredKeepsKinds(event, seen[..n]);
      assert AnsweredAll(event, seen)[..n] == AnsweredAll(event, seen[..n]);
    }
  }

  /** Resolving events never changes what the buffer admits. */
  lemma ArriveKeepsValid(log: EventLog, event: Event)
    requires log.Valid()
    ensures Arrive(log, event).Valid()
  {
    AnsweredKeepsKinds(event, log.items);
    PushKeepsValid(log.(items := AnsweredAll(event, log.items)), Resolved(event, log.items));
  }

  // ---- The declarative reading ----

  /** Spawns have agent ids and tool-use ids of their own. */
  ghost predicate DistinctSpawns(events: seq<Event>) {
    && (forall i :: 0 <= i < |events| && IsSpawn(events[i]) ==>
          events[i].subagent.value.agentId != "" && ToolUseId(events[i]) != "")
    && (forall i, j :: 0 <= i < j < |events| && IsSpawn(events[i]) && IsSpawn(events[j]) ==>
          ToolUseId(events[i]) != ToolUseId(events[j]))
  }

  /** Every event of the history as it should finally read: a waiting result carries the agent of the
      history's spawn with its tool-use id, wherever in the history that spawn is. */
  function Joined(history: seq<Event>): (r: seq<Event>)
    ensures |r| == |history|
    ensures forall i :: 0 <= i < |history| ==> r[i] == Resolved(history[i], history)
  {
    seq(|history|, i requires 0 <= i < |history| => Resolved(history[i], history))
  }

  lemma {:induction false} SpawnOfSnoc(events: seq<Event>, event: Event, toolUseId: string)
    ensures SpawnOf(events + [event], toolUseId) ==
            if SpawnOf(events, toolUseId).Some? then SpawnOf(events, toolUseId)
            else if IsSpawn(event) && ToolUseId(event) == toolUseId then Some(event.subagent.value.agentId)
            else None
  {
    if events == [] {
      assert [event][1..] == [];
    } else {
      assert (events + [event])[1..] == events[1..] + [event];
      SpawnOfSnoc(events[1..], event, toolUseId);
    }
  }

  lemma {:induction false} SpawnOfFound(events: seq<Event>, toolUseId: string) returns (at: nat)
    requires SpawnOf(events, toolUseId).Some?
    ensures at < |events| && IsSpawn(events[at]) && ToolUseId(events[at]) == toolUseId
    ensures SpawnOf(events, toolUseId) == Some(events[at].subagent.value.agentId)
  {
    if IsSpawn(events[0]) && ToolUseId(events[0]) == toolUseId {
      at := 0;
    } else {
      at := SpawnOfFound(events[1..], toolUseId);
      at := at + 1;
    }
  }

  /** Joining leaves the spawns alone. */
  lemma {:induction false} SpawnOfResolved(events: seq<Event>, history: seq<Event>, resolved: seq<Event>,
                                           toolUseId: string)
    requires |resolved| == |events|
    requires forall i :: 0 <= i < |events| ==> resolved[i] == Resolved(events[i], history)
    ensures SpawnOf(resolved, toolUseId) == SpawnOf(events, toolUseId)
  {
    if events != [] {
      SpawnOfResolved(events[1..], history, resolved[1..], toolUseId);
    }
  }

  /** One more event turns the joined history into the joined longer history. */
  lemma AnswerStep(history: seq<Event>, event: Event, all: seq<Event>, i: nat)
    requires all == history + [event] && DistinctSpawns(all) && i < |history|
    ensures Answered(event, Resolved(history[i], history)) == Resolved(all[i], all)
  {
    var seen := history[i];
    assert all[i] == seen && all[|history|] == event;
    if Waits(seen) {
      SpawnOfSnoc(history, event, ToolUseId(seen));
      if SpawnOf(history, ToolUseId(seen)).Some? {
        var at := SpawnOfFound(history, ToolUseId(seen));
        assert all[at] == history[at];
      }
    }
  }

  lemma ResolveStep(history: seq<Event>, event: Event, all: seq<Event>)
    requires all == history + [event]
    ensures Resolved(event, Joined(history)) == Resolved(event, all)
  {
    if Waits(event) {
      SpawnOfSnoc(history, event, ToolUseId(event));
      SpawnOfResolved(history, history, Joined(history), ToolUseId(event));
    }
  }

  /** Within the event budget, every history of events, in whatever order spawns and results interleave,
      ends as the joined history. */
  lemma {:induction false} JoinMeaning(capacity: nat, denialBudget: nat, history: seq<Event>)
    requires denialBudget <= capacity && DistinctSpawns(history)
    requires CountDenials(history) <= denialBudget && |history| - CountDenials(history) <= capacity - denialBudget
    ensures ArriveAll(NewLog(capacity, denialBudget), history) ==
            EventLog(capacity, denialBudget, CountDenials(history), Joined(history))
  {
    hide CountDenials, DistinctSpawns, Resolved, Joined, Arrive;
    if history == [] {
      NothingJoined(capacity, denialBudget);
    } else {
      var before, event := history[..|history| - 1], history[|history| - 1];
      assert history == before + [event];
      FrontFits(before, event);
      JoinMeaning(capacity, denialBudget, before);
      ArriveStep(capacity, denialBudget, before, event, history);
    }
  }

  lemma NothingJoined(capacity: nat, denialBudget: nat)
    ensures NewLog(capacity, denialBudget) == EventLog(capacity, denialBudget, CountDenials([]), Joined([]))
  {
  }

  /** What comes before the last event is within the same budgets. */
  lemma FrontFits(before: seq<Event>, event: Event)
    ensures DistinctSpawns(before + [event]) ==> DistinctSpawns(before)
    ensures CountDenials(before) <= CountDenials(before + [event])
    ensures |before| - CountDenials(before) <= |before + [event]| - CountDenials(before + [event])
  {
    CountSnoc(before, event);
    if DistinctSpawns(before + [event]) {
      assert forall i :: 0 <= i < |before| ==> (before + [event])[i] == before[i];
    }
  }

  /** An event that there is room for is kept, resolved. */
  lemma ArriveStep(capacity: nat, denialBudget: nat, before: seq<Event>, event: Event, all: seq<Event>)
    requires denialBudget <= capacity && all == before + [event] && DistinctSpawns(all)
    requires CountDenials(all) <= denialBudget && |all| - CountDenials(all) <= capacity - denialBudget
    ensures Arrive(EventLog(capacity, denialBudget, CountDenials(before), Joined(before)), event) ==
            EventLog(capacity, denialBudget, CountDenials(all), Joined(all))
  {
    hide CountDenials, DistinctSpawns, Joined, AnsweredAll, Resolved;
    CountSnoc(before, event);
    JoinStep(before, event, all);
    ResolvedKind(event, Joined(before));
  }

  lemma ResolvedKind(event: Event, seen: seq<Event>)
    ensures Resolved(event, seen).kind == event.kind
  {
  }

  lemma JoinStep(before: seq<Event>, event: Event, all: seq<Event>)
    requires all == before + [event] && DistinctSpawns(all)
    ensures AnsweredAll(event, Joined(before)) + [Resolved(event, Joined(before))] == Joined(all)
  {
    hide DistinctSpawns, Resolved, Answered;
    forall i | 0 <= i < |before| ensures AnsweredAll(event, Joined(before))[i] == Joined(all)[i] {
      AnswerStep(before, event, all, i);
    }
    ResolveStep(before, event, all);
  }

  // ---- What the fields end as ----

  /** An arriving result that does not name its agent takes it from the first spawn in the buffer with its tool-use
      id; an arriving spawn gives its own to every such result in the buffer with its tool-use id. */
  lemma ArrivalsNameEachOther(event: Event, seen: seq<Event>, k: nat)
    requires k < |seen| && event.subagent.Some? && seen[k].subagent.Some?
    requires event.subagent.value.toolUseId == seen[k].subagent.value.toolUseId
    ensures event.kind == SubagentResult && event.subagent.value.agentId == "" && seen[k].kind == SubagentSpawned
            && (forall i :: 0 <= i < k && seen[i].kind == SubagentSpawned && seen[i].subagent.Some? ==>
                  seen[i].subagent.value.toolUseId != event.subagent.value.toolUseId) ==>
              var resolved := Resolved(event, seen);
              resolved.subagent.Some? &&
              resolved.subagent.value.agentId == resolved.actor == seen[k].subagent.value.agentId
    ensures event.kind == SubagentSpawned && event.subagent.value.agentId != "" && seen[k].kind == SubagentResult
            && seen[k].subagent.value.agentId == "" ==>
              var answered := AnsweredAll(event, seen)[k];
              answered.subagent.Some? &&
              answered.subagent.value.agentId == answered.actor == event.subagent.value.agentId
  {
    if IsSpawn(seen[k]) && forall i :: 0 <= i < k && IsSpawn(seen[i]) ==> ToolUseId(seen[i]) != ToolUseId(event) {
      FirstSpawn(seen, k);
    }
  }

  lemma {:induction false} FirstSpawn(seen: seq<Event>, k: nat)
    requires k < |seen| && IsSpawn(seen[k])
    requires forall i :: 0 <= i < k && IsSpawn(seen[i]) ==> ToolUseId(seen[i]) != ToolUseId(seen[k])
    ensures SpawnOf(seen, ToolUseId(seen[k])) == Some(seen[k].subagent.value.agentId)
  {
    if k > 0 { FirstSpawn(seen[1..], k - 1); }
  }

  /** Nothing but who acted, and whose result it is, may differ. */
  predicate SameButAgent(event: Event, after: Event) {
    && after.kind == event.kind && after.timestamp == event.timestamp && after.model == event.model
    && after.permission == event.permission && after.plan == event.plan && after.skill == event.skill
    && after.subagent.Some? == event.subagent.Some?
    && (event.subagent.Some? ==>
          var (was, now) := (event.subagent.value, after.subagent.value);
          && now.agentType == was.agentType && now.content == was.content && now.description == was.description
          && now.toolUseId == was.toolUseId)
  }

  /** Within the event budget every result that did not name its agent ends with the agent id and the actor of the
      spawn with its tool-use id, wherever that spawn is in the history; one that named its agent has it for an actor
      if it had none; and nothing else of any event changes. */
  lemma ResultsNameTheirSpawns(capacity: nat, denialBudget: nat, history: seq<Event>, i: nat)
    requires denialBudget <= capacity && DistinctSpawns(history) && i < |history|
    requires CountDenials(history) <= denialBudget && |history| - CountDenials(history) <= capacity - denialBudget
    ensures var items := ArriveAll(NewLog(capacity, denialBudget), history).items;
            && |items| == |history| && SameButAgent(history[i], items[i])
            && (forall j :: 0 <= j < |history| && history[j].kind == SubagentSpawned && history[j].subagent.Some?
                            && history[i].kind == SubagentResult && history[i].subagent.Some?
                            && history[i].subagent.value.agentId == ""
                            && history[i].subagent.value.toolUseId == history[j].subagent.value.toolUseId ==>
                  items[i].subagent.value.agentId == items[i].actor == history[j].subagent.value.agentId)
            && (history[i].kind == SubagentResult && history[i].subagent.Some?
                && history[i].subagent.value.agentId != "" ==>
                  && items[i].subagent == history[i].subagent
                  && items[i].actor == if history[i].actor == "" then history[i].subagent.value.agentId
                                       else history[i].actor)
            && (history[i].kind != SubagentResult || history[i].subagent == None ==> items[i] == history[i])
  {
    hide CountDenials, ArriveAll, DistinctSpawns;
    JoinMeaning(capacity, denialBudget, history);
    forall j | 0 <= j < |history| && IsSpawn(history[j]) && Waits(history[i])
               && ToolUseId(history[i]) == ToolUseId(history[j])
      ensures SpawnOf(history, ToolUseId(history[i])) == Some(history[j].subagent.value.agentId)
    {
      SpawnOfPresent(history, j);
    }
  }

  /** A waiting result without a spawn in the history stays as it came. */
  lemma LoneResultsWait(capacity: nat, denialBudget: nat, history: seq<Event>, i: nat)
    requires denialBudget <= capacity && DistinctSpawns(history) && i < |history| && Waits(history[i])
    requires CountDenials(history) <= denialBudget && |history| - CountDenials(history) <= capacity - denialBudget
    requires forall j :: 0 <= j < |history| && IsSpawn(history[j]) ==> ToolUseId(history[j]) != ToolUseId(history[i])
    ensures var items := ArriveAll(NewLog(capacity, denialBudget), history).items;
            |items| == |history| && items[i] == history[i]
  {
    hide CountDenials, ArriveAll, DistinctSpawns;
    JoinMeaning(capacity, denialBudget, history);
    if SpawnOf(history, ToolUseId(history[i])).Some? {
      var at := SpawnOfFound(history, ToolUseId(history[i]));
      assert false;
    }
  }

  /** So the outcome of each event does not depend on the order of arrival. */
  lemma OrderDoesNotMatter(history: seq<Event>, other: seq<Event>, event: Event)
    requires DistinctSpawns(history) && DistinctSpawns(other)
    requires multiset(history) == multiset(other)
    ensures Resolved(event, history) == Resolved(event, other)
  {
    if Waits(event) {
      SameSpawn(history, other, ToolUseId(event));
      SameSpawn(other, history, ToolUseId(event));
    }
  }

  lemma SameSpawn(history: seq<Event>, other: seq<Event>, toolUseId: string)
    requires DistinctSpawns(history) && DistinctSpawns(other)
    requires multiset(history) == multiset(other)
    ensures SpawnOf(history, toolUseId).Some? ==> SpawnOf(other, toolUseId) == SpawnOf(history, toolUseId)
  {
    if SpawnOf(history, toolUseId).Some? {
      var at := SpawnOfFound(history, toolUseId);
      assert history[at] in multiset(other);
      var there :| 0 <= there < |other| && other[there] == history[at];
      SpawnOfPresent(other, there);
    }
  }

  lemma {:induction false} SpawnOfPresent(events: seq<Event>, at: nat)
    requires at < |events| && IsSpawn(events[at]) && DistinctSpawns(events)
    ensures SpawnOf(events, ToolUseId(events[at])) == Some(events[at].subagent.value.agentId)
  {
    if at > 0 {
      SpawnOfPresent(events[1..], at - 1);
    }
  }

  /** resolveSubagentActor over the buffer object; the resolved event is what gets pushed next. */
  method ResolveSubagentActor(event: Event, buffer: EventBuffer) returns (resolved: Event)
    modifies buffer
    ensures resolved == Resolved(event, old(buffer.items))
    ensures buffer.Log() == old(buffer.Log()).(items := AnsweredAll(event, old(buffer.items)))
  {
    resolved := event;
    if event.subagent == None {
      Untouched(event, buffer.items);
      return;
    }
    if event.kind == SubagentResult {
      Untouched(event, buffer.items);
      if event.subagent.value.agentId != "" {
        if event.actor == "" {
          resolved := event.(actor := event.subagent.value.agentId);
        }
        return;
      }
      for i := 0 to |buffer.items|
        invariant SpawnOf(buffer.items, ToolUseId(event)) == SpawnOf(buffer.items[i..], ToolUseId(event))
      {
        var seen := buffer.items[i];
        if seen.kind == SubagentSpawned && seen.subagent.Some? && ToolUseId(seen) == ToolUseId(event) {
          return WithAgent(event, seen.subagent.value.agentId);
        }
      }
    } else if event.kind == SubagentSpawned {
      if event.subagent.value.agentId == "" {
        Untouched(event, buffer.items);
        return;
      }
      ghost var was := buffer.items;
      for i := 0 to |buffer.items|
        invariant |buffer.items| == |was|
        invariant buffer.Log() == old(buffer.Log()).(items := buffer.items)
        invariant forall j :: 0 <= j < i ==> buffer.items[j] == Answered(event, was[j])
        invariant forall j :: i <= j < |was| ==> buffer.items[j] == was[j]
      {
        var seen := buffer.items[i];
        if Waits(seen) && ToolUseId(seen) == ToolUseId(event) {
          buffer.SetItem(i, WithAgent(seen, event.subagent.value.agentId));
        }
      }
      assert buffer.items == AnsweredAll(event, was);
    } else {
      Untouched(event, buffer.items);
    }
  }

  lemma Untouched(event: Event, seen: seq<Event>)
    requires !IsSpawn(event) || event.subagent.value.agentId == ""
    ensures AnsweredAll(event, seen) == seen
  {
  }
}
