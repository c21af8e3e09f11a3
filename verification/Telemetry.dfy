/** The telemetry store (telemetry/store.go): a bounded map in memory over one file a session. Evicting a session
    from memory loses nothing, because its file is read back before it is changed. */
module Telemetry {
  import opened Maps
  import opened Types

  const MAX_SESSIONS := 1000
  const MAX_PERMISSION_REQUESTS := 2000
  const MAX_PENDING_COMMANDS := 256

  const METRIC_ACTIVE_TIME := "claude_code.active_time.total"
  const METRIC_COST_USAGE := "claude_code.cost.usage"
  const SOURCE_CONFIG := "config"
  const SOURCE_HOOK := "hook"
  const SOURCE_USER_TEMPORARY := "user_temporary"
  const SOURCE_USER_PERMANENT := "user_permanent"
  const SOURCE_USER_REJECT := "user_reject"
  const SOURCE_USER_ABORT := "user_abort"
  const DECISION_REJECT := "reject"

  datatype Decision = Decision(command: string, decision: string, source: string, timestamp: Time, tool: string,
      toolUseId: string)

  datatype Permissions = Permissions(
    aborted: nat, autoAllowed: nat, configDenied: nat, hookAllowed: nat, hookDenied: nat,
    promptedAlways: nat, promptedOnce: nat, rejected: nat, requests: seq<Decision>)

  datatype Stats = Stats(activeSeconds: real, costUsd: real, permissions: Permissions, updatedAt: Time)

  const NO_STATS := Stats(0.0, 0.0, Permissions(0, 0, 0, 0, 0, 0, 0, 0, []), 0)

  /** A request that waits for its command. */
  datatype Pending = Pending(sessionId: Id, index: nat)

  function Counted(p: Permissions, d: Decision): Permissions {
    var isReject := d.decision == DECISION_REJECT;
    if d.source == SOURCE_CONFIG then
      if isReject then p.(configDenied := p.configDenied + 1) else p.(autoAllowed := p.autoAllowed + 1)
    else if d.source == SOURCE_HOOK then
      if isReject then p.(hookDenied := p.hookDenied + 1) else p.(hookAllowed := p.hookAllowed + 1)
    else if d.source == SOURCE_USER_TEMPORARY then p.(promptedOnce := p.promptedOnce + 1)
    else if d.source == SOURCE_USER_PERMANENT then p.(promptedAlways := p.promptedAlways + 1)
    else if d.source == SOURCE_USER_REJECT then p.(rejected := p.rejected + 1)
    else if d.source == SOURCE_USER_ABORT then p.(aborted := p.aborted + 1)
    else p
  }

  /** Denials and prompted decisions are listed; other allows are only counted. */
  predicate IsListed(d: Decision) {
    d.decision == DECISION_REJECT || d.source == SOURCE_USER_TEMPORARY || d.source == SOURCE_USER_PERMANENT
  }

  predicate IsKept(p: Permissions, d: Decision) { IsListed(d) && |p.requests| < MAX_PERMISSION_REQUESTS }

  function Decided(p: Permissions, d: Decision): Permissions {
    var counted := Counted(p, d);
    if IsKept(p, d) then counted.(requests := p.requests + [d]) else counted
  }

  function FoldValue(current: real, incoming: real, isDelta: bool): real {
    if isDelta then current + incoming else if current < incoming then incoming else current
  }

  function Folded(stats: Stats, metric: string, value: real, isDelta: bool): Stats {
    if metric == METRIC_ACTIVE_TIME then stats.(activeSeconds := FoldValue(stats.activeSeconds, value, isDelta))
    else if metric == METRIC_COST_USAGE then stats.(costUsd := FoldValue(stats.costUsd, value, isDelta))
    else stats
  }

  // ---- The unbounded map ----

  /** Stats without their update time, requests without their commands. */
  function Bare(stats: Stats): Stats {
    stats.(updatedAt := 0, permissions := stats.permissions.(requests := BareRequests(stats.permissions.requests)))
  }

  function BareRequests(requests: seq<Decision>): (r: seq<Decision>)
    ensures |r| == |requests|
  {
    seq(|requests|, i requires 0 <= i < |requests| => requests[i].(command := ""))
  }

  type Files = map<Id, Stats>

  function BareFiles(files: Files): Files {
    map id | id in files :: Bare(files[id])
  }

  datatype Event =
    | Metric(sessionId: Id, name: string, value: real, isDelta: bool)
    | DecisionMade(sessionId: Id, decision: Decision)
    | Enriched(sessionId: Id, toolUseId: string, command: string)

  /** What the receiver hands on: events of a named session, and of the two metrics kept. */
  predicate IsHandedOn(event: Event) {
    event.sessionId != "" && (event.Metric? ==> event.name == METRIC_ACTIVE_TIME || event.name == METRIC_COST_USAGE)
  }

  function StatsOf(all: Files, id: Id): Stats { if id in all then all[id] else NO_STATS }

  /** What an event does to a map that forgets nothing, commands and update times apart. */
  function Changed(all: Files, event: Event): Files {
    match event
    case Metric(id, name, value, isDelta) => all[id := Folded(StatsOf(all, id), name, value, isDelta)]
    case DecisionMade(id, d) =>
      var stats := StatsOf(all, id);
      all[id := stats.(permissions := Decided(stats.permissions, d.(command := "")))]
    case Enriched(_, _, _) => all
  }

  function Step(all: Files, event: Event): Files { if IsHandedOn(event) then Changed(all, event) else all }

  function StepAll(all: Files, events: seq<Event>): Files {
    if events == [] then all else Step(StepAll(all, events[..|events| - 1]), events[|events| - 1])
  }

  // ---- What the unbounded map's numbers mean ----

  /** The decisions received of a session with one of these sources; those that reject, or do not, or both. */
  function CountOf(events: seq<Event>, id: Id, source: string, rejects: set<bool>): nat {
    if events == [] then 0
    else
      var last := events[|events| - 1];
      CountOf(events[..|events| - 1], id, source, rejects)
      + if last.DecisionMade? && last.sessionId == id && last.decision.source == source
           && (last.decision.decision == "reject") in rejects then 1 else 0
  }

  /** The denials and prompted decisions received of a session, commands apart. */
  function ListedOf(events: seq<Event>, id: Id): seq<Decision> {
    if events == [] then []
    else
      var front, last := ListedOf(events[..|events| - 1], id), events[|events| - 1];
      if last.DecisionMade? && last.sessionId == id
         && (last.decision.decision == "reject" || last.decision.source in {"user_temporary", "user_permanent"})
      then front + [last.decision.(command := "")] else front
  }

  function FirstOf<T>(s: seq<T>, n: nat): seq<T> { if n < |s| then s[..n] else s }

  ghost predicate CountsAre(p: Permissions, events: seq<Event>, id: Id) {
    && p.aborted == CountOf(events, id, "user_abort", {true, false})
    && p.autoAllowed == CountOf(events, id, "config", {false})
    && p.configDenied == CountOf(events, id, "config", {true})
    && p.hookAllowed == CountOf(events, id, "hook", {false})
    && p.hookDenied == CountOf(events, id, "hook", {true})
    && p.promptedAlways == CountOf(events, id, "user_permanent", {true, false})
    && p.promptedOnce == CountOf(events, id, "user_temporary", {true, false})
    && p.rejected == CountOf(events, id, "user_reject", {true, false})
  }

  /** Every decision received of a session is counted under its source, and the first 2000 that an operator acts on
      are listed. */
  lemma {:induction false} DecisionsAreCounted(events: seq<Event>, id: Id)
    requires id != ""
    ensures var p := StatsOf(StepAll(map[], events), id).permissions;
            CountsAre(p, events, id) && p.requests == FirstOf(ListedOf(events, id), 2000)
  {
    if events != [] {
      var front, last := events[..|events| - 1], events[|events| - 1];
      DecisionsAreCounted(front, id);
      DecisionStep(StepAll(map[], front), last, id);
      var before := StatsOf(StepAll(map[], front), id).permissions;
      if last.DecisionMade? && last.sessionId == id {
        CountStep(before, front, last, events, id);
        ListStep(before, front, last, events, id);
      }
    }
  }

  lemma DecisionStep(all: Files, event: Event, id: Id)
    requires id != ""
    ensures var (before, after) := (StatsOf(all, id).permissions, StatsOf(Step(all, event), id).permissions);
            after == if event.DecisionMade? && event.sessionId == id
                     then Decided(before, event.decision.(command := "")) else before
  {
  }

  lemma CountSnoc(front: seq<Event>, event: Event, events: seq<Event>, id: Id, source: string, rejects: set<bool>)
    requires events == front + [event] && event.DecisionMade? && event.sessionId == id
    ensures CountOf(events, id, source, rejects) == CountOf(front, id, source, rejects) +
            if event.decision.source == source && (event.decision.decision == "reject") in rejects then 1 else 0
  {
    assert events[..|events| - 1] == front;
  }

  lemma CountStep(p: Permissions, front: seq<Event>, event: Event, events: seq<Event>, id: Id)
    requires events == front + [event] && event.DecisionMade? && event.sessionId == id
    requires CountsAre(p, front, id)
    ensures CountsAre(Decided(p, event.decision.(command := "")), events, id)
  {
    hide CountOf;
    CountSnoc(front, event, events, id, "user_abort", {true, false});
    CountSnoc(front, event, events, id, "config", {false});
    CountSnoc(front, event, events, id, "config", {true});
    CountSnoc(front, event, events, id, "hook", {false});
    CountSnoc(front, event, events, id, "hook", {true});
    CountSnoc(front, event, events, id, "user_permanent", {true, false});
    CountSnoc(front, event, events, id, "user_temporary", {true, false});
    CountSnoc(front, event, events, id, "user_reject", {true, false});
  }

  lemma ListStep(p: Permissions, front: seq<Event>, event: Event, events: seq<Event>, id: Id)
    requires events == front + [event] && event.DecisionMade? && event.sessionId == id
    requires p.requests == FirstOf(ListedOf(front, id), 2000)
    ensures Decided(p, event.decision.(command := "")).requests == FirstOf(ListedOf(events, id), 2000)
  {
    hide Counted;
    assert events[..|events| - 1] == front;
    DecisionKeepsRequests(p, event.decision.(command := ""));
  }

  /** The values received of one metric of a session. */
  function ValuesOf(events: seq<Event>, id: Id, name: string): seq<real> {
    if events == [] then []
    else
      var front, last := ValuesOf(events[..|events| - 1], id, name), events[|events| - 1];
      if last.Metric? && last.sessionId == id && last.name == name then front + [last.value] else front
  }

  function SumOf(values: seq<real>): real {
    if values == [] then 0.0 else SumOf(values[..|values| - 1]) + values[|values| - 1]
  }

  /** The greatest of the values, 0 at least. */
  ghost predicate IsGreatest(value: real, values: seq<real>) {
    (value == 0.0 || value in values) && value >= 0.0 && forall i :: 0 <= i < |values| ==> values[i] <= value
  }

  function MetricOf(stats: Stats, name: string): real
    requires name == METRIC_ACTIVE_TIME || name == METRIC_COST_USAGE
  {
    if name == METRIC_ACTIVE_TIME then stats.activeSeconds else stats.costUsd
  }

  /** Increments of a metric add up; running totals leave the greatest. */
  lemma {:induction false} MetricsAddUp(events: seq<Event>, id: Id, name: string)
    requires id != "" && (name == METRIC_ACTIVE_TIME || name == METRIC_COST_USAGE)
    ensures var value := MetricOf(StatsOf(StepAll(map[], events), id), name);
            && ((forall e :: e in events && e.Metric? ==> e.isDelta) ==> value == SumOf(ValuesOf(events, id, name)))
            && ((forall e :: e in events && e.Metric? ==> !e.isDelta) ==> IsGreatest(value, ValuesOf(events, id, name)))
  {
    if events != [] {
      var front, last := events[..|events| - 1], events[|events| - 1];
      MetricsAddUp(front, id, name);
      assert last in events && forall e :: e in front ==> e in events;
      MetricStep(StepAll(map[], front), last, id, name);
    }
  }

  lemma MetricStep(all: Files, event: Event, id: Id, name: string)
    requires id != "" && (name == METRIC_ACTIVE_TIME || name == METRIC_COST_USAGE)
    ensures var (before, after) := (MetricOf(StatsOf(all, id), name), MetricOf(StatsOf(Step(all, event), id), name));
            after == if event.Metric? && event.sessionId == id && event.name == name
                     then FoldValue(before, event.value, event.isDelta) else before
  {
  }

  // ---- Commands and update times apart ----

  lemma BareFolded(stats: Stats, now: Time, metric: string, value: real, isDelta: bool)
    ensures Bare(Folded(stats.(updatedAt := now), metric, value, isDelta)) == Folded(Bare(stats), metric, value, isDelta)
  {
  }

  lemma BareSnoc(requests: seq<Decision>, d: Decision)
    ensures BareRequests(requests + [d]) == BareRequests(requests) + [d.(command := "")]
  {
  }

  lemma BareDecided(stats: Stats, now: Time, d: Decision)
    ensures Bare(stats.(updatedAt := now, permissions := Decided(stats.permissions, d))) ==
            Bare(stats).(permissions := Decided(Bare(stats).permissions, d.(command := "")))
  {
    BareSnoc(stats.permissions.requests, d);
  }

  lemma BarePut(files: Files, id: Id, stats: Stats)
    ensures BareFiles(files[id := stats]) == BareFiles(files)[id := Bare(stats)]
  {
  }

  lemma BareNoStats()
    ensures Bare(NO_STATS) == NO_STATS
  {
  }

  /** A denial or a prompted decision is listed as it came, while fewer than 2000 are. */
  function ListedAfter(requests: seq<Decision>, d: Decision): seq<Decision> {
    if (d.decision == "reject" || d.source == "user_temporary" || d.source == "user_permanent") && |requests| < 2000
    then requests + [d] else requests
  }

  lemma DecidedLists(p: Permissions, d: Decision)
    ensures Decided(p, d).requests == ListedAfter(p.requests, d)
  {
  }

  /** What waits after a decision: a listed one with a tool-use id, at its own place in the list; when too many wait,
      the others are given up. */
  function Awaits(pending: map<string, Pending>, sessionId: Id, d: Decision, requests: seq<Decision>): map<string, Pending> {
    if IsListed(d) && |requests| < MAX_PERMISSION_REQUESTS && d.toolUseId != ""
    then (if |pending| >= MAX_PENDING_COMMANDS then map[] else pending)[d.toolUseId := Pending(sessionId, |requests|)]
    else pending
  }

  lemma AwaitsPoint(files: Files, pending: map<string, Pending>, sessionId: Id, stats: Stats, d: Decision)
    requires forall t :: t in pending ==> Store.PointsAt(files, pending[t], t)
    requires stats.permissions == Decided(StatsOf(files, sessionId).permissions, d)
    ensures var awaits := Awaits(pending, sessionId, d, StatsOf(files, sessionId).permissions.requests);
            forall t :: t in awaits ==> Store.PointsAt(files[sessionId := stats], awaits[t], t)
  {
    hide Counted, IsListed;
    DecisionKeepsRequests(StatsOf(files, sessionId).permissions, d);
  }

  lemma DecisionChanges(files: Files, sessionId: Id, decision: Decision, now: Time)
    ensures var known := StatsOf(files, sessionId);
            BareFiles(files[sessionId := known.(updatedAt := now, permissions := Decided(known.permissions, decision))]) ==
            Changed(BareFiles(files), DecisionMade(sessionId, decision))
  {
    hide Bare, Decided, StatsOf, BareFiles;
    var known := StatsOf(files, sessionId);
    BareStats(files, sessionId);
    BareDecided(known, now, decision);
    BarePut(files, sessionId, known.(updatedAt := now, permissions := Decided(known.permissions, decision)));
  }

  lemma MetricChanges(files: Files, sessionId: Id, metric: string, value: real, isDelta: bool, now: Time)
    ensures BareFiles(files[sessionId := Folded(StatsOf(files, sessionId).(updatedAt := now), metric, value, isDelta)]) ==
            Changed(BareFiles(files), Metric(sessionId, metric, value, isDelta))
  {
    hide Bare, Folded, StatsOf, BareFiles;
    var known := StatsOf(files, sessionId);
    BareStats(files, sessionId);
    BareFolded(known, now, metric, value, isDelta);
    BarePut(files, sessionId, Folded(known.(updatedAt := now), metric, value, isDelta));
  }

  class Store {
    var sessions: map<Id, Stats>
    var pendingCommands: map<string, Pending>
    /** The state directory: one file a session. Writes succeed. */
    var files: Files

    ghost predicate Valid()
      reads this
    {
      && "" !in sessions && |sessions| <= 1000 && |pendingCommands| <= 256
      && (forall id :: id in sessions ==> id in files && files[id] == sessions[id])
      && (forall t :: t in pendingCommands ==> PointsAt(files, pendingCommands[t], t))
    }

    /** No other session need leave memory for this one. */
    static predicate HasRoomFor(sessions: map<Id, Stats>, id: Id) { id in sessions || |sessions| < MAX_SESSIONS }

    static ghost predicate IsOldest(sessions: map<Id, Stats>, id: Id) {
      id in sessions && forall other :: other in sessions ==> sessions[id].updatedAt <= sessions[other].updatedAt
    }

    /** A waiting request is one of its session's, with its own tool-use id. */
    static predicate PointsAt(files: Files, pending: Pending, toolUseId: string) {
      && pending.sessionId in files && pending.index < |files[pending.sessionId].permissions.requests|
      && files[pending.sessionId].permissions.requests[pending.index].toolUseId == toolUseId
    }

    constructor (files: Files)
      ensures Valid() && this.files == files && sessions == map[] && pendingCommands == map[]
    {
      sessions, pendingCommands, this.files := map[], map[], files;
    }

    /** Evicts a session no other was updated before. */
    method EvictOldest()
      requires sessions != map[] && "" !in sessions
      modifies this`sessions
      ensures exists id :: id in old(sessions) && sessions == old(sessions) - {id} && IsOldest(old(sessions), id)
    {
      var oldestId, oldest := "", 0;
      var rest := sessions.Keys;
      while rest != {}
        invariant rest <= sessions.Keys
        invariant oldestId == "" ==> rest == sessions.Keys
        invariant oldestId != "" ==> oldestId in sessions && oldest == sessions[oldestId].updatedAt
        invariant oldestId != "" ==>
                    forall other :: other in sessions && other !in rest ==> oldest <= sessions[other].updatedAt
      {
        var id :| id in rest;
        if oldestId == "" || sessions[id].updatedAt < oldest {
          oldestId, oldest := id, sessions[id].updatedAt;
        }
        rest := rest - {id};
      }
      assert IsOldest(sessions, oldestId);
      sessions := sessions - {oldestId};
    }

    method RestoredStats(sessionId: Id) returns (stats: Stats)
      ensures stats == StatsOf(files, sessionId)
    {
      return if sessionId in files then files[sessionId] else NO_STATS;
    }

    /** statsFor: the session in memory, read back from its file if need be; room is made for it. */
    method StatsFor(sessionId: Id, now: Time) returns (stats: Stats)
      requires Valid() && sessionId != ""
      modifies this`sessions
      ensures "" !in sessions
      ensures HasRoomFor(old(sessions), sessionId) ==> sessions.Keys == old(sessions).Keys + {sessionId}
      ensures forall id :: id in sessions && id != sessionId ==> id in old(sessions)
      ensures stats == StatsOf(files, sessionId).(updatedAt := now)
      ensures |sessions| <= 1000 && sessionId in sessions && sessions[sessionId] == stats
      ensures forall id :: id in sessions && id != sessionId ==> id in files && files[id] == sessions[id]
    {
      if sessionId in sessions {
        stats := sessions[sessionId];
      } else {
        if |sessions| >= MAX_SESSIONS {
          ghost var was := sessions;
          EvictOldest();
          SmallerByOne(was, sessions);
        }
        stats := RestoredStats(sessionId);
      }
      stats := stats.(updatedAt := now);
      SizeAfterPut(sessions, sessionId, stats);
      sessions := sessions[sessionId := stats];
    }

    /** persist: what changed in memory goes to the file. */
    method Persist(sessionId: Id, stats: Stats)
      requires |sessions| <= 1000 && |pendingCommands| <= 256
      requires "" !in sessions && sessionId in sessions
      requires forall id :: id in sessions && id != sessionId ==> id in files && files[id] == sessions[id]
      requires forall t :: t in pendingCommands ==> PointsAt(files[sessionId := stats], pendingCommands[t], t)
      modifies this`sessions, this`files
      ensures Valid() && files == old(files)[sessionId := stats] && sessions == old(sessions)[sessionId := stats]
    {
      SizeAfterPut(sessions, sessionId, stats);
      sessions := sessions[sessionId := stats];
      files := files[sessionId := stats];
    }

    lemma StillPoints(sessionId: Id, stats: Stats)
      requires Valid() && StatsOf(files, sessionId).permissions.requests <= stats.permissions.requests
      ensures forall t :: t in pendingCommands ==> PointsAt(files[sessionId := stats], pendingCommands[t], t)
    {
    }

    method Fold(sessionId: Id, metric: string, value: real, isDelta: bool, now: Time)
      requires Valid() && sessionId != ""
      modifies this
      ensures Valid() && BareFiles(files) == Changed(old(BareFiles(files)), Metric(sessionId, metric, value, isDelta))
      ensures pendingCommands == old(pendingCommands)
      ensures HasRoomFor(old(sessions), sessionId) ==> sessions.Keys == old(sessions).Keys + {sessionId}
      ensures sessionId in files && files[sessionId].updatedAt == now
      ensures files[sessionId].permissions == StatsOf(old(files), sessionId).permissions
      ensures forall id :: id != sessionId ==>
                (id in files <==> id in old(files)) && (id in files ==> files[id] == old(files)[id])
    {
      hide Changed, Folded, StatsOf, BareFiles, PointsAt, HasRoomFor;
      ghost var known := StatsOf(files, sessionId);
      MetricChanges(files, sessionId, metric, value, isDelta, now);
      FoldKeepsRequests(known, now, metric, value, isDelta);
      StillPoints(sessionId, Folded(known.(updatedAt := now), metric, value, isDelta));
      var stats := StatsFor(sessionId, now);
      stats := Folded(stats, metric, value, isDelta);
      FoldKeepsTheRest(known.(updatedAt := now), metric, value, isDelta);
      Persist(sessionId, stats);
    }

    /** The entry waits for its command; when too many wait, the others are given up. */
    method AwaitCommand(toolUseId: string, pending: Pending)
      requires |pendingCommands| <= 256
      modifies this`pendingCommands
      ensures |pendingCommands| <= 256
      ensures pendingCommands == (if |old(pendingCommands)| >= MAX_PENDING_COMMANDS then map[]
              else old(pendingCommands))[toolUseId := pending]
    {
      if |pendingCommands| >= MAX_PENDING_COMMANDS {
        pendingCommands := map[];
      }
      SizeAfterPut(pendingCommands, toolUseId, pending);
      pendingCommands := pendingCommands[toolUseId := pending];
    }

    method FoldDecision(sessionId: Id, decision: Decision, now: Time)
      requires Valid() && sessionId != ""
      modifies this
      ensures Valid() && BareFiles(files) == Changed(old(BareFiles(files)), DecisionMade(sessionId, decision))
      ensures sessionId in sessions
      ensures HasRoomFor(old(sessions), sessionId) ==> sessions.Keys == old(sessions).Keys + {sessionId}
      ensures pendingCommands == Awaits(old(pendingCommands), sessionId, decision,
                                        StatsOf(old(files), sessionId).permissions.requests)
      ensures sessionId in files && files[sessionId].updatedAt == now
      ensures files[sessionId].permissions.requests ==
              ListedAfter(StatsOf(old(files), sessionId).permissions.requests, decision)
      ensures forall id :: id != sessionId ==>
                (id in files <==> id in old(files)) && (id in files ==> files[id] == old(files)[id])
    {
      hide Changed, Decided, StatsOf, BareFiles, PointsAt, Awaits, ListedAfter, HasRoomFor;
      ghost var known := StatsOf(files, sessionId);
      ghost var after := known.(updatedAt := now, permissions := Decided(known.permissions, decision));
      AwaitsPoint(files, pendingCommands, sessionId, after, decision);
      DecisionChanges(files, sessionId, decision, now);
      DecidedLists(known.permissions, decision);
      var stats := StatsFor(sessionId, now);
      stats := TakeDecision(sessionId, decision, stats);
      Persist(sessionId, stats);
    }

    /** The decision is counted, listed while there is room, and waits for its command. */
    method TakeDecision(sessionId: Id, decision: Decision, stats: Stats) returns (r: Stats)
      requires |pendingCommands| <= MAX_PENDING_COMMANDS
      modifies this`pendingCommands
      ensures r == stats.(permissions := Decided(stats.permissions, decision))
      ensures |pendingCommands| <= MAX_PENDING_COMMANDS
      ensures pendingCommands == Awaits(old(pendingCommands), sessionId, decision, stats.permissions.requests)
    {
      hide Counted, IsListed;
      r := stats.(permissions := Counted(stats.permissions, decision));
      DecisionKeepsRequests(stats.permissions, decision);
      var hasRoom := |stats.permissions.requests| < MAX_PERMISSION_REQUESTS;
      if IsListed(decision) && hasRoom {
        r := r.(permissions := r.permissions.(requests := r.permissions.requests + [decision]));
        if decision.toolUseId != "" {
          AwaitCommand(decision.toolUseId, Pending(sessionId, |stats.permissions.requests|));
        }
      }
    }

    /** Nothing changed but requests of the session with the tool-use id. */
    static ghost predicate EnrichesOnly(was: Files, files: Files, sessionId: Id, toolUseId: string) {
      forall id :: id in was ==>
        && id in files && |files[id].permissions.requests| == |was[id].permissions.requests|
        && forall i :: 0 <= i < |was[id].permissions.requests| ==>
             files[id].permissions.requests[i] == was[id].permissions.requests[i]
             || (id == sessionId && was[id].permissions.requests[i].toolUseId == toolUseId)
    }

    /** enrichCommand: the command goes to the request with the same tool-use id, and to no other. */
    method EnrichCommand(sessionId: Id, toolUseId: string, command: string)
      requires Valid() && sessionId != ""
      modifies this
      ensures Valid() && BareFiles(files) == old(BareFiles(files))
      ensures EnrichesOnly(old(files), files, sessionId, toolUseId) && sessions.Keys == old(sessions).Keys
      ensures var isWaiting := toolUseId != "" && command != "" && toolUseId in old(pendingCommands)
                               && old(pendingCommands)[toolUseId].sessionId == sessionId;
              && pendingCommands == (if isWaiting then old(pendingCommands) - {toolUseId} else old(pendingCommands))
              && if isWaiting && sessionId in old(sessions)
                 then
                   var index, was := old(pendingCommands)[toolUseId].index, old(files)[sessionId];
                   && index < |was.permissions.requests|
                   && files == old(files)[sessionId := was.(permissions := was.permissions.(requests :=
                        was.permissions.requests[index := was.permissions.requests[index].(command := command)]))]
                 else files == old(files)
    {
      if toolUseId == "" || command == "" {
        return;
      }
      if toolUseId !in pendingCommands || pendingCommands[toolUseId].sessionId != sessionId {
        return;
      }
      var pending := pendingCommands[toolUseId];
      SmallerByOne(pendingCommands, pendingCommands - {toolUseId});
      pendingCommands := pendingCommands - {toolUseId};
      if sessionId !in sessions || pending.index >= |sessions[sessionId].permissions.requests| {
        return;
      }
      SetCommand(sessionId, pending.index, command);
    }

    method SetCommand(sessionId: Id, index: nat, command: string)
      requires Valid() && sessionId in sessions && index < |sessions[sessionId].permissions.requests|
      modifies this`sessions, this`files
      ensures Valid() && BareFiles(files) == old(BareFiles(files)) && sessions.Keys == old(sessions).Keys
      ensures files == old(files)[sessionId := WithCommand(old(files)[sessionId], index, command)]
      ensures EnrichesOnly(old(files), files, sessionId, old(sessions)[sessionId].permissions.requests[index].toolUseId)
    {
      hide WithCommand, BareFiles, EnrichesOnly, PointsAt;
      var stats := WithCommand(sessions[sessionId], index, command);
      WithCommandIsBare(files, sessionId, index, command);
      WithCommandEnriches(files, sessionId, index, command);
      WithCommandPoints(files, pendingCommands, sessionId, index, command);
      Persist(sessionId, stats);
    }
  }

  function WithCommand(stats: Stats, index: nat, command: string): Stats
    requires index < |stats.permissions.requests|
  {
    var requests := stats.permissions.requests;
    stats.(permissions := stats.permissions.(requests := requests[index := requests[index].(command := command)]))
  }

  lemma WithCommandIsBare(files: Files, id: Id, index: nat, command: string)
    requires id in files && index < |files[id].permissions.requests|
    ensures BareFiles(files[id := WithCommand(files[id], index, command)]) == BareFiles(files)
  {
    var requests := files[id].permissions.requests;
    assert BareRequests(requests[index := requests[index].(command := command)]) == BareRequests(requests);
  }

  lemma WithCommandEnriches(files: Files, id: Id, index: nat, command: string)
    requires id in files && index < |files[id].permissions.requests|
    ensures Store.EnrichesOnly(files, files[id := WithCommand(files[id], index, command)], id,
            files[id].permissions.requests[index].toolUseId)
  {
  }

  lemma WithCommandPoints(files: Files, pending: map<string, Pending>, id: Id, index: nat, command: string)
    requires id in files && index < |files[id].permissions.requests|
    requires forall t :: t in pending ==> Store.PointsAt(files, pending[t], t)
    ensures forall t :: t in pending ==> Store.PointsAt(files[id := WithCommand(files[id], index, command)], pending[t], t)
  {
  }

  lemma FoldKeepsTheRest(stats: Stats, metric: string, value: real, isDelta: bool)
    ensures var r := Folded(stats, metric, value, isDelta);
            r.updatedAt == stats.updatedAt && r.permissions == stats.permissions
  {
  }

  lemma FoldKeepsRequests(stats: Stats, now: Time, metric: string, value: real, isDelta: bool)
    ensures Folded(stats.(updatedAt := now), metric, value, isDelta).permissions == stats.permissions
  {
  }

  lemma DecisionKeepsRequests(p: Permissions, d: Decision)
    ensures Decided(p, d).requests == if IsKept(p, d) then p.requests + [d] else p.requests
    ensures Counted(p, d).requests == p.requests
  {
  }

  lemma BareStats(files: Files, id: Id)
    ensures StatsOf(BareFiles(files), id) == Bare(StatsOf(files, id))
  {
    BareNoStats();
  }

  // ---- Whole runs ----

  /** The event is no decision with this tool-use id, and no result for it in this session. */
  predicate LeavesAlone(event: Event, sessionId: Id, toolUseId: string) {
    match event
    case Metric(_, _, _, _) => true
    case DecisionMade(_, decision) => decision.toolUseId != toolUseId
    case Enriched(id, t, _) => id != sessionId || t != toolUseId
  }

  /** The waiting entry of a tool-use id is as it was, and not many more wait than did. */
  ghost predicate StillWaits(was: map<string, Pending>, pending: map<string, Pending>, event: Event, sessionId: Id,
                             toolUseId: string) {
    && |pending| <= |was| + (if event.DecisionMade? then 1 else 0)
    && (LeavesAlone(event, sessionId, toolUseId) && toolUseId in was && was[toolUseId].sessionId == sessionId ==>
          toolUseId in pending && pending[toolUseId] == was[toolUseId])
  }

  /** What one event does to a store of the same receiver. */
  method Receive(store: Store, event: Event, now: Time)
    requires store.Valid()
    modifies store
    ensures store.Valid() && BareFiles(store.files) == Step(old(BareFiles(store.files)), event)
    ensures old(store.sessions).Keys + {event.sessionId} == old(store.sessions).Keys ||
            |old(store.sessions)| < MAX_SESSIONS ==>
              old(store.sessions).Keys <= store.sessions.Keys <= old(store.sessions).Keys + {event.sessionId}
    ensures (event.DecisionMade? ==> |old(store.pendingCommands)| < MAX_PENDING_COMMANDS) ==>
              forall id, t :: StillWaits(old(store.pendingCommands), store.pendingCommands, event, id, t)
  {
    hide Changed, BareFiles, IsListed;
    EnrichesNothing(BareFiles(store.files), event);
    if !IsHandedOn(event) {
      return;
    }
    match event
    case Metric(id, name, value, isDelta) =>
      store.Fold(id, name, value, isDelta, now);
    case DecisionMade(id, decision) =>
      ghost var requests := StatsOf(store.files, id).permissions.requests;
      AwaitsOneMore(store.pendingCommands, id, decision, requests);
      store.FoldDecision(id, decision, now);
    case Enriched(id, toolUseId, command) =>
      ghost var was := store.pendingCommands;
      store.EnrichCommand(id, toolUseId, command);
      FewerWait(was, toolUseId);
  }

  lemma AwaitsOneMore(pending: map<string, Pending>, sessionId: Id, d: Decision, requests: seq<Decision>)
    ensures |pending| < MAX_PENDING_COMMANDS ==>
              var awaits := Awaits(pending, sessionId, d, requests);
              && |awaits| <= |pending| + 1
              && forall t :: t in pending && t != d.toolUseId ==> t in awaits && awaits[t] == pending[t]
  {
    SizeAfterPut(pending, d.toolUseId, Pending(sessionId, |requests|));
  }

  lemma FewerWait(pending: map<string, Pending>, toolUseId: string)
    ensures |pending - {toolUseId}| <= |pending|
  {
    if toolUseId in pending {
      SmallerByOne(pending, pending - {toolUseId});
    } else {
      assert pending - {toolUseId} == pending;
    }
  }

  /** For every sequence of metrics, decisions and tool results, the session files read as the unbounded map
      would, however often sessions are evicted and read back; memory stays bounded. */
  method Run(files: Files, events: seq<Event>, clock: nat -> Time) returns (store: Store)
    ensures store.Valid() && BareFiles(store.files) == StepAll(BareFiles(files), events)
    ensures |store.sessions| <= MAX_SESSIONS
  {
    hide Step, BareFiles;
    store := new Store(files);
    for i := 0 to |events|
      invariant fresh(store) && store.Valid() && BareFiles(store.files) == StepAll(BareFiles(files), events[..i])
    {
      assert events[..i + 1][..i] == events[..i];
      Receive(store, events[i], clock(i));
    }
    assert events[..|events|] == events;
  }

  lemma EnrichesNothing(all: Files, event: Event)
    ensures event.Enriched? ==> Changed(all, event) == all
  {
  }

  // ---- A decision and its result ----

  function SessionsIn(events: seq<Event>): set<Id> { set e | e in events :: e.sessionId }

  function DecisionsIn(events: seq<Event>): nat {
    if events == [] then 0
    else DecisionsIn(events[..|events| - 1]) + if events[|events| - 1].DecisionMade? then 1 else 0
  }

  /** The request at this place of the session's list. */
  ghost predicate Lists(all: Files, id: Id, index: nat, d: Decision) {
    id in all && index < |all[id].permissions.requests| && all[id].permissions.requests[index] == d
  }

  lemma StepLists(all: Files, event: Event, id: Id, index: nat, d: Decision)
    requires Lists(all, id, index, d)
    ensures Lists(Step(all, event), id, index, d)
  {
    hide Counted, IsListed, FoldValue;
    if event.DecisionMade? {
      DecisionKeepsRequests(StatsOf(all, event.sessionId).permissions, event.decision.(command := ""));
    }
  }

  lemma DecisionLists(all: Files, id: Id, d: Decision)
    requires d.decision == "reject" || d.source == "user_temporary" || d.source == "user_permanent"
    requires |StatsOf(all, id).permissions.requests| < MAX_PERMISSION_REQUESTS && id != ""
    ensures var index := |StatsOf(all, id).permissions.requests|;
            Lists(Changed(all, DecisionMade(id, d)), id, index, d.(command := ""))
  {
    hide Counted;
    DecisionKeepsRequests(StatsOf(all, id).permissions, d.(command := ""));
  }

  lemma DecisionWaits(pending: map<string, Pending>, id: Id, d: Decision, requests: seq<Decision>)
    requires d.decision == "reject" || d.source == "user_temporary" || d.source == "user_permanent"
    requires |requests| < MAX_PERMISSION_REQUESTS && d.toolUseId != ""
    ensures var awaits := Awaits(pending, id, d, requests);
            d.toolUseId in awaits && awaits[d.toolUseId] == Pending(id, |requests|) && |awaits| <= |pending| + 1
  {
    if |pending| < MAX_PENDING_COMMANDS {
      SizeAfterPut(pending, d.toolUseId, Pending(id, |requests|));
    }
  }

  lemma RoomFor(sessions: set<Id>, all: set<Id>, id: Id)
    requires sessions <= all && id in all && |all| <= MAX_SESSIONS
    ensures sessions + {id} == sessions || |sessions| < MAX_SESSIONS
  {
    if id !in sessions {
      assert sessions <= all - {id};
      Smaller(sessions, all - {id});
    }
  }

  lemma {:induction false} Smaller(a: set<Id>, b: set<Id>)
    requires a <= b
    ensures |a| <= |b|
  {
    if x :| x in a { Smaller(a - {x}, b - {x}); }
  }

  /** A decision's request waits in memory and in the list, at the place its entry says. */
  ghost predicate Waiting(store: Store, id: Id, toolUseId: string, index: nat, bare: Decision)
    reads store
  {
    && store.Valid() && id in store.sessions
    && toolUseId in store.pendingCommands && store.pendingCommands[toolUseId] == Pending(id, index)
    && Lists(BareFiles(store.files), id, index, bare)
  }

  /** It goes on waiting while no session has to leave memory and the waiting entries do not overflow. */
  method WaitThrough(store: Store, id: Id, toolUseId: string, ghost index: nat, ghost bare: Decision, events: seq<Event>,
                     clock: nat -> Time, ghost all: set<Id>)
    requires Waiting(store, id, toolUseId, index, bare) && store.sessions.Keys <= all && SessionsIn(events) <= all
    requires |all| <= MAX_SESSIONS && |store.pendingCommands| + DecisionsIn(events) <= MAX_PENDING_COMMANDS
    requires forall e :: e in events ==> LeavesAlone(e, id, toolUseId)
    modifies store
    ensures Waiting(store, id, toolUseId, index, bare)
  {
    hide Step, BareFiles, Lists, LeavesAlone, Store.Valid;
    ghost var waiting := |store.pendingCommands|;
    for i := 0 to |events|
      invariant Waiting(store, id, toolUseId, index, bare) && store.sessions.Keys <= all
      invariant |store.pendingCommands| <= waiting + DecisionsIn(events[..i])
    {
      assert events[..i + 1][..i] == events[..i];
      FewerDecisions(events, i);
      assert events[i] in events && events[i].sessionId in SessionsIn(events);
      WaitForOne(store, id, toolUseId, index, bare, events[i], clock(i), all);
    }
  }

  method WaitForOne(store: Store, id: Id, toolUseId: string, ghost index: nat, ghost bare: Decision, event: Event,
                    now: Time, ghost all: set<Id>)
    requires Waiting(store, id, toolUseId, index, bare) && LeavesAlone(event, id, toolUseId)
    requires store.sessions.Keys <= all && event.sessionId in all && |all| <= MAX_SESSIONS
    requires event.DecisionMade? ==> |store.pendingCommands| < MAX_PENDING_COMMANDS
    modifies store
    ensures Waiting(store, id, toolUseId, index, bare) && store.sessions.Keys <= all
    ensures |store.pendingCommands| <= |old(store.pendingCommands)| + if event.DecisionMade? then 1 else 0
  {
    hide Step, BareFiles, Lists, LeavesAlone, Store.Valid;
    RoomFor(store.sessions.Keys, all, event.sessionId);
    StepLists(BareFiles(store.files), event, id, index, bare);
    ghost var was := store.pendingCommands;
    Receive(store, event, now);
    assert StillWaits(was, store.pendingCommands, event, id, toolUseId);
  }

  /** The result of the tool call writes its command to that request. */
  method Answer(store: Store, id: Id, ghost index: nat, decision: Decision, command: string)
    requires Waiting(store, id, decision.toolUseId, index, decision.(command := ""))
    requires id != "" && decision.toolUseId != "" && command != ""
    modifies store
    ensures store.Valid() && decision.toolUseId !in store.pendingCommands
    ensures Lists(store.files, id, index, decision.(command := command))
  {
    hide BareFiles, Store.Valid, Store.EnrichesOnly;
    BareLists(store.files, id, index, decision.(command := ""));
    store.EnrichCommand(id, decision.toolUseId, command);
  }

  method Decide(store: Store, id: Id, decision: Decision, now: Time)
    requires store.Valid() && id != "" && decision.toolUseId != ""
    requires decision.decision == "reject" || decision.source == "user_temporary" || decision.source == "user_permanent"
    requires |StatsOf(store.files, id).permissions.requests| < MAX_PERMISSION_REQUESTS
    modifies store
    ensures Waiting(store, id, decision.toolUseId, |StatsOf(old(store.files), id).permissions.requests|,
                    decision.(command := ""))
    ensures |store.pendingCommands| <= |old(store.pendingCommands)| + 1
    ensures Store.HasRoomFor(old(store.sessions), id) ==> store.sessions.Keys == old(store.sessions).Keys + {id}
  {
    hide Changed, BareFiles, Awaits, Store.Valid, Lists, StatsOf;
    BareStats(store.files, id);
    BareKeepsLength(StatsOf(store.files, id));
    DecisionLists(BareFiles(store.files), id, decision);
    DecisionWaits(store.pendingCommands, id, decision, StatsOf(store.files, id).permissions.requests);
    store.FoldDecision(id, decision, now);
  }

  lemma BareKeepsLength(stats: Stats)
    ensures |Bare(stats).permissions.requests| == |stats.permissions.requests|
  {
  }

  /** A listed decision, other events, then the result of its tool call: if no session had to leave memory and the
      waiting entries never overflowed in between, the command is in the file, at the decision's own request. */
  method DecisionThenResult(store: Store, sessionId: Id, decision: Decision, between: seq<Event>, command: string,
                            clock: nat -> Time)
    requires store.Valid() && sessionId != "" && decision.toolUseId != "" && command != ""
    requires decision.decision == "reject" || decision.source == "user_temporary" || decision.source == "user_permanent"
    requires |StatsOf(store.files, sessionId).permissions.requests| < MAX_PERMISSION_REQUESTS
    requires |store.sessions.Keys + {sessionId} + SessionsIn(between)| <= MAX_SESSIONS
    requires |store.pendingCommands| + 1 + DecisionsIn(between) <= MAX_PENDING_COMMANDS
    requires forall e :: e in between ==> LeavesAlone(e, sessionId, decision.toolUseId)
    modifies store
    ensures store.Valid() && decision.toolUseId !in store.pendingCommands
    ensures Lists(store.files, sessionId, |StatsOf(old(store.files), sessionId).permissions.requests|,
                  decision.(command := command))
  {
    hide Lists, StatsOf, BareFiles, Store.Valid, LeavesAlone;
    ghost var all := store.sessions.Keys + {sessionId} + SessionsIn(between);
    ghost var index := |StatsOf(store.files, sessionId).permissions.requests|;
    RoomFor(store.sessions.Keys, all, sessionId);
    Decide(store, sessionId, decision, clock(0));
    WaitThrough(store, sessionId, decision.toolUseId, index, decision.(command := ""), between, n => clock(n + 1), all);
    Answer(store, sessionId, index, decision, command);
  }

  lemma {:induction false} FewerDecisions(events: seq<Event>, i: nat)
    requires i < |events|
    ensures DecisionsIn(events[..i]) + (if events[i].DecisionMade? then 1 else 0) <= DecisionsIn(events)
    decreases |events|
  {
    if i < |events| - 1 {
      FewerDecisions(events[..|events| - 1], i);
      assert events[..|events| - 1][..i] == events[..i];
    }
  }

  lemma BareLists(files: Files, id: Id, index: nat, d: Decision)
    requires Lists(BareFiles(files), id, index, d)
    ensures id in files && index < |files[id].permissions.requests|
    ensures files[id].permissions.requests[index].(command := "") == d
  {
  }
}
