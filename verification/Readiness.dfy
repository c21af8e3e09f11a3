/** The ready signal (session/store.go, cmd/warm.go, cmd/start.go): one channel a warm period, closed by the period's
    reporter, replaced by the store's reset. Goroutines interleave freely; only the wait group holds a period's end
    back until its members are through, and a diff refresh is not one of them. */
module Readiness {

  /** What a period's goroutines do: watch transcripts and signal their first load, watch plans or diffs, or wait for
      the loads one after the other and mark the store ready. The diff watcher starts refreshes and polls of its own,
      numbered, which no wait group knows. */
  datatype Job = Load(number: nat) | Plans | Diffs | Report | Refresh(number: nat)

  datatype Goroutine = Goroutine(period: nat, job: Job)

  /** How far the period has come: stop cancels it, waits for its goroutines, and resets the store. */
  datatype Stage = Cold | Warm | Cancelled | Waited

  /** What was done to the store: a goroutine touched it, its channel was closed, or it was reset. */
  datatype Deed =
    | Touched(period: nat, worker: Goroutine)
    | Closed(period: nat, worker: Goroutine, loads: nat, loaded: set<nat>)
    | Replaced(period: nat, running: set<Goroutine>)

  /** The store is in its `period`th period, and its ready channel is that period's; `seen` loads were waited for. */
  datatype System = System(
    period: nat, stage: Stage, loads: nat, loaded: set<nat>, seen: nat, running: set<Goroutine>, deeds: seq<Deed>)

  const START := System(0, Cold, 0, {}, 0, {}, [])

  function Loaders(period: nat, n: nat): (r: set<Goroutine>)
    ensures forall g :: g in r ==> g.period == period && g.job.Load?
    ensures forall k: nat :: k < n ==> Goroutine(period, Load(k)) in r
  {
    if n == 0 then {} else Loaders(period, n - 1) + {Goroutine(period, Load(n - 1))}
  }

  function Group(period: nat, loads: nat): set<Goroutine> {
    Loaders(period, loads) + {Goroutine(period, Plans), Goroutine(period, Diffs), Goroutine(period, Report)}
  }

  datatype Step =
    | Begin(loads: nat)
    | Touch(worker: Goroutine)
    | Signal(worker: Goroutine)
    | Spawn(worker: Goroutine, number: nat)
    | See(worker: Goroutine)
    | Mark(worker: Goroutine)
    | End(worker: Goroutine)
    | Cancel
    | Wait
    | Reset

  predicate IsReporter(s: System, g: Goroutine) { g in s.running && g.job == Report }

  predicate IsEnabled(s: System, step: Step) {
    match step
    case Begin(_) => s.stage == Cold
    case Touch(g) => g in s.running && g.job != Report
    case Signal(g) => g in s.running && g.job.Load?
    // one refresh of a session is in flight at a time
    case Spawn(g, number) => g in s.running && g.job == Diffs && Goroutine(g.period, Refresh(number)) !in s.running
    case See(g) => IsReporter(s, g) && s.seen < s.loads && s.seen in s.loaded
    case Mark(g) => IsReporter(s, g) && s.seen == s.loads
    // every loop ends when its context is cancelled, and so does the wait for a load; a refresh ends by itself
    case End(g) => g in s.running && (s.stage != Warm || g.job.Refresh?)
    case Cancel => s.stage == Warm
    // the wait group counts the members of its own period
    case Wait => s.stage == Cancelled && forall g :: g in s.running && g.period == s.period ==> g.job.Refresh?
    case Reset => s.stage == Waited
  }

  function Take(s: System, step: Step): System
    requires IsEnabled(s, step)
  {
    match step
    case Begin(loads) => System(s.period, Warm, loads, {}, 0, s.running + Group(s.period, loads), s.deeds)
    case Touch(g) => s.(deeds := s.deeds + [Touched(s.period, g)])
    case Signal(g) => s.(loaded := s.loaded + {g.job.number})
    case Spawn(g, number) => s.(running := s.running + {Goroutine(g.period, Refresh(number))})
    case See(_) => s.(seen := s.seen + 1)
    case Mark(g) => s.(running := s.running - {g}, deeds := s.deeds + [Closed(s.period, g, s.loads, s.loaded)])
    case End(g) => s.(running := s.running - {g})
    case Cancel => s.(stage := Cancelled)
    case Wait => s.(stage := Waited)
    case Reset => s.(period := s.period + 1, stage := Cold, deeds := s.deeds + [Replaced(s.period, s.running)])
  }

  function Run(steps: seq<Step>): System {
    if steps == [] then START
    else
      var before, step := Run(steps[..|steps| - 1]), steps[|steps| - 1];
      if IsEnabled(before, step) then Take(before, step) else before
  }

  // ---- What always holds ----

  predicate IsClosed(s: System, period: nat) {
    exists i :: 0 <= i < |s.deeds| && s.deeds[i].Closed? && s.deeds[i].period == period
  }

  /** A deed on the store of a period its goroutine does not belong to. */
  predicate IsLate(deed: Deed) { !deed.Replaced? && deed.worker.period != deed.period }

  ghost predicate NoneIsLate(s: System) { forall i :: 0 <= i < |s.deeds| ==> !IsLate(s.deeds[i]) }

  /** Only a refresh is ever late, and only the reporter marks the store ready. */
  ghost predicate OnlyRefreshesAreLate(s: System) {
    forall i :: 0 <= i < |s.deeds| && !s.deeds[i].Replaced? ==>
      && (IsLate(s.deeds[i]) ==> s.deeds[i].worker.job.Refresh?)
      && (s.deeds[i].Closed? <==> s.deeds[i].worker.job == Report)
  }

  /** A channel is closed only when every load of its own period has signalled. */
  ghost predicate ClosedWhenLoaded(s: System) {
    forall i :: 0 <= i < |s.deeds| && s.deeds[i].Closed? ==>
      forall load :: 0 <= load < s.deeds[i].loads ==> load in s.deeds[i].loaded
  }

  /** The store is reset only when nothing but refreshes runs any more. */
  ghost predicate ReplacedWhenOver(s: System) {
    forall i, g :: 0 <= i < |s.deeds| && s.deeds[i].Replaced? && g in s.deeds[i].running ==> g.job.Refresh?
  }

  /** No channel is closed twice, and what is done to the store is in the order of its periods. */
  ghost predicate ClosedOnce(s: System) {
    && (forall i, j :: 0 <= i < j < |s.deeds| && s.deeds[i].Closed? && s.deeds[j].Closed? ==>
          s.deeds[i].period < s.deeds[j].period)
    && (forall i, j :: 0 <= i < j < |s.deeds| && s.deeds[i].Replaced? ==> s.deeds[i].period < s.deeds[j].period)
    && (forall i :: 0 <= i < |s.deeds| ==> s.deeds[i].period <= s.period)
    && (forall i :: 0 <= i < |s.deeds| && s.deeds[i].Replaced? ==> s.deeds[i].period < s.period)
  }

  /** While a period is not over its goroutines are its own; its channel is open while its reporter waits. */
  ghost predicate OwnGoroutines(s: System) {
    && (forall g :: g in s.running && !g.job.Refresh? ==> g.period == s.period && (s.stage == Warm || s.stage == Cancelled))
    && (forall g :: g in s.running ==> g.period <= s.period && (s.stage == Cold ==> g.period < s.period))
    && (Goroutine(s.period, Report) in s.running || s.stage == Cold ==> !IsClosed(s, s.period))
    && (s.stage != Cold ==> s.seen <= s.loads && forall load :: 0 <= load < s.seen ==> load in s.loaded)
  }

  ghost predicate Sound(s: System) {
    OnlyRefreshesAreLate(s) && ClosedWhenLoaded(s) && ReplacedWhenOver(s) && ClosedOnce(s) && OwnGoroutines(s)
  }

  lemma DeedDone(s: System, after: System, deed: Deed)
    requires after.deeds == s.deeds + [deed]
    ensures forall period :: IsClosed(after, period) <==> IsClosed(s, period) || (deed.Closed? && deed.period == period)
  {
    forall period
      ensures IsClosed(after, period) <==> IsClosed(s, period) || (deed.Closed? && deed.period == period)
    {
      if IsClosed(s, period) {
        var i :| 0 <= i < |s.deeds| && s.deeds[i].Closed? && s.deeds[i].period == period;
        assert after.deeds[i] == s.deeds[i];
      }
      if deed.Closed? && deed.period == period {
        assert after.deeds[|s.deeds|] == deed;
      }
      if IsClosed(after, period) {
        var i :| 0 <= i < |after.deeds| && after.deeds[i].Closed? && after.deeds[i].period == period;
        assert i < |s.deeds| ==> s.deeds[i] == after.deeds[i];
      }
    }
  }

  lemma MarkKeeps(s: System, g: Goroutine)
    requires Sound(s) && IsEnabled(s, Mark(g))
    ensures Sound(Take(s, Mark(g)))
  {
    DeedDone(s, Take(s, Mark(g)), Closed(s.period, g, s.loads, s.loaded));
    forall i | 0 <= i < |s.deeds| && s.deeds[i].Closed? ensures s.deeds[i].period < s.period {
      assert s.deeds[i].period == s.period ==> IsClosed(s, s.period);
    }
  }

  lemma ResetKeeps(s: System)
    requires Sound(s) && IsEnabled(s, Reset)
    ensures Sound(Take(s, Reset))
  {
    DeedDone(s, Take(s, Reset), Replaced(s.period, s.running));
    assert !IsClosed(s, s.period + 1);
  }

  lemma TouchKeeps(s: System, g: Goroutine)
    requires Sound(s) && IsEnabled(s, Touch(g))
    ensures Sound(Take(s, Touch(g)))
  {
    DeedDone(s, Take(s, Touch(g)), Touched(s.period, g));
  }

  lemma QuietKeeps(s: System, step: Step)
    requires Sound(s) && IsEnabled(s, step) && !step.Touch? && !step.Mark? && !step.Reset?
    ensures Sound(Take(s, step))
  {
    hide OnlyRefreshesAreLate, ClosedWhenLoaded, ReplacedWhenOver, ClosedOnce, IsClosed;
    DeedsAlike(s, Take(s, step));
  }

  lemma DeedsAlike(s: System, after: System)
    requires after.deeds == s.deeds && after.period == s.period
    ensures OnlyRefreshesAreLate(s) ==> OnlyRefreshesAreLate(after)
    ensures ClosedWhenLoaded(s) ==> ClosedWhenLoaded(after)
    ensures ReplacedWhenOver(s) ==> ReplacedWhenOver(after)
    ensures ClosedOnce(s) ==> ClosedOnce(after)
    ensures IsClosed(after, s.period) == IsClosed(s, s.period)
  {
  }

  lemma StepKeeps(s: System, step: Step)
    requires Sound(s) && IsEnabled(s, step)
    ensures Sound(Take(s, step))
  {
    hide Sound;
    match step
    case Mark(g) => MarkKeeps(s, g);
    case Reset => ResetKeeps(s);
    case Touch(g) => TouchKeeps(s, g);
    case _ => QuietKeeps(s, step);
  }

  /** Over all interleavings of warm periods: each channel is closed at most once, only when every load of its own
      period has signalled; the store is reset only when all members of its wait group have ended, and none of an
      earlier period ever touches it: only a refresh can. */
  lemma {:induction false} AlwaysSound(steps: seq<Step>)
    ensures Sound(Run(steps))
  {
    if steps != [] {
      var before, step := Run(steps[..|steps| - 1]), steps[|steps| - 1];
      AlwaysSound(steps[..|steps| - 1]);
      if IsEnabled(before, step) {
        StepKeeps(before, step);
      }
    }
  }

  predicate IsReport(deed: Deed, period: nat) {
    && deed.Closed? && deed.worker == Goroutine(period, Report)
    && forall load :: 0 <= load < deed.loads ==> load in deed.loaded
  }

  /** A store is ready only when its present period's own reporter has seen all its loads. */
  lemma ReadyMeansLoaded(steps: seq<Step>)
    ensures var s := Run(steps);
            IsClosed(s, s.period) ==> exists i :: 0 <= i < |s.deeds| && IsReport(s.deeds[i], s.period)
  {
    AlwaysSound(steps);
    var s := Run(steps);
    if IsClosed(s, s.period) {
      var i :| 0 <= i < |s.deeds| && s.deeds[i].Closed? && s.deeds[i].period == s.period;
      assert IsReport(s.deeds[i], s.period);
    }
  }

  // ---- Nobody waits for ever ----

  /** While warm a period's loads run on, and its reporter, unless the store is ready. */
  ghost predicate OnItsWay(s: System) {
    s.stage == Warm ==>
      && (forall k: nat :: k < s.loads ==> Goroutine(s.period, Load(k)) in s.running)
      && (IsClosed(s, s.period) || Goroutine(s.period, Report) in s.running)
  }

  lemma StepOnItsWay(s: System, step: Step)
    requires Sound(s) && OnItsWay(s) && IsEnabled(s, step)
    ensures OnItsWay(Take(s, step))
  {
    hide OnlyRefreshesAreLate, ClosedWhenLoaded, ReplacedWhenOver, ClosedOnce, IsClosed;
    match step
    case Touch(g) => DeedDone(s, Take(s, step), Touched(s.period, g));
    case Mark(g) => DeedDone(s, Take(s, step), Closed(s.period, g, s.loads, s.loaded));
    case Reset =>
    case _ => DeedsAlike(s, Take(s, step));
  }

  lemma {:induction false} AlwaysOnItsWay(steps: seq<Step>)
    ensures OnItsWay(Run(steps))
  {
    hide Sound, OnItsWay;
    if steps == [] {
      ColdAtFirst();
    } else {
      var before, step := Run(steps[..|steps| - 1]), steps[|steps| - 1];
      AlwaysSound(steps[..|steps| - 1]);
      AlwaysOnItsWay(steps[..|steps| - 1]);
      if IsEnabled(before, step) { StepOnItsWay(before, step); }
    }
  }

  lemma ColdAtFirst()
    ensures OnItsWay(START)
  {
  }

  /** The reporter waits on: the load it waits for signals, it goes on to the next, and marks the store ready. */
  lemma {:induction false} Reports(steps: seq<Step>) returns (more: seq<Step>)
    requires var s := Run(steps);
             && s.stage == Warm && s.seen <= s.loads && Goroutine(s.period, Report) in s.running
             && forall k: nat :: k < s.loads ==> Goroutine(s.period, Load(k)) in s.running
    ensures var (s, after) := (Run(steps), Run(steps + more));
            after.period == s.period && after.stage == Warm && IsClosed(after, s.period)
    decreases Run(steps).loads - Run(steps).seen
  {
    hide Run;
    var s, reporter := Run(steps), Goroutine(Run(steps).period, Report);
    if s.seen == s.loads {
      more := [Mark(reporter)];
      Taken(steps, s, Mark(reporter), Take(s, Mark(reporter)));
      DeedDone(s, Take(s, Mark(reporter)), Closed(s.period, reporter, s.loads, s.loaded));
    } else {
      var signal := Signal(Goroutine(s.period, Load(s.seen)));
      Taken(steps, s, signal, Take(s, signal));
      Taken(steps + [signal], Take(s, signal), See(reporter), Take(Take(s, signal), See(reporter)));
      var rest := Reports(steps + [signal] + [See(reporter)]);
      more := [signal, See(reporter)] + rest;
      assert steps + more == steps + [signal] + [See(reporter)] + rest;
    }
  }

  /** From wherever a warm period has got to, its store can still become ready. */
  lemma CanBecomeReady(steps: seq<Step>)
    requires Run(steps).stage == Warm
    ensures exists more :: Run(steps + more).period == Run(steps).period && IsClosed(Run(steps + more), Run(steps).period)
  {
    AlwaysSound(steps);
    AlwaysOnItsWay(steps);
    if IsClosed(Run(steps), Run(steps).period) {
      assert steps + [] == steps;
    } else {
      var more := Reports(steps);
    }
  }

  // ---- Late refreshes ----

  /** The next step can be late exactly when a refresh of an earlier period still runs. */
  lemma NextMayBeLateExactly(steps: seq<Step>)
    requires NoneIsLate(Run(steps))
    ensures (exists step :: !NoneIsLate(Run(steps + [step]))) <==>
            exists g :: g in Run(steps).running && g.job.Refresh? && g.period < Run(steps).period
  {
    AlwaysSound(steps);
    var s := Run(steps);
    if step :| !NoneIsLate(Run(steps + [step])) {
      assert (steps + [step])[..|steps|] == steps;
      assert step.Touch? && step.worker in s.running;
    }
    if g :| g in s.running && g.job.Refresh? && g.period < s.period {
      var step := Touch(g);
      assert (steps + [step])[..|steps|] == steps;
      assert IsLate(Run(steps + [step]).deeds[|s.deeds|]);
    }
  }

  lemma Taken(steps: seq<Step>, was: System, step: Step, s: System)
    requires Run(steps) == was && IsEnabled(was, step) && Take(was, step) == s
    ensures Run(steps + [step]) == s
  {
    assert (steps + [step])[..|steps|] == steps;
  }

  /** A refresh that outlives its period touches the store of the next one. */
  lemma LateExample()
    ensures var (plans, diffs, report) := (Goroutine(0, Plans), Goroutine(0, Diffs), Goroutine(0, Report));
            var refresh := Goroutine(0, Refresh(0));
            !NoneIsLate(Run([Begin(0), Spawn(diffs, 0), Cancel, End(plans), End(diffs), End(report),
                             Wait, Reset, Touch(refresh)]))
  {
    hide Run;
    var (plans, diffs, report) := (Goroutine(0, Plans), Goroutine(0, Diffs), Goroutine(0, Report));
    var refresh := Goroutine(0, Refresh(0));
    var cancelled := System(0, Cancelled, 0, {}, 0, {plans, diffs, report, refresh}, []);
    var waited := System(0, Waited, 0, {}, 0, {refresh}, []);
    var steps := [Begin(0), Spawn(diffs, 0), Cancel];
    CancelledExample(steps);
    Taken(steps, cancelled, End(plans), cancelled.(running := {diffs, report, refresh}));
    steps := steps + [End(plans)];
    Taken(steps, cancelled.(running := {diffs, report, refresh}), End(diffs), cancelled.(running := {report, refresh}));
    steps := steps + [End(diffs)];
    Taken(steps, cancelled.(running := {report, refresh}), End(report), cancelled.(running := {refresh}));
    steps := steps + [End(report)];
    Taken(steps, cancelled.(running := {refresh}), Wait, waited);
    steps := steps + [Wait];
    var cold := System(1, Cold, 0, {}, 0, {refresh}, [Replaced(0, {refresh})]);
    Taken(steps, waited, Reset, cold);
    steps := steps + [Reset];
    var late := cold.(deeds := cold.deeds + [Touched(1, refresh)]);
    Taken(steps, cold, Touch(refresh), late);
    assert steps + [Touch(refresh)] == [Begin(0), Spawn(diffs, 0), Cancel, End(plans), End(diffs), End(report),
                                        Wait, Reset, Touch(refresh)];
    assert IsLate(late.deeds[1]);
  }

  lemma StartExample()
    ensures Run([]) == START && Group(0, 0) == {Goroutine(0, Plans), Goroutine(0, Diffs), Goroutine(0, Report)}
  {
    assert Loaders(0, 0) == {};
  }

  lemma CancelledExample(steps: seq<Step>)
    requires steps == [Begin(0), Spawn(Goroutine(0, Diffs), 0), Cancel]
    ensures Run(steps) == System(0, Cancelled, 0, {}, 0,
                                 {Goroutine(0, Plans), Goroutine(0, Diffs), Goroutine(0, Report),
                                  Goroutine(0, Refresh(0))}, [])
  {
    hide Run, Group;
    var (plans, diffs, report) := (Goroutine(0, Plans), Goroutine(0, Diffs), Goroutine(0, Report));
    var warm := System(0, Warm, 0, {}, 0, {plans, diffs, report}, []);
    StartExample();
    var spawned := warm.(running := {plans, diffs, report, Goroutine(0, Refresh(0))});
    Taken([], START, Begin(0), warm);
    assert [] + [Begin(0)] == [Begin(0)];
    Taken([Begin(0)], warm, Spawn(diffs, 0), spawned);
    assert [Begin(0)] + [Spawn(diffs, 0)] == [Begin(0), Spawn(diffs, 0)];
    Taken([Begin(0), Spawn(diffs, 0)], spawned, Cancel, spawned.(stage := Cancelled));
    assert steps == [Begin(0), Spawn(diffs, 0)] + [Cancel];
  }
}
