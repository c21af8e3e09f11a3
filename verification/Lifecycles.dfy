/** Warm and cold (tools/lifecycle.go, tools/tools.go): calls in flight, and keepalive timers that may fire late.
    Every method holds the mutex, so each is one atomic step. */
module Lifecycles {
  import opened Types

  /** What happened to the instance: it was warmed with a window, or cooled, by a timer or to be widened. */
  datatype Transition = Warmed(window: nat) | Cooled(callsInFlight: nat, isExpiry: bool)

  /** An instance and the world around it: `pending` has the generations of the timers that may still fire, stopped
      ones among them, `timer` that of the last one; `widening` calls are between widening and acquiring. */
  datatype State = State(generation: nat, inFlight: nat, isWarm: bool, timer: Option<nat>, window: nat,
                         pending: set<nat>, widening: nat, history: seq<Transition>)

  // ---- The steps ----

  function WarmedUp(s: State): State { s.(isWarm := true, history := s.history + [Warmed(s.window)]) }

  function Cool(s: State, isExpiry: bool): State {
    s.(isWarm := false, history := s.history + [Cooled(s.inFlight, isExpiry)])
  }

  function Started(keepalive: nat, window: nat): State {
    var cold := State(0, 0, false, None, window, {}, 0, []);
    if keepalive > 0 then cold else WarmedUp(cold)
  }

  function Acquired(s: State, isWidened: bool, isStopped: bool): State
    requires isWidened ==> s.widening > 0
  {
    var counted := s.(inFlight := s.inFlight + 1, generation := s.generation + 1,
                      pending := if s.timer.Some? && isStopped then s.pending - {s.timer.value} else s.pending,
                      widening := if isWidened then s.widening - 1 else s.widening);
    if s.isWarm then counted else WarmedUp(counted)
  }

  function Released(s: State, keepalive: nat): State
    requires s.inFlight > 0
  {
    var fewer := s.(inFlight := s.inFlight - 1);
    if fewer.inFlight > 0 || keepalive == 0 then fewer
    else fewer.(timer := Some(s.generation), pending := s.pending + {s.generation})
  }

  function Widened(s: State, window: nat): State {
    var asked := s.(widening := s.widening + 1);
    if !(0 < s.window < window) then asked
    else
      var wider := asked.(window := window);
      WarmedUp(if s.isWarm then Cool(wider, false) else wider)
  }

  function Fired(s: State, generation: nat): State {
    var past := s.(pending := s.pending - {generation});
    if generation != s.generation || !s.isWarm then past else Cool(past, true)
  }

  /** One step of any goroutine: a call begins (after widening or not), ends or widens, or a timer fires. */
  datatype Step = Begin(isWidened: bool, isStopped: bool) | End | Wider(window: nat) | Fire(generation: nat)

  /** A call that ends has begun, and a timer that fires was started. */
  predicate IsEnabled(s: State, step: Step) {
    match step
    case Begin(isWidened, _) => isWidened ==> s.widening > 0
    case End => s.inFlight > 0
    case Wider(_) => true
    case Fire(generation) => generation in s.pending
  }

  function Next(s: State, keepalive: nat, step: Step): State
    requires IsEnabled(s, step)
  {
    match step
    case Begin(isWidened, isStopped) => Acquired(s, isWidened, isStopped)
    case End => Released(s, keepalive)
    case Wider(window) => Widened(s, window)
    case Fire(generation) => Fired(s, generation)
  }

  /** The state a schedule leaves; steps that are not enabled are skipped. */
  function After(keepalive: nat, window: nat, steps: seq<Step>): State {
    if steps == [] then Started(keepalive, window)
    else
      var before, step := After(keepalive, window, steps[..|steps| - 1]), steps[|steps| - 1];
      if IsEnabled(before, step) then Next(before, keepalive, step) else before
  }

  // ---- What always holds ----

  /** Warming and cooling take turns, warming first. */
  ghost predicate Alternates(history: seq<Transition>) {
    forall i :: 0 <= i < |history| ==> (history[i].Warmed? <==> i % 2 == 0)
  }

  /** No timer ever cooled the instance under a call. */
  ghost predicate NeverUnderACall(history: seq<Transition>) {
    forall i :: 0 <= i < |history| && history[i].Cooled? && history[i].isExpiry ==> history[i].callsInFlight == 0
  }

  /** The current generation's timer is still to fire. */
  predicate IsTimed(s: State) { s.generation in s.pending && s.timer == Some(s.generation) }

  ghost predicate Safe(s: State, keepalive: nat) {
    && (forall g :: g in s.pending ==> g <= s.generation)
    && (s.timer.Some? ==> s.timer.value <= s.generation)
    && (s.inFlight > 0 ==> s.isWarm && s.generation !in s.pending)
    && (s.isWarm && s.inFlight == 0 && keepalive > 0 ==> IsTimed(s) || s.widening > 0)
    && (keepalive == 0 ==> s.pending == {} && s.isWarm)
    && Alternates(s.history) && NeverUnderACall(s.history)
    && (s.isWarm <==> |s.history| % 2 == 1)
    && (s.isWarm ==> s.history[|s.history| - 1] == Warmed(s.window))
  }

  lemma StepIsSafe(s: State, keepalive: nat, step: Step)
    requires Safe(s, keepalive) && IsEnabled(s, step)
    ensures Safe(Next(s, keepalive, step), keepalive)
  {
    hide Alternates, NeverUnderACall;
    var cooled := s.history + [Cooled(s.inFlight, step.Fire?)];
    if s.isWarm {
      if step.Wider? || (step.Fire? && step.generation == s.generation) {
        CoolingKeeps(s.history, s.inFlight, step.Fire?);
        if step.Wider? { WarmingKeeps(cooled, step.window); }
      }
    } else {
      WarmingKeeps(s.history, if step.Wider? then step.window else s.window);
    }
  }

  lemma WarmingKeeps(history: seq<Transition>, window: nat)
    requires Alternates(history) && NeverUnderACall(history) && |history| % 2 == 0
    ensures Alternates(history + [Warmed(window)]) && NeverUnderACall(history + [Warmed(window)])
  {
  }

  lemma CoolingKeeps(history: seq<Transition>, inFlight: nat, isExpiry: bool)
    requires Alternates(history) && NeverUnderACall(history) && |history| % 2 == 1 && (isExpiry ==> inFlight == 0)
    ensures Alternates(history + [Cooled(inFlight, isExpiry)]) && NeverUnderACall(history + [Cooled(inFlight, isExpiry)])
  {
  }

  /** For every schedule of calls, widenings and timers, late ones included: a timer of the current generation means
      no call is in flight, so no expiry is ever under a call; warming and cooling alternate; without keepalive the
      instance is always warm, and with it a warm idle one has a live timer unless a widened call is on its way. */
  lemma {:induction false} AlwaysSafe(keepalive: nat, window: nat, steps: seq<Step>)
    ensures Safe(After(keepalive, window, steps), keepalive)
  {
    if steps != [] {
      var before, step := After(keepalive, window, steps[..|steps| - 1]), steps[|steps| - 1];
      AlwaysSafe(keepalive, window, steps[..|steps| - 1]);
      if IsEnabled(before, step) {
        StepIsSafe(before, keepalive, step);
      }
    }
  }

  lemma SafeIsWarm(s: State, keepalive: nat)
    requires Safe(s, keepalive)
    ensures s.inFlight > 0 ==> s.isWarm
    ensures s.isWarm ==> s.history != [] && s.history[|s.history| - 1] == Warmed(s.window)
  {
  }

  /** The calls begun and not yet ended. */
  function CallsOpen(keepalive: nat, window: nat, steps: seq<Step>): nat {
    if steps == [] then 0
    else
      var front, step := steps[..|steps| - 1], steps[|steps| - 1];
      var open := CallsOpen(keepalive, window, front);
      if step.Begin? && IsEnabled(After(keepalive, window, front), step) then open + 1
      else if step.End? && open > 0 then open - 1
      else open
  }

  /** The widest window asked for; a window of 0 is already unbounded. */
  function Widest(window: nat, steps: seq<Step>): (r: nat)
    ensures r >= window
  {
    if steps == [] || window == 0 then window
    else
      var widest, step := Widest(window, steps[..|steps| - 1]), steps[|steps| - 1];
      if step.Wider? && step.window > widest then step.window else widest
  }

  /** While a call is open the instance is warm, and it is warm with the widest window asked for so far. */
  lemma {:induction false} CallsFindItWarm(keepalive: nat, window: nat, steps: seq<Step>)
    ensures var s := After(keepalive, window, steps);
            && s.inFlight == CallsOpen(keepalive, window, steps) && s.window == Widest(window, steps)
            && (CallsOpen(keepalive, window, steps) > 0 ==> s.isWarm)
            && (s.isWarm ==> s.history != [] && s.history[|s.history| - 1] == Warmed(Widest(window, steps)))
  {
    hide Safe;
    if steps != [] {
      CallsFindItWarm(keepalive, window, steps[..|steps| - 1]);
    }
    AlwaysSafe(keepalive, window, steps);
    SafeIsWarm(After(keepalive, window, steps), keepalive);
  }

  /** How many calls have begun. */
  function CallsBegun(keepalive: nat, window: nat, steps: seq<Step>): nat {
    if steps == [] then 0
    else
      var front, step := steps[..|steps| - 1], steps[|steps| - 1];
      CallsBegun(keepalive, window, front)
      + if step.Begin? && IsEnabled(After(keepalive, window, front), step) then 1 else 0
  }

  /** The generation is the number of calls begun, so a timer is current while no call has begun since its own. */
  lemma {:induction false} GenerationCountsCalls(keepalive: nat, window: nat, steps: seq<Step>)
    ensures After(keepalive, window, steps).generation == CallsBegun(keepalive, window, steps)
  {
    if steps != [] { GenerationCountsCalls(keepalive, window, steps[..|steps| - 1]); }
  }

  /** After any schedule a timer that fires is gone; it cools the instance exactly when it was warm and no call has
      begun since the timer was started, and changes nothing else. */
  lemma FiringCoolsExactly(keepalive: nat, window: nat, steps: seq<Step>, generation: nat)
    requires generation in After(keepalive, window, steps).pending
    ensures var s := After(keepalive, window, steps);
            var after := After(keepalive, window, steps + [Fire(generation)]);
            && (!after.isWarm <==> !s.isWarm || generation == CallsBegun(keepalive, window, steps))
            && after.pending == s.pending - {generation} && after.inFlight == s.inFlight
            && after.generation == s.generation && after.timer == s.timer
            && after.window == s.window && after.widening == s.widening
            && (s.isWarm == after.isWarm ==> after.history == s.history)
            && (s.isWarm != after.isWarm ==> after.history == s.history + [Cooled(0, true)])
  {
    hide Safe;
    assert (steps + [Fire(generation)])[..|steps|] == steps;
    GenerationCountsCalls(keepalive, window, steps);
    AlwaysSafe(keepalive, window, steps);
    CurrentIsIdle(After(keepalive, window, steps), keepalive);
  }

  lemma CurrentIsIdle(s: State, keepalive: nat)
    requires Safe(s, keepalive)
    ensures s.generation in s.pending ==> s.inFlight == 0
  {
  }

  /** One call, and the keepalive over: the instance is cold again. */
  lemma ExpiryExample()
    ensures var s := After(5, 0, [Begin(false, true), End, Fire(1)]);
            !s.isWarm && s.pending == {} && s.history == [Warmed(0), Cooled(0, true)]
  {
    var steps := [Begin(false, true), End, Fire(1)];
    assert steps[..2][..1] == [Begin(false, true)] && steps[..2] == [Begin(false, true), End];
    assert [Begin(false, true)][..0] == [];
    assert steps[..1] == [Begin(false, true)];
    assert After(5, 0, steps[..1]) == State(1, 1, true, None, 0, {}, 0, [Warmed(0)]);
    assert After(5, 0, steps[..2]) == State(1, 0, true, Some(1), 0, {1}, 0, [Warmed(0)]);
  }

  // ---- The object ----

  class Lifecycle {
    const keepalive: nat
    var generation: nat
    var inFlight: nat
    var isWarm: bool
    /** The generation of the last timer. */
    var timer: Option<nat>
    var window: nat

    /** The world around. */
    var pending: set<nat>
    var widening: nat

    ghost var history: seq<Transition>

    ghost function View(): State
      reads this
    {
      State(generation, inFlight, isWarm, timer, window, pending, widening, history)
    }

    constructor (keepalive: nat, window: nat)
      ensures View() == State(0, 0, false, None, window, {}, 0, []) && this.keepalive == keepalive
    {
      this.keepalive, this.window := keepalive, window;
      generation, inFlight, isWarm, timer := 0, 0, false, None;
      pending, widening, history := {}, 0, [];
    }

    method CoolDown(ghost isExpiry: bool)
      modifies this`isWarm, this`history
      ensures View() == Cool(old(View()), isExpiry)
    {
      history := history + [Cooled(inFlight, isExpiry)];
      isWarm := false;
    }

    /** A keepalive timer fires, if need be long after it was stopped. */
    method Expire(generation: nat)
      modifies this`isWarm, this`pending, this`history
      ensures View() == Fired(old(View()), generation)
      ensures isWarm == (old(isWarm) && generation != this.generation) && pending == old(pending) - {generation}
      ensures history == if isWarm == old(isWarm) then old(history) else old(history) + [Cooled(inFlight, true)]
      ensures Safe(old(View()), keepalive) && generation in old(pending) && old(inFlight) > 0 ==> isWarm
    {
      pending := pending - {generation};
      var isStale := generation != this.generation || !isWarm;
      if isStale {
        return;
      }
      CoolDown(true);
    }

    method WarmUp()
      modifies this`isWarm, this`history
      ensures View() == WarmedUp(old(View()))
    {
      isWarm := true;
      history := history + [Warmed(window)];
    }

    /** Stopping a timer may come too late: then it fires all the same. */
    method Acquire(isWidened: bool, isStopped: bool)
      requires isWidened ==> widening > 0
      modifies this
      ensures View() == Acquired(old(View()), isWidened, isStopped)
      ensures isWarm && inFlight == old(inFlight) + 1 && generation == old(generation) + 1 && timer == old(timer)
      ensures pending == if isStopped && timer.Some? then old(pending) - {timer.value} else old(pending)
      ensures history == if old(isWarm) then old(history) else old(history) + [Warmed(window)]
      ensures Safe(old(View()), keepalive) ==> forall g :: g in pending ==> g < generation
    {
      inFlight := inFlight + 1;
      generation := generation + 1;
      if timer.Some? {
        pending := if isStopped then pending - {timer.value} else pending;
      }
      widening := if isWidened then widening - 1 else widening;
      if !isWarm {
        WarmUp();
      }
    }

    method Release()
      requires inFlight > 0
      modifies this`inFlight, this`timer, this`pending
      ensures View() == Released(old(View()), keepalive)
      ensures inFlight == old(inFlight) - 1 && isWarm == old(isWarm) && history == old(history)
      ensures if inFlight == 0 && keepalive > 0 then timer == Some(generation) && pending == old(pending) + {generation}
              else timer == old(timer) && pending == old(pending)
    {
      inFlight := inFlight - 1;
      var isIdle := inFlight == 0 && keepalive > 0;
      if !isIdle {
        return;
      }
      timer := Some(generation);
      pending := pending + {generation};
    }

    /** Called once, before any call. */
    method Start()
      requires View() == State(0, 0, false, None, window, {}, 0, [])
      modifies this`isWarm, this`history
      ensures View() == Started(keepalive, window) && isWarm == (keepalive == 0)
    {
      if keepalive > 0 {
        return;
      }
      WarmUp();
    }

    /** Reloads with a wider window, under whatever calls are in flight. */
    method Widen(window: nat)
      modifies this`window, this`isWarm, this`history, this`widening
      ensures View() == Widened(old(View()), window)
      ensures var isWider := 0 < old(this.window) < window;
              && this.window == (if isWider then window else old(this.window)) && widening == old(widening) + 1
              && isWarm == (isWider || old(isWarm))
              && history == old(history) + if !isWider then [] else
                   (if old(isWarm) then [Cooled(inFlight, false)] else []) + [Warmed(window)]
    {
      widening := widening + 1;
      var isWider := this.window > 0 && window > this.window;
      if !isWider {
        return;
      }
      this.window := window;
      if isWarm {
        isWarm := false;
        history := history + [Cooled(inFlight, false)];
      }
      WarmUp();
    }
  }

  /** Any schedule, taken by the object: it ends in the schedule's state, which is safe. */
  method Run(keepalive: nat, window: nat, steps: seq<Step>) returns (l: Lifecycle)
    ensures l.keepalive == keepalive && l.View() == After(keepalive, window, steps) && Safe(l.View(), keepalive)
  {
    l := new Lifecycle(keepalive, window);
    l.Start();
    for i := 0 to |steps|
      invariant fresh(l) && l.keepalive == keepalive && l.View() == After(keepalive, window, steps[..i])
    {
      assert steps[..i + 1][..i] == steps[..i];
      match steps[i]
      case Begin(isWidened, isStopped) =>
        if isWidened ==> l.widening > 0 {
          l.Acquire(isWidened, isStopped);
        }
      case End =>
        if l.inFlight > 0 {
          l.Release();
        }
      case Wider(window) =>
        l.Widen(window);
      case Fire(generation) =>
        if generation in l.pending {
          l.Expire(generation);
        }
    }
    assert steps[..|steps|] == steps;
    AlwaysSafe(keepalive, window, steps);
  }
}
