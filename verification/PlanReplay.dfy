/** Re-ingesting a plan history in memory: no directory, every edit dated. */
module PlanReplay {
  import opened Types
  import opened Plans

  /** One plan turn: the edit, and whether plan mode had been left when it arrived. */
  datatype PlanTurn = PlanTurn(edit: Edit, planExitSeen: bool)

  function Run(state: PlanState, agent: Agent, history: seq<PlanTurn>, now: Time): PlanState {
    if history == [] then state
    else
      var last := history[|history| - 1];
      SetPlanContent(Run(state, agent, history[..|history| - 1], now), agent, last.planExitSeen, last.edit, now)
  }

  const START := PlanState(EMPTY_BOOK, None, [])

  ghost predicate Dated(history: seq<PlanTurn>) {
    forall i :: 0 <= i < |history| ==> history[i].edit.timestamp > 0
  }

  ghost predicate StrictlyLater(history: seq<PlanTurn>) {
    && Dated(history)
    && (forall i :: 0 <= i < |history| ==> history[i].edit.content != "")
    && (forall i, j :: 0 <= i < j < |history| ==> history[i].edit.timestamp < history[j].edit.timestamp)
  }

  /** How many edits change the content. */
  function Changes(history: seq<PlanTurn>): nat {
    if history == [] then 0
    else Changes(history[..|history| - 1]) + if ChangesAt(history, |history| - 1) then 1 else 0
  }

  predicate ChangesAt(history: seq<PlanTurn>, i: nat)
    requires i < |history|
  {
    i == 0 || history[i].edit.content != history[i - 1].edit.content
  }

  function LastRevision(book: PlanBook): PlanRevision
    requires book.revisions != []
  {
    book.revisions[|book.revisions| - 1]
  }

  // ---- Recorded times ----

  ghost predicate TimesIncrease(revisions: seq<PlanRevision>) {
    forall i, j :: 0 <= i < j < |revisions| ==> revisions[i].timestamp < revisions[j].timestamp
  }

  /** Recorded times strictly increase whatever order dated edits arrive in. */
  lemma {:induction false} RecordedTimesIncrease(agent: Agent, history: seq<PlanTurn>, now: Time)
    requires Dated(history)
    ensures var r := Run(START, agent, history, now); r.disk == None && TimesIncrease(r.book.revisions)
    ensures var book := Run(START, agent, history, now).book; book.revisions == [] ==> book.content == ""
  {
    if history != [] {
      RecordedTimesIncrease(agent, history[..|history| - 1], now);
    }
  }

  // ---- One edit in memory ----

  /** A plan that is new to a session without a directory: the first in full, later ones as diffs numbered on, dated by the
      clock if they carry no time, and announced; beyond fifty they are only announced. */
  lemma NewEditIs(state: PlanState, agent: Agent, planExitSeen: bool, edit: Edit, now: Time)
    requires state.disk == None && edit.content != "" && edit.content != state.book.content
    requires var kept := state.book.revisions;
             edit.timestamp == 0 || kept == [] || edit.timestamp > kept[|kept| - 1].timestamp
    ensures var (r, kept) := (SetPlanContent(state, agent, planExitSeen, edit, now), state.book.revisions);
            var time := if edit.timestamp == 0 then now else edit.timestamp;
            var next := if kept == [] then 0 else kept[|kept| - 1].index + 1;
            var isAlteration := if agent == Codex then kept != [] else planExitSeen;
            && r.book.content == edit.content && r.disk == None
            && (state.book.content == "" ==>
                  r.book.revisions == kept + [PlanRevision(Whole(edit.content), 0, false, time)] && r.events == state.events)
            && (state.book.content != "" ==>
                  && r.book.revisions ==
                     kept + (if |kept| < 50 then [PlanRevision(Diff(edit.content, state.book.content), next,
                         isAlteration, time)]
                             else [])
                  && r.events == state.events + [BareEvent(PlanRevised, time).(plan := Some(PlanPayload(next)))])
  {
    var synced := Synced(state);
    assert synced == state && !DiskHolds(state.disk, edit.content);
  }

  // ---- Alterations ----

  /** Whether each change of a history is an alteration: never the first, then all of Codex's, and Claude's once plan mode
      was left. */
  function Alterations(agent: Agent, history: seq<PlanTurn>): seq<bool> {
    if history == [] then []
    else
      var before, last := Alterations(agent, history[..|history| - 1]), history[|history| - 1];
      if !ChangesAt(history, |history| - 1) then before
      else before + [before != [] && (agent == Codex || last.planExitSeen)]
  }

  function CountTrue(flags: seq<bool>): nat {
    if flags == [] then 0 else CountTrue(flags[..|flags| - 1]) + if flags[|flags| - 1] then 1 else 0
  }

  lemma CountTrueSnoc(flags: seq<bool>, flag: bool)
    ensures CountTrue(flags + [flag]) == CountTrue(flags) + if flag then 1 else 0
  {
    assert (flags + [flag])[..|flags|] == flags;
  }

  /** The revisions are the first fifty changes, numbered and flagged; alterations are counted beyond them. */
  ghost predicate IsFlagged(book: PlanBook, flags: seq<bool>) {
    && |book.revisions| == (if |flags| < 50 then |flags| else 50)
    && (forall i :: 0 <= i < |book.revisions| ==> book.revisions[i].index == i && book.revisions[i].isAlteration == flags[i])
    && book.alterations == CountTrue(flags)
  }

  lemma EditFlags(state: PlanState, agent: Agent, turn: PlanTurn, flags: seq<bool>, now: Time)
    requires state.disk == None && IsFlagged(state.book, flags) && turn.edit.timestamp > 0 && turn.edit.content != ""
    requires state.book.content == "" <==> flags == []
    requires turn.edit.content != state.book.content && !state.book.IsReplay(turn.edit.timestamp)
    ensures IsFlagged(SetPlanContent(state, agent, turn.planExitSeen, turn.edit, now).book,
                      flags + [flags != [] && (agent == Codex || turn.planExitSeen)])
  {
    hide CountTrue;
    CountTrueSnoc(flags, flags != [] && (agent == Codex || turn.planExitSeen));
    NothingCounted();
  }

  lemma NothingCounted()
    ensures CountTrue([]) == 0
  {
  }

  /** In every pass over later and later edits each change is a revision while there is room, and an alteration exactly
      when it is Codex's and not the first, or Claude's, not the first, and plan mode had been left. */
  lemma {:induction false} ChangesAreFlagged(agent: Agent, history: seq<PlanTurn>, now: Time)
    requires StrictlyLater(history)
    ensures IsFlagged(Run(START, agent, history, now).book, Alterations(agent, history))
    ensures Alterations(agent, history) == [] <==> history == []
  {
    hide SetPlanContent, IsFlagged;
    if history == [] {
      NothingFlagged();
    } else {
      var before, last := history[..|history| - 1], history[|history| - 1];
      ChangesAreFlagged(agent, before, now);
      RecordedTimesIncrease(agent, before, now);
      if before == [] {
        EditFlags(START, agent, last, [], now);
      } else {
        var at, over := FirstPass(agent, before, now);
        var state := Run(START, agent, before, now);
        assert before[|before| - 1] == history[|history| - 2];
        assert LastRevision(state.book).timestamp < last.edit.timestamp;
        if ChangesAt(history, |history| - 1) {
          EditFlags(state, agent, last, Alterations(agent, before), now);
        } else {
          Unchanged(agent, state, history, at, over, now);
        }
      }
    }
  }

  lemma NothingFlagged()
    ensures IsFlagged(START.book, [])
  {
  }

  // ---- The first pass ----

  /** `at` is the last edit that was recorded; up to `over`, the first change there was no room for,
      the content stayed the same. */
  ghost predicate RecordedUpTo(book: PlanBook, history: seq<PlanTurn>, at: nat, over: nat) {
    && at < over <= |history| && book.revisions != []
    && LastRevision(book).timestamp == history[at].edit.timestamp
    && (forall i :: at <= i < over ==> history[i].edit.content == history[at].edit.content)
    && (over < |history| ==> ChangesAt(history, over))
    && (over < |history| <==> Changes(history) > MAX_PLAN_REVISIONS)
  }

  ghost predicate Recorded(state: PlanState, history: seq<PlanTurn>, at: nat, over: nat)
    requires history != []
  {
    && state.disk == None
    && state.book.content == history[|history| - 1].edit.content
    && |state.book.revisions| == (if over < |history| then MAX_PLAN_REVISIONS else Changes(history))
    && RecordedUpTo(state.book, history, at, over)
  }

  lemma Unchanged(agent: Agent, state: PlanState, history: seq<PlanTurn>, at: nat, over: nat, now: Time)
    requires |history| > 1 && Recorded(state, history[..|history| - 1], at, over)
    requires !ChangesAt(history, |history| - 1)
    ensures var last := history[|history| - 1];
            SetPlanContent(state, agent, last.planExitSeen, last.edit, now) == state
    ensures Recorded(state, history, at, if over == |history| - 1 then |history| else over)
  {
    var before := history[..|history| - 1];
    assert before[|before| - 1] == history[|history| - 2];
    assert over < |before| ==> ChangesAt(before, over);
  }

  lemma Changed(agent: Agent, state: PlanState, history: seq<PlanTurn>, at: nat, over: nat,
                now: Time) returns (at': nat, over': nat)
    requires |history| > 1 && StrictlyLater(history) && Recorded(state, history[..|history| - 1], at, over)
    requires ChangesAt(history, |history| - 1)
    ensures var last := history[|history| - 1];
            Recorded(SetPlanContent(state, agent, last.planExitSeen, last.edit, now), history, at', over')
  {
    var before, last := history[..|history| - 1], history[|history| - 1];
    assert before[|before| - 1] == history[|history| - 2];
    assert history[at].edit.timestamp < last.edit.timestamp;
    assert !state.book.IsReplay(last.edit.timestamp);
    if Changes(before) < MAX_PLAN_REVISIONS {
      at', over' := |history| - 1, |history|;
    } else {
      at', over' := at, over;
      assert over < |before| ==> ChangesAt(before, over);
    }
  }

  lemma {:induction false} FirstPass(agent: Agent, history: seq<PlanTurn>, now: Time) returns (at: nat, over: nat)
    requires StrictlyLater(history) && history != []
    ensures Recorded(Run(START, agent, history, now), history, at, over)
  {
    var before := history[..|history| - 1];
    if before == [] {
      at, over := 0, 1;
      assert Run(START, agent, before, now) == START;
    } else {
      at, over := FirstPass(agent, before, now);
      var state := Run(START, agent, before, now);
      if ChangesAt(history, |history| - 1) {
        at, over := Changed(agent, state, history, at, over, now);
      } else {
        Unchanged(agent, state, history, at, over, now);
        over := if over == |history| - 1 then |history| else over;
      }
    }
  }

  // ---- The second pass ----

  /** One replayed edit moves the content and nothing else: it is old, or it changes nothing. */
  lemma ReplayOne(book: PlanBook, agent: Agent, history: seq<PlanTurn>, at: nat, over: nat, n: nat, content: string,
                  events: seq<Event>, now: Time)
    requires StrictlyLater(history) && RecordedUpTo(book, history, at, over) && n < over
    requires n > 0 ==> content == history[n - 1].edit.content
    ensures var last := history[n];
            SetPlanContent(PlanState(book.(content := content), None, events), agent, last.planExitSeen, last.edit, now) ==
            PlanState(book.(content := last.edit.content), None, events)
  {
    hide Taken;
    assert n < at ==> history[n].edit.timestamp < history[at].edit.timestamp;
    assert n > at ==> history[n].edit.content == history[at].edit.content == history[n - 1].edit.content;
  }

  /** Replaying a history over its own book: up to `over` only the content moves. */
  lemma {:induction false} ReplayPass(book: PlanBook, agent: Agent, history: seq<PlanTurn>, at: nat, over: nat, n: nat,
                                      events: seq<Event>, now: Time)
    requires StrictlyLater(history) && RecordedUpTo(book, history, at, over) && n <= over
    ensures var content := if n == 0 then book.content else history[n - 1].edit.content;
            Run(PlanState(book, None, events), agent, history[..n], now) == PlanState(book.(content := content), None, events)
  {
    hide SetPlanContent, StrictlyLater;
    if n > 0 {
      assert history[..n][..n - 1] == history[..n - 1];
      ReplayPass(book, agent, history, at, over, n - 1, events, now);
      var content := if n == 1 then book.content else history[n - 2].edit.content;
      ReplayOne(book, agent, history, at, over, n - 1, content, events, now);
    }
  }

  lemma {:induction false} EventsOnlyGrow(state: PlanState, agent: Agent, history: seq<PlanTurn>, n: nat, now: Time)
    requires state.disk == None && n <= |history|
    ensures Run(state, agent, history, now).disk == None
    ensures |Run(state, agent, history[..n], now).events| <= |Run(state, agent, history, now).events|
  {
    if history != [] {
      if n == |history| { assert history[..n] == history; }
      EventsOnlyGrow(state, agent, history[..|history| - 1], if n == |history| then n - 1 else n, now);
      if n < |history| { assert history[..|history| - 1][..n] == history[..n]; }
    }
  }

  /** The first change there was no room for is recorded as a revision again. */
  lemma OverflowRecordsAgain(state: PlanState, agent: Agent, history: seq<PlanTurn>, over: nat, now: Time)
    requires 0 < over < |history| && StrictlyLater(history) && ChangesAt(history, over)
    requires var r := Run(state, agent, history[..over], now);
             && r.disk == None && r.book.content == history[over - 1].edit.content
             && !r.book.IsReplay(history[over].edit.timestamp)
    ensures |Run(state, agent, history[..over + 1], now).events| > |Run(state, agent, history[..over], now).events|
  {
    assert history[..over + 1][..over] == history[..over];
  }

  lemma ReplayUpTo(once: PlanState, agent: Agent, history: seq<PlanTurn>, at: nat, over: nat, now: Time)
    requires StrictlyLater(history) && once.disk == None && RecordedUpTo(once.book, history, at, over)
    ensures Run(once, agent, history[..over], now) == once.(book := once.book.(content := history[over - 1].edit.content))
  {
    assert PlanState(once.book, None, once.events) == once;
    ReplayPass(once.book, agent, history, at, over, over, once.events, now);
  }

  lemma ReplayAll(once: PlanState, agent: Agent, history: seq<PlanTurn>, at: nat, now: Time)
    requires StrictlyLater(history) && history != [] && Recorded(once, history, at, |history|)
    ensures Run(once, agent, history, now) == once
  {
    ReplayUpTo(once, agent, history, at, |history|, now);
    assert history[..|history|] == history;
  }

  lemma ReplayOverflows(once: PlanState, agent: Agent, history: seq<PlanTurn>, at: nat, over: nat, now: Time)
    requires StrictlyLater(history) && over < |history| && Recorded(once, history, at, over)
    ensures |Run(once, agent, history, now).events| > |once.events|
  {
    ReplayUpTo(once, agent, history, at, over, now);
    assert history[at].edit.timestamp < history[over].edit.timestamp;
    OverflowRecordsAgain(once, agent, history, over, now);
    EventsOnlyGrow(once, agent, history, over + 1, now);
  }

  /** Re-ingesting a whole history leaves everything as it was exactly when the history changed the plan
      at most 50 times; one change more and the replay records a revision again. */
  lemma ReplayIsIdempotentExactly(agent: Agent, history: seq<PlanTurn>, now: Time)
    requires StrictlyLater(history)
    ensures var once := Run(START, agent, history, now);
            Run(once, agent, history, now) == once <==> Changes(history) <= 50
  {
    if history != [] {
      var at, over := FirstPass(agent, history, now);
      var once := Run(START, agent, history, now);
      if over == |history| {
        ReplayAll(once, agent, history, at, now);
      } else {
        ReplayOverflows(once, agent, history, at, over, now);
      }
    }
  }

  /** Two contents in turn. */
  function Alternating(n: nat): seq<PlanTurn> {
    seq(n, i requires 0 <= i < n => PlanTurn(Edit(if i % 2 == 0 then "a" else "b", i + 1), false))
  }

  lemma AlternatingIsLater(n: nat)
    ensures StrictlyLater(Alternating(n))
  {
  }

  lemma AlternatingFront(n: nat)
    ensures |Alternating(n)| == n
    ensures n > 0 ==> Alternating(n)[..n - 1] == Alternating(n - 1) && ChangesAt(Alternating(n), n - 1)
  {
  }

  lemma {:induction false} AlternatingChanges(n: nat)
    ensures Changes(Alternating(n)) == n
  {
    hide Alternating, ChangesAt;
    AlternatingFront(n);
    if n > 0 { AlternatingChanges(n - 1); }
  }

  /** Fifty changes replay to the same state, fifty-one do not. */
  lemma FiftyOneExample(agent: Agent, now: Time)
    ensures var once := Run(START, agent, Alternating(50), now); Run(once, agent, Alternating(50), now) == once
    ensures var once := Run(START, agent, Alternating(51), now); Run(once, agent, Alternating(51), now) != once
  {
    hide Run, Alternating;
    AlternatingIsLater(50);
    AlternatingIsLater(51);
    AlternatingChanges(50);
    AlternatingChanges(51);
    ReplayIsIdempotentExactly(agent, Alternating(50), now);
    ReplayIsIdempotentExactly(agent, Alternating(51), now);
  }
}
