/** Turn grouping: appendTurn merges the chunks of one request, the ring keeps the last finished turns
    (session/turn_buffer.go, session/session.go). */
module TurnBuffers {
  import opened Types

  /** A turn buffer's Validate demands a positive capacity. */
  type Capacity = n: nat | n > 0 witness 1

  /** The value of a turn buffer. */
  datatype Ring = Ring(capacity: Capacity, items: seq<Turn>, pushed: nat, pushedToolOnly: nat) {

    function Push(turn: Turn): Ring {
      var counted := if turn.IsToolOnly() then this.(pushedToolOnly := pushedToolOnly + 1) else this.(pushed := pushed + 1);
      if |items| < capacity then counted.(items := items + [turn])
      else counted.(items := items[1..] + [turn])
    }
  }

  function NewRing(capacity: Capacity): Ring {
    Ring(capacity, [], 0, 0)
  }

  /** One stream of turns: the turn in progress and the finished ones. */
  datatype Scope = Scope(active: Option<Turn>, ring: Ring) {

    function Append(next: Turn): Scope
      ensures Append(next).ring.capacity == ring.capacity
    {
      match active
      case None => Scope(Some(next), ring)
      case Some(turn) =>
        if SameRequest(turn, next) then Scope(Some(Extend(turn, next)), ring)
        else if turn.HasContent() then Scope(Some(next), ring.Push(turn))
        else Scope(Some(next), ring)
    }

    function AppendAll(turns: seq<Turn>): (r: Scope)
      ensures r.ring.capacity == ring.capacity
    {
      if turns == [] then this else AppendAll(turns[..|turns| - 1]).Append(turns[|turns| - 1])
    }

    /** What a read of the whole scope would count, evicted turns included. */
    function Total(): nat { ring.pushed + if active.Some? then 1 else 0 }

    function TotalWithToolCalls(): nat { ring.pushed + ring.pushedToolOnly + if active.Some? then 1 else 0 }

    /** The last `number` turns, the one in progress always included. */
    function LastTurns(number: nat): seq<Turn> { LastOf(Conversational(ring.items) + Current(), number) }

    function LastTurnsWithToolCalls(number: nat): seq<Turn> { LastOf(ring.items + Current(), number) }

    function Current(): seq<Turn> { if active.Some? then [active.value] else [] }
  }

  predicate SameRequest(active: Turn, next: Turn) {
    next.requestId != "" && active.requestId == next.requestId
  }

  function Extend(active: Turn, next: Turn): Turn {
    next.(text := active.text + next.text, thinking := active.thinking + next.thinking,
          toolCalls := active.toolCalls + next.toolCalls)
  }

  function LastOf<T>(s: seq<T>, number: nat): seq<T> {
    if number < |s| then s[|s| - number..] else s
  }

  function Conversational(turns: seq<Turn>): seq<Turn> {
    if turns == [] then []
    else
      var kept := Conversational(turns[..|turns| - 1]);
      if turns[|turns| - 1].IsToolOnly() then kept else kept + [turns[|turns| - 1]]
  }

  // ---- Tool results: IsError on the newest call with the result's id ----

  predicate HasCall(calls: seq<ToolCall>, id: string) {
    exists i :: 0 <= i < |calls| && calls[i].id == id
  }

  function MarkFirst(calls: seq<ToolCall>, result: ToolResult): seq<ToolCall> {
    if calls == [] then []
    else if calls[0].id == result.toolUseId then [calls[0].(isError := result.isError)] + calls[1..]
    else [calls[0]] + MarkFirst(calls[1..], result)
  }

  function MarkTurn(turn: Turn, result: ToolResult): Turn {
    turn.(toolCalls := MarkFirst(turn.toolCalls, result))
  }

  /** The last item that made the call. */
  function MarkNewest(items: seq<Turn>, result: ToolResult): seq<Turn> {
    if items == [] then []
    else
      var last := items[|items| - 1];
      if HasCall(last.toolCalls, result.toolUseId) then items[..|items| - 1] + [MarkTurn(last, result)]
      else MarkNewest(items[..|items| - 1], result) + [last]
  }

  lemma MarkNewestSkips(items: seq<Turn>, index: nat, result: ToolResult)
    requires 0 < index <= |items|
    ensures var last := items[index - 1];
            MarkNewest(items[..index], result) + items[index..] ==
            if HasCall(last.toolCalls, result.toolUseId) then items[index - 1 := MarkTurn(last, result)]
            else MarkNewest(items[..index - 1], result) + items[index - 1..]
  {
    assert items[..index][..index - 1] == items[..index - 1];
  }

  function ApplyResult(scope: Scope, result: ToolResult): Scope {
    if scope.active.Some? && HasCall(scope.active.value.toolCalls, result.toolUseId)
    then scope.(active := Some(MarkTurn(scope.active.value, result)))
    else scope.(ring := scope.ring.(items := MarkNewest(scope.ring.items, result)))
  }

  function ApplyResults(scope: Scope, results: seq<ToolResult>): (r: Scope)
    ensures r.ring.capacity == scope.ring.capacity
  {
    if results == [] then scope
    else ApplyResult(ApplyResults(scope, results[..|results| - 1]), results[|results| - 1])
  }

  /** Exactly the first call with the result's id takes the mark. */
  lemma {:induction false} MarkFirstIs(calls: seq<ToolCall>, result: ToolResult, k: nat)
    requires k < |calls|
    ensures var marked := MarkFirst(calls, result);
            && |marked| == |calls|
            && marked[k] == if calls[k].id == result.toolUseId
                               && (forall i :: 0 <= i < k ==> calls[i].id != result.toolUseId)
                            then calls[k].(isError := result.isError) else calls[k]
  {
    if calls[0].id == result.toolUseId {
    } else if k == 0 {
      MarkFirstLength(calls, result);
    } else {
      MarkFirstIs(calls[1..], result, k - 1);
    }
  }

  lemma {:induction false} MarkFirstLength(calls: seq<ToolCall>, result: ToolResult)
    ensures |MarkFirst(calls, result)| == |calls|
  {
    if calls != [] { MarkFirstLength(calls[1..], result); }
  }

  /** Exactly the last turn that made the call is marked. */
  lemma {:induction false} MarkNewestIs(items: seq<Turn>, result: ToolResult, j: nat)
    requires j < |items|
    ensures var marked := MarkNewest(items, result);
            && |marked| == |items|
            && marked[j] == if HasCall(items[j].toolCalls, result.toolUseId)
                               && (forall i :: j < i < |items| ==> !HasCall(items[i].toolCalls, result.toolUseId))
                            then MarkTurn(items[j], result) else items[j]
  {
    hide HasCall, MarkTurn;
    var n := |items| - 1;
    MarkNewestLength(items[..n], result);
    if j < n && !HasCall(items[n].toolCalls, result.toolUseId) {
      MarkNewestIs(items[..n], result, j);
      assert forall i :: 0 <= i < n ==> items[..n][i] == items[i];
    }
  }

  lemma {:induction false} MarkNewestLength(items: seq<Turn>, result: ToolResult)
    ensures |MarkNewest(items, result)| == |items|
  {
    hide HasCall, MarkTurn;
    if items != [] { MarkNewestLength(items[..|items| - 1], result); }
  }

  /** All turns of a stream, the one in progress last. */
  function AllTurns(scope: Scope): seq<Turn> { scope.ring.items + scope.Current() }

  /** `after` is the turn with its first call of the id marked, or, unless it is marked, the turn itself. */
  ghost predicate IsMarked(turn: Turn, after: Turn, result: ToolResult, isMarked: bool) {
    && after == turn.(toolCalls := after.toolCalls) && |after.toolCalls| == |turn.toolCalls|
    && forall k :: 0 <= k < |turn.toolCalls| ==>
         after.toolCalls[k] ==
         if isMarked && turn.toolCalls[k].id == result.toolUseId
            && (forall i :: 0 <= i < k ==> turn.toolCalls[i].id != result.toolUseId)
         then turn.toolCalls[k].(isError := result.isError) else turn.toolCalls[k]
  }

  lemma MarkedIs(turn: Turn, result: ToolResult)
    ensures IsMarked(turn, MarkTurn(turn, result), result, true)
    ensures IsMarked(turn, turn, result, false)
    ensures !HasCall(turn.toolCalls, result.toolUseId) ==> IsMarked(turn, turn, result, true)
  {
    hide MarkFirst;
    MarkFirstLength(turn.toolCalls, result);
    forall k | 0 <= k < |turn.toolCalls|
      ensures MarkFirst(turn.toolCalls, result)[k] ==
              if turn.toolCalls[k].id == result.toolUseId
                 && (forall i :: 0 <= i < k ==> turn.toolCalls[i].id != result.toolUseId)
              then turn.toolCalls[k].(isError := result.isError) else turn.toolCalls[k]
    {
      MarkFirstIs(turn.toolCalls, result, k);
    }
  }

  /** A result marks the newest turn that made its call, the first such call of it, and changes nothing else of the stream. */
  lemma ResultMarks(scope: Scope, result: ToolResult, j: nat)
    requires j < |AllTurns(scope)|
    ensures var turns, after := AllTurns(scope), ApplyResult(scope, result);
            && |AllTurns(after)| == |turns| && after.ring == scope.ring.(items := after.ring.items)
            && IsMarked(turns[j], AllTurns(after)[j], result,
                        forall i :: j < i < |turns| ==> !HasCall(turns[i].toolCalls, result.toolUseId))
  {
    hide MarkFirst, MarkNewest, MarkTurn, HasCall, IsMarked;
    var turns, n := AllTurns(scope), |scope.ring.items|;
    MarkNewestLength(scope.ring.items, result);
    MarkedIs(turns[j], result);
    if j < n {
      MarkNewestIs(scope.ring.items, result, j);
      assert scope.active.Some? ==> turns[n] == scope.active.value;
      assert forall i :: 0 <= i < n ==> turns[i] == scope.ring.items[i];
    }
  }

  // ---- The declarative reading of a history of chunks ----

  /** Length of the maximal run of chunks, from the front, that share one non-empty request id. */
  function RunLength(history: seq<Turn>): (n: nat)
    requires history != []
    ensures 1 <= n <= |history|
  {
    if |history| > 1 && SameRequest(history[0], history[1]) then 1 + RunLength(history[1..]) else 1
  }

  function Texts(run: seq<Turn>): string { if run == [] then "" else run[0].text + Texts(run[1..]) }

  function Thinkings(run: seq<Turn>): string { if run == [] then "" else run[0].thinking + Thinkings(run[1..]) }

  function Calls(run: seq<Turn>): seq<ToolCall> { if run == [] then [] else run[0].toolCalls + Calls(run[1..]) }

  /** A run read as one turn: everything from its last chunk, text, thinking and tool calls joined. */
  function Merged(run: seq<Turn>): Turn
    requires run != []
  {
    run[|run| - 1].(text := Texts(run), thinking := Thinkings(run), toolCalls := Calls(run))
  }

  /** The maximal runs of a history, each read as one turn. */
  function Groups(history: seq<Turn>): (groups: seq<Turn>)
    ensures history != [] ==> groups != []
  {
    if history == [] then []
    else [Merged(history[..RunLength(history)])] + Groups(history[RunLength(history)..])
  }

  /** The groups a history has closed, the empty ones dropped. */
  function Closed(groups: seq<Turn>): seq<Turn> {
    if groups == [] then []
    else
      var before := Closed(groups[..|groups| - 1]);
      if groups[|groups| - 1].HasContent() then before + [groups[|groups| - 1]] else before
  }

  function Front<T>(s: seq<T>): seq<T> requires s != [] { s[..|s| - 1] }

  function Last<T>(s: seq<T>): T requires s != [] { s[|s| - 1] }

  lemma {:induction false} TextsSnoc(run: seq<Turn>, next: Turn)
    ensures Texts(run + [next]) == Texts(run) + next.text
  {
    if run == [] {
      assert [next][1..] == [];
    } else {
      assert (run + [next])[1..] == run[1..] + [next];
      TextsSnoc(run[1..], next);
    }
  }

  lemma {:induction false} ThinkingsSnoc(run: seq<Turn>, next: Turn)
    ensures Thinkings(run + [next]) == Thinkings(run) + next.thinking
  {
    if run == [] {
      assert [next][1..] == [];
    } else {
      assert (run + [next])[1..] == run[1..] + [next];
      ThinkingsSnoc(run[1..], next);
    }
  }

  lemma {:induction false} CallsSnoc(run: seq<Turn>, next: Turn)
    ensures Calls(run + [next]) == Calls(run) + next.toolCalls
  {
    if run == [] {
      assert [next][1..] == [];
    } else {
      assert (run + [next])[1..] == run[1..] + [next];
      CallsSnoc(run[1..], next);
    }
  }

  lemma JoinSnoc(run: seq<Turn>, next: Turn)
    ensures Texts(run + [next]) == Texts(run) + next.text
    ensures Thinkings(run + [next]) == Thinkings(run) + next.thinking
    ensures Calls(run + [next]) == Calls(run) + next.toolCalls
  {
    TextsSnoc(run, next);
    ThinkingsSnoc(run, next);
    CallsSnoc(run, next);
  }

  lemma {:induction false} RunLengthSnoc(history: seq<Turn>, next: Turn)
    requires history != []
    ensures var n := RunLength(history);
            RunLength(history + [next]) == if n == |history| && SameRequest(Last(history), next) then n + 1 else n
  {
    if |history| > 1 {
      assert (history + [next])[1..] == history[1..] + [next];
      RunLengthSnoc(history[1..], next);
    } else {
      assert (history + [next])[1..] == [next];
    }
  }

  /** A run is as long as the chunks from the front have one request id, which is not empty if there are several. */
  lemma {:induction false} RunIsMaximal(history: seq<Turn>)
    requires history != []
    ensures var n := RunLength(history);
            && (forall i :: 0 <= i < n ==> history[i].requestId == history[0].requestId)
            && (n > 1 ==> history[0].requestId != "")
            && (n < |history| ==> history[n].requestId == "" || history[n].requestId != history[0].requestId)
  {
    if |history| > 1 { RunIsMaximal(history[1..]); }
  }

  /** Two chunks of one request are one turn, first chunk first. */
  lemma TwoChunks(first: Turn, second: Turn)
    requires first.requestId == second.requestId != ""
    ensures Groups([first, second]) ==
            [second.(text := first.text + second.text, thinking := first.thinking + second.thinking,
                     toolCalls := first.toolCalls + second.toolCalls)]
  {
    assert [first, second] == [first] + [second];
    OneRunSnoc([first], second);
    MergedAlone(first);
  }

  /** Closed turns that say nothing and call nothing are dropped; conversational ones say something, or do nothing at all. */
  lemma {:induction false} TurnsKept(turns: seq<Turn>, turn: Turn)
    ensures turn in Closed(turns) <==> turn in turns && (turn.text != "" || turn.thinking != "" || turn.toolCalls != [])
    ensures turn in Conversational(turns) <==>
              turn in turns && (turn.text != "" || turn.thinking != "" || turn.toolCalls == [])
  {
    if turns != [] {
      assert turns == turns[..|turns| - 1] + [turns[|turns| - 1]];
      TurnsKept(turns[..|turns| - 1], turn);
    }
  }

  lemma OneRun(history: seq<Turn>)
    requires history != [] && RunLength(history) == |history|
    ensures Groups(history) == [Merged(history)]
  {
    assert history[..|history|] == history && history[|history|..] == [];
  }

  lemma FirstGroup(history: seq<Turn>)
    requires history != []
    ensures var n := RunLength(history); Groups(history) == [Merged(history[..n])] + Groups(history[n..])
  {
  }

  lemma MergedSnoc(run: seq<Turn>, next: Turn, all: seq<Turn>)
    requires run != [] && all == run + [next]
    ensures Merged(all) == Extend(Merged(run), next)
  {
    hide Texts, Thinkings, Calls;
    JoinSnoc(run, next);
  }

  /** A history that is one run so far: the next chunk extends it or stands alone. */
  lemma OneRunSnoc(history: seq<Turn>, next: Turn)
    requires history != [] && RunLength(history) == |history|
    ensures Groups(history + [next]) ==
            if SameRequest(Last(history), next) then [Extend(Merged(history), next)] else [Merged(history), Merged([next])]
  {
    hide Merged, Extend, Groups;
    var all := history + [next];
    RunLengthSnoc(history, next);
    if SameRequest(Last(history), next) {
      OneRun(all);
      MergedSnoc(history, next, all);
    } else {
      FirstGroup(all);
      assert all[..|history|] == history && all[|history|..] == [next];
      OneRun([next]);
    }
  }

  lemma MergedAlone(turn: Turn)
    ensures Merged([turn]) == turn
  {
    JoinSnoc([], turn);
    assert [turn] == [] + [turn];
  }

  lemma FirstRun(all: seq<Turn>, n: nat, history: seq<Turn>, next: Turn)
    requires all == history + [next] && n < |history| && n == RunLength(all)
    ensures Groups(all) == [Merged(history[..n])] + Groups(history[n..] + [next])
  {
    assert all[..n] == history[..n];
    assert all[n..] == history[n..] + [next];
  }

  lemma PutInFront(first: Turn, rest: seq<Turn>, last: Turn, next: Turn)
    requires rest != []
    ensures WithChunk([first] + rest, last, next) == [first] + WithChunk(rest, last, next)
    ensures Last([first] + rest) == Last(rest)
  {
  }

  lemma LaterRun(history: seq<Turn>, n: nat, next: Turn)
    requires history != [] && n == RunLength(history) < |history|
    requires Last(Groups(history[n..])).requestId == Last(history).requestId
    requires Groups(history[n..] + [next]) == WithChunk(Groups(history[n..]), Last(history), next)
    ensures Last(Groups(history)).requestId == Last(history).requestId
    ensures Groups(history + [next]) == WithChunk(Groups(history), Last(history), next)
  {
    RunLengthSnoc(history, next);
    FirstRun(history + [next], n, history, next);
    PutInFront(Merged(history[..n]), Groups(history[n..]), Last(history), next);
  }

  /** One more chunk either extends the last group or opens a new one. */
  lemma {:induction false} GroupsSnoc(history: seq<Turn>, next: Turn)
    requires history != []
    ensures Last(Groups(history)).requestId == Last(history).requestId
    ensures Groups(history + [next]) == WithChunk(Groups(history), Last(history), next)
    decreases |history|
  {
    var n := RunLength(history);
    if n == |history| {
      OneRun(history);
      OneRunSnoc(history, next);
      MergedAlone(next);
    } else {
      GroupsSnoc(history[n..], next);
      LaterRun(history, n, next);
    }
  }

  function WithChunk(groups: seq<Turn>, last: Turn, next: Turn): seq<Turn>
    requires groups != []
  {
    if SameRequest(last, next) then Front(groups) + [Extend(Last(groups), next)] else groups + [next]
  }

  ghost predicate Reads(scope: Scope, groups: seq<Turn>) {
    && (groups == [] ==> scope == Scope(None, NewRing(scope.ring.capacity)))
    && (groups != [] ==>
          && scope.active == Some(Last(groups))
          && HoldsClosed(scope.ring, Closed(Front(groups))))
  }

  /** The ring holds the last `capacity` finished turns and has counted them all. */
  ghost predicate HoldsClosed(ring: Ring, closed: seq<Turn>) {
    && ring.items == LastOf(closed, ring.capacity)
    && ring.pushed == |Conversational(closed)|
    && ring.pushed + ring.pushedToolOnly == |closed|
  }

  lemma PushHolds(ring: Ring, closed: seq<Turn>, turn: Turn)
    requires HoldsClosed(ring, closed)
    ensures HoldsClosed(ring.Push(turn), closed + [turn])
  {
    hide Conversational, LastOf;
    ConversationalSnoc(closed, turn);
    LastOfSnoc(closed, turn, ring.capacity);
  }

  lemma ConversationalSnoc(turns: seq<Turn>, turn: Turn)
    ensures Conversational(turns + [turn]) ==
            if turn.IsToolOnly() then Conversational(turns) else Conversational(turns) + [turn]
  {
    assert (turns + [turn])[..|turns|] == turns;
  }

  lemma LastOfSnoc(turns: seq<Turn>, turn: Turn, n: Capacity)
    ensures var kept := LastOf(turns, n);
            LastOf(turns + [turn], n) == if |kept| < n then kept + [turn] else kept[1..] + [turn]
  {
  }

  lemma ClosedSnoc(groups: seq<Turn>, turn: Turn)
    ensures Closed(groups + [turn]) == if turn.HasContent() then Closed(groups) + [turn] else Closed(groups)
  {
    assert (groups + [turn])[..|groups|] == groups;
  }

  lemma OpenReads(scope: Scope, groups: seq<Turn>, next: Turn)
    requires groups != [] && Reads(scope, groups) && !SameRequest(scope.active.value, next)
    ensures Reads(scope.Append(next), groups + [next])
  {
    var turn := Last(groups);
    assert Front(groups + [next]) == groups == Front(groups) + [turn];
    ClosedSnoc(Front(groups), turn);
    if turn.HasContent() {
      PushHolds(scope.ring, Closed(Front(groups)), turn);
    }
  }

  lemma AppendReads(scope: Scope, history: seq<Turn>, next: Turn)
    requires Reads(scope, Groups(history))
    ensures Reads(scope.Append(next), Groups(history + [next]))
  {
    if history == [] {
      OneRun([next]);
      MergedAlone(next);
      assert [] + [next] == [next];
    } else {
      GroupsSnoc(history, next);
      var groups := Groups(history);
      if SameRequest(Last(history), next) {
        assert Front(Front(groups) + [Extend(Last(groups), next)]) == Front(groups);
      } else {
        OpenReads(scope, groups, next);
      }
    }
  }

  lemma NothingReads(capacity: Capacity)
    ensures Reads(Scope(None, NewRing(capacity)), Groups([]))
  {
  }

  /** Folding any history of chunks: the turn in progress is the last maximal run, the ring holds the last
      `capacity` closed non-empty runs, and the counters have seen every one of them, evicted or not. */
  lemma {:induction false} GroupingMeaning(capacity: Capacity, history: seq<Turn>)
    ensures Reads(Scope(None, NewRing(capacity)).AppendAll(history), Groups(history))
  {
    hide Reads, Groups, Scope.Append;
    NothingReads(capacity);
    if history != [] {
      var before := history[..|history| - 1];
      GroupingMeaning(capacity, before);
      AppendReads(Scope(None, NewRing(capacity)).AppendAll(before), before, history[|history| - 1]);
      assert before + [history[|history| - 1]] == history;
    }
  }

  /** The last `n` of a sequence, or all of it. */
  ghost predicate IsEnd(all: seq<Turn>, n: nat, end: seq<Turn>) { end == if n < |all| then all[|all| - n..] else all }

  /** What is read of a stream whose ring holds these closed turns. */
  lemma ReadsEnd(scope: Scope, closed: seq<Turn>, last: Turn, n: nat)
    requires HoldsClosed(scope.ring, closed) && scope.active == Some(last)
    ensures var kept := closed[if |closed| < scope.ring.capacity then 0 else |closed| - scope.ring.capacity..];
            && scope.ring.items == kept
            && IsEnd(kept + [last], n, scope.LastTurnsWithToolCalls(n))
            && IsEnd(Conversational(kept) + [last], n, scope.LastTurns(n))
  {
    hide Conversational;
    assert closed[0..] == closed;
  }

  /** Totals count the whole history however small the ring is; a read yields the end of what the ring kept and the turn in
      progress, which counts for one of the turns asked for. */
  lemma TotalsMeaning(capacity: Capacity, history: seq<Turn>, n: nat)
    requires history != []
    ensures var scope := Scope(None, NewRing(capacity)).AppendAll(history);
            var closed := Closed(Front(Groups(history)));
            var kept := closed[if |closed| < capacity then 0 else |closed| - capacity..];
            && scope.Total() == |Conversational(closed)| + 1
            && scope.TotalWithToolCalls() == |closed| + 1
            && IsEnd(kept + [Last(Groups(history))], n, scope.LastTurnsWithToolCalls(n))
            && IsEnd(Conversational(kept) + [Last(Groups(history))], n, scope.LastTurns(n))
            && |kept| < scope.TotalWithToolCalls() && |Conversational(kept)| < scope.Total()
  {
    hide Groups, Scope.AppendAll, IsEnd, Conversational, Closed, LastOf, Scope.LastTurns, Scope.LastTurnsWithToolCalls;
    GroupingMeaning(capacity, history);
    var closed := Closed(Front(Groups(history)));
    ReadsEnd(Scope(None, NewRing(capacity)).AppendAll(history), closed, Last(Groups(history)), n);
    ConversationalSuffix(closed, closed[if |closed| < capacity then 0 else |closed| - capacity..]);
  }

  lemma {:induction false} ConversationalSuffix(turns: seq<Turn>, suffix: seq<Turn>)
    requires |suffix| <= |turns| && suffix == turns[|turns| - |suffix|..]
    ensures |Conversational(suffix)| <= |Conversational(turns)|
  {
    if suffix != [] { ConversationalSuffix(turns[..|turns| - 1], suffix[..|suffix| - 1]); }
  }

  // ---- Tool results between the chunks ----

  /** What a stream is told: a chunk, or results of earlier calls. */
  datatype Told = Said(turn: Turn) | Answered(results: seq<ToolResult>)

  function Take(scope: Scope, told: Told): (r: Scope)
    ensures r.ring.capacity == scope.ring.capacity
  {
    match told case Said(turn) => scope.Append(turn) case Answered(results) => ApplyResults(scope, results)
  }

  function TakeAll(scope: Scope, history: seq<Told>): (r: Scope)
    ensures r.ring.capacity == scope.ring.capacity
  {
    if history == [] then scope else Take(TakeAll(scope, history[..|history| - 1]), history[|history| - 1])
  }

  /** Calls, turns and streams with no call marked. */
  function PlainCalls(calls: seq<ToolCall>): seq<ToolCall> {
    seq(|calls|, i requires 0 <= i < |calls| => calls[i].(isError := false))
  }

  function Plain(turn: Turn): Turn { turn.(toolCalls := PlainCalls(turn.toolCalls)) }

  function PlainTurns(turns: seq<Turn>): seq<Turn> {
    seq(|turns|, i requires 0 <= i < |turns| => Plain(turns[i]))
  }

  function PlainScope(scope: Scope): Scope {
    Scope(if scope.active.Some? then Some(Plain(scope.active.value)) else None,
          scope.ring.(items := PlainTurns(scope.ring.items)))
  }

  /** The chunks of a history, none of their calls marked. */
  function Chunks(history: seq<Told>): seq<Turn> {
    if history == [] then []
    else
      var before, last := Chunks(history[..|history| - 1]), history[|history| - 1];
      match last case Said(turn) => before + [Plain(turn)] case Answered(_) => before
  }

  lemma {:induction false} MarkFirstIsPlain(calls: seq<ToolCall>, result: ToolResult)
    ensures PlainCalls(MarkFirst(calls, result)) == PlainCalls(calls)
  {
    if calls != [] {
      MarkFirstIsPlain(calls[1..], result);
      assert PlainCalls(calls) == [calls[0].(isError := false)] + PlainCalls(calls[1..]);
      assert PlainCalls(MarkFirst(calls, result)) ==
             [calls[0].(isError := false)] + PlainCalls(MarkFirst(calls, result)[1..]);
    }
  }

  lemma {:induction false} MarkNewestIsPlain(items: seq<Turn>, result: ToolResult)
    ensures PlainTurns(MarkNewest(items, result)) == PlainTurns(items)
  {
    if items != [] {
      var front, last := items[..|items| - 1], items[|items| - 1];
      MarkNewestIsPlain(front, result);
      MarkFirstIsPlain(last.toolCalls, result);
      assert PlainTurns(items) == PlainTurns(front) + [Plain(last)];
      var marked := MarkNewest(items, result);
      assert PlainTurns(marked) == PlainTurns(marked[..|items| - 1]) + [Plain(marked[|items| - 1])];
    }
  }

  lemma {:induction false} ResultsArePlain(scope: Scope, results: seq<ToolResult>)
    ensures PlainScope(ApplyResults(scope, results)) == PlainScope(scope)
  {
    if results != [] {
      var before, result := ApplyResults(scope, results[..|results| - 1]), results[|results| - 1];
      ResultsArePlain(scope, results[..|results| - 1]);
      MarkNewestIsPlain(before.ring.items, result);
      if before.active.Some? { MarkFirstIsPlain(before.active.value.toolCalls, result); }
    }
  }

  lemma ExtendIsPlain(turn: Turn, next: Turn)
    ensures Plain(Extend(turn, next)) == Extend(Plain(turn), Plain(next))
  {
    assert PlainCalls(turn.toolCalls + next.toolCalls) == PlainCalls(turn.toolCalls) + PlainCalls(next.toolCalls);
  }

  lemma PushIsPlain(ring: Ring, turn: Turn)
    ensures ring.(items := PlainTurns(ring.items)).Push(Plain(turn)) ==
            ring.Push(turn).(items := PlainTurns(ring.Push(turn).items))
  {
    hide Plain;
    SameKind(turn);
    assert PlainTurns(ring.items + [turn]) == PlainTurns(ring.items) + [Plain(turn)];
    if ring.items != [] {
      assert PlainTurns(ring.items[1..] + [turn]) == PlainTurns(ring.items)[1..] + [Plain(turn)];
    }
  }

  lemma SameKind(turn: Turn)
    ensures Plain(turn).IsToolOnly() == turn.IsToolOnly() && Plain(turn).HasContent() == turn.HasContent()
    ensures Plain(turn).requestId == turn.requestId
  {
  }

  lemma AppendIsPlain(scope: Scope, next: Turn)
    ensures PlainScope(scope.Append(next)) == PlainScope(scope).Append(Plain(next))
  {
    hide Plain, PlainTurns, Extend, Ring.Push;
    SameKind(next);
    if scope.active.Some? {
      SameKind(scope.active.value);
      ExtendIsPlain(scope.active.value, next);
      PushIsPlain(scope.ring, scope.active.value);
    }
  }

  /** Results between the chunks only mark calls. */
  lemma {:induction false} ResultsOnlyMark(capacity: Capacity, history: seq<Told>)
    ensures PlainScope(TakeAll(Scope(None, NewRing(capacity)), history)) ==
            Scope(None, NewRing(capacity)).AppendAll(Chunks(history))
  {
    hide ApplyResults, Scope.Append, Plain;
    if history == [] {
      assert PlainTurns([]) == [];
    } else {
      var front, last := history[..|history| - 1], history[|history| - 1];
      var before := TakeAll(Scope(None, NewRing(capacity)), front);
      ResultsOnlyMark(capacity, front);
      match last
      case Said(turn) =>
        AppendIsPlain(before, turn);
        assert (Chunks(front) + [Plain(turn)])[..|Chunks(front)|] == Chunks(front);
      case Answered(results) =>
        ResultsArePlain(before, results);
    }
  }

  /** Whatever results arrive between the chunks: marks apart, the stream reads as the maximal runs of the chunks. */
  lemma MixedGroupingMeaning(capacity: Capacity, history: seq<Told>)
    ensures Reads(PlainScope(TakeAll(Scope(None, NewRing(capacity)), history)), Groups(Chunks(history)))
  {
    hide Reads, Groups, PlainScope, Chunks, TakeAll, Scope.AppendAll;
    ResultsOnlyMark(capacity, history);
    GroupingMeaning(capacity, Chunks(history));
  }

  class TurnBuffer {
    /** Which stream the buffer belongs to: a sub-agent's, or (None) the session's own. */
    ghost const owner: Option<string>
    const capacity: Capacity
    var items: seq<Turn>
    var pushed: nat
    var pushedToolOnly: nat

    function Value(): Ring
      reads this
    {
      Ring(capacity, items, pushed, pushedToolOnly)
    }

    constructor (capacity: Capacity, ghost owner: Option<string>)
      ensures Value() == NewRing(capacity) && this.owner == owner
    {
      this.capacity, this.owner := capacity, owner;
      items, pushed, pushedToolOnly := [], 0, 0;
    }

    /** GobDecode: the buffer a snapshot stored. */
    constructor Decode(value: Ring, ghost owner: Option<string>)
      ensures Value() == value && this.owner == owner
    {
      this.capacity, this.owner := value.capacity, owner;
      items, pushed, pushedToolOnly := value.items, value.pushed, value.pushedToolOnly;
    }

    method Push(turn: Turn)
      modifies this
      ensures Value() == old(Value()).Push(turn)
    {
      if turn.IsToolOnly() {
        pushedToolOnly := pushedToolOnly + 1;
      } else {
        pushed := pushed + 1;
      }
      if |items| < capacity {
        items := items + [turn];
        return;
      }
      items := items[1..] + [turn];
    }

    method MarkNewestCall(result: ToolResult)
      modifies this
      ensures Value() == old(Value()).(items := MarkNewest(old(items), result))
    {
      var index := |items|;
      assert items[..index] == items;
      while index > 0
        invariant 0 <= index <= |items| && Value() == old(Value())
        invariant MarkNewest(items, result) == MarkNewest(items[..index], result) + items[index..]
      {
        MarkNewestSkips(items, index, result);
        index := index - 1;
        if HasCall(items[index].toolCalls, result.toolUseId) {
          items := items[index := MarkTurn(items[index], result)];
          return;
        }
      }
    }
  }

  /** appendTurn over the buffer object. */
  method AppendTurn(active: Option<Turn>, buffer: TurnBuffer, next: Turn) returns (r: Option<Turn>)
    modifies buffer
    ensures Scope(r, buffer.Value()) == Scope(active, old(buffer.Value())).Append(next)
  {
    if active == None {
      return Some(next);
    }
    var turn := active.value;
    if next.requestId != "" && turn.requestId == next.requestId {
      return Some(next.(text := turn.text + next.text, thinking := turn.thinking + next.thinking,
                        toolCalls := turn.toolCalls + next.toolCalls));
    }
    if turn.text != "" || turn.thinking != "" || |turn.toolCalls| > 0 {
      buffer.Push(turn);
    }
    return Some(next);
  }

  /** applyToolResults and findToolCall: the active turn first, then the finished ones from the newest back. */
  method ApplyToolResults(active: Option<Turn>, finished: TurnBuffer,
                          results: seq<ToolResult>) returns (r: Option<Turn>)
    modifies finished
    ensures Scope(r, finished.Value()) == ApplyResults(Scope(active, old(finished.Value())), results)
  {
    r := active;
    for i := 0 to |results|
      invariant Scope(r, finished.Value()) == ApplyResults(Scope(active, old(finished.Value())), results[..i])
    {
      assert results[..i + 1][..i] == results[..i];
      var result := results[i];
      if r.Some? && HasCall(r.value.toolCalls, result.toolUseId) {
        r := Some(MarkTurn(r.value, result));
      } else {
        finished.MarkNewestCall(result);
      }
    }
    assert results[..|results|] == results;
  }
}
