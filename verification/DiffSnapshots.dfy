/** Diff snapshots and their cache (session/snapshot_cache.go, session/store.go, watcher/diff_watcher.go, state/dir.go). */
module DiffSnapshots {
  import opened Types

  // ---- The least-recently-used cache ----

  /** An id is touched when it is put, and when it is found. */
  datatype Touch = Put(id: Id, snapshot: string) | Seen(id: Id)

  function Without(ids: seq<Id>, id: Id): seq<Id> {
    if ids == [] then [] else if ids[0] == id then Without(ids[1..], id) else [ids[0]] + Without(ids[1..], id)
  }

  /** The distinct ids, the last touched first. */
  function Recent(touches: seq<Touch>): seq<Id> {
    if touches == [] then []
    else [touches[|touches| - 1].id] + Without(Recent(touches[..|touches| - 1]), touches[|touches| - 1].id)
  }

  /** What was last put under an id. */
  function LastPut(touches: seq<Touch>, id: Id): string {
    if touches == [] then ""
    else
      var touch := touches[|touches| - 1];
      if touch.Put? && touch.id == id then touch.snapshot else LastPut(touches[..|touches| - 1], id)
  }

  function First(ids: seq<Id>, n: nat): seq<Id> { if n < |ids| then ids[..n] else ids }

  ghost predicate Distinct(ids: seq<Id>) { forall i, j :: 0 <= i < j < |ids| ==> ids[i] != ids[j] }

  lemma {:induction false} WithoutIs(ids: seq<Id>, id: Id)
    ensures forall other :: other in Without(ids, id) <==> other in ids && other != id
  {
    if ids != [] {
      WithoutIs(ids[1..], id);
      assert ids == [ids[0]] + ids[1..];
    }
  }

  lemma DistinctCons(id: Id, ids: seq<Id>)
    requires Distinct(ids) && id !in ids
    ensures Distinct([id] + ids)
  {
  }

  lemma {:induction false} WithoutDistinct(ids: seq<Id>, id: Id)
    requires Distinct(ids)
    ensures Distinct(Without(ids, id))
  {
    if ids != [] {
      DistinctTail(ids);
      WithoutDistinct(ids[1..], id);
      WithoutIs(ids[1..], id);
      if ids[0] != id {
        DistinctCons(ids[0], Without(ids[1..], id));
      }
    }
  }

  lemma {:induction false} WithoutNone(ids: seq<Id>, id: Id)
    requires id !in ids
    ensures Without(ids, id) == ids
  {
    if ids != [] { WithoutNone(ids[1..], id); }
  }

  /** Moving an id within the first n to the front leaves the others of the first n. */
  lemma {:induction false} FirstWithout(ids: seq<Id>, id: Id, n: nat)
    requires Distinct(ids) && id in First(ids, n) && n > 0
    ensures First(Without(ids, id), n - 1) == Without(First(ids, n), id)
    decreases |ids|
  {
    var tail := ids[1..];
    assert ids == [ids[0]] + tail;
    assert First(ids, n) == [ids[0]] + First(tail, n - 1);
    assert First(ids, n)[1..] == First(tail, n - 1);
    assert Distinct(tail) by { DistinctTail(ids); }
    if ids[0] == id {
      assert id !in tail by { DistinctTail(ids); }
      WithoutNone(tail, id);
      WithoutNone(First(tail, n - 1), id);
    } else {
      FirstWithout(tail, id, n - 1);
    }
  }

  lemma DistinctTail(ids: seq<Id>)
    requires Distinct(ids) && ids != []
    ensures Distinct(ids[1..]) && ids[0] !in ids[1..]
  {
    assert forall i :: 0 <= i < |ids[1..]| ==> ids[1..][i] == ids[i + 1];
  }

  /** Bringing in an id from beyond the first n pushes the last of them out. */
  lemma {:induction false} FirstPushed(ids: seq<Id>, id: Id, n: nat)
    requires Distinct(ids) && id !in First(ids, n) && n > 0
    ensures First(Without(ids, id), n - 1) == First(ids, n - 1)
    decreases |ids|
  {
    if ids != [] && n > 1 {
      var tail := ids[1..];
      DistinctTail(ids);
      assert First(ids, n) == [ids[0]] + First(tail, n - 1);
      assert ids[0] in First(ids, n) && forall other :: other in First(tail, n - 1) ==> other in First(ids, n);
      FirstPushed(tail, id, n - 1);
      assert Without(ids, id) == [ids[0]] + Without(tail, id);
      assert First(ids, n - 1) == [ids[0]] + First(tail, n - 2);
    }
  }

  lemma {:induction false} RecentIsDistinct(touches: seq<Touch>)
    ensures Distinct(Recent(touches))
  {
    if touches != [] {
      var front, id := touches[..|touches| - 1], touches[|touches| - 1].id;
      RecentIsDistinct(front);
      WithoutDistinct(Recent(front), id);
      WithoutIs(Recent(front), id);
      DistinctCons(id, Without(Recent(front), id));
    }
  }

  lemma TouchedNext(touches: seq<Touch>, touch: Touch)
    ensures Recent(touches + [touch]) == [touch.id] + Without(Recent(touches), touch.id)
    ensures forall id :: LastPut(touches + [touch], id) ==
              if touch.Put? && touch.id == id then touch.snapshot else LastPut(touches, id)
  {
    assert (touches + [touch])[..|touches|] == touches;
  }

  lemma FirstMoved(ids: seq<Id>, id: Id, n: nat)
    requires Distinct(ids) && n > 0
    ensures First([id] + Without(ids, id), n) ==
            [id] + (if id in First(ids, n) then Without(First(ids, n), id) else First(ids, n - 1))
  {
    assert First([id] + Without(ids, id), n) == [id] + First(Without(ids, id), n - 1);
    if id in First(ids, n) {
      FirstWithout(ids, id, n);
    } else {
      FirstPushed(ids, id, n);
    }
  }

  class SnapshotCache {
    const capacity: nat
    var content: map<Id, string>
    var entries: set<Id>
    /** Front first. */
    var order: seq<Id>
    ghost var touches: seq<Touch>

    /** The cache is the `capacity` most recently touched distinct ids with what was last put; map and list agree. */
    ghost predicate Valid()
      reads this
    {
      && order == First(Recent(touches), capacity)
      && (forall id :: id in entries <==> id in order)
      && (forall id :: id in content <==> id in order)
      && (forall id :: id in content ==> content[id] == LastPut(touches, id))
    }

    constructor (capacity: nat)
      ensures Valid() && this.capacity == capacity && touches == [] && content == map[]
    {
      this.capacity := capacity;
      content, entries, order, touches := map[], {}, [], [];
    }

    method Clear()
      modifies this
      ensures Valid() && touches == [] && content == map[]
    {
      content, entries, order, touches := map[], {}, [], [];
    }

    method MoveToFront(id: Id)
      requires id in order
      modifies this`order
      ensures order == [id] + Without(old(order), id)
    {
      order := [id] + Without(order, id);
    }

    method Get(id: Id) returns (snapshot: string, isCached: bool)
      requires Valid()
      modifies this`order, this`touches
      ensures Valid() && isCached == (id in content) && (isCached ==> snapshot == content[id])
      ensures touches == if isCached then old(touches) + [Seen(id)] else old(touches)
    {
      hide Recent, LastPut, Without, First;
      if id !in entries {
        return "", false;
      }
      NotEmpty(touches, capacity, id);
      RecentIsDistinct(touches);
      TouchedNext(touches, Seen(id));
      FirstMoved(Recent(touches), id, capacity);
      WithoutIs(order, id);
      MoveToFront(id);
      touches := touches + [Seen(id)];
      return content[id], true;
    }

    /** An id that is there gets the new snapshot and comes first. */
    method Renew(id: Id, snapshot: string)
      requires Valid() && id in entries
      modifies this
      ensures Valid() && touches == old(touches) + [Touch.Put(id, snapshot)]
      ensures content == old(content)[id := snapshot]
    {
      hide Recent, LastPut, Without, First;
      NotEmpty(touches, capacity, id);
      RecentIsDistinct(touches);
      TouchedNext(touches, Touch.Put(id, snapshot));
      FirstMoved(Recent(touches), id, capacity);
      WithoutIs(order, id);
      MoveToFront(id);
      content := content[id := snapshot];
      touches := touches + [Touch.Put(id, snapshot)];
    }

    /** A new id comes first; the last one makes room. */
    method Admit(id: Id, snapshot: string)
      requires Valid() && id !in entries && capacity > 0
      modifies this
      ensures Valid() && touches == old(touches) + [Touch.Put(id, snapshot)]
      ensures id in content && content[id] == snapshot
      ensures forall other :: other in content && other != id ==> other in old(content) && content[other] == old(content)[other]
    {
      hide Recent, LastPut, Without, First;
      RecentIsDistinct(touches);
      TouchedNext(touches, Touch.Put(id, snapshot));
      FirstMoved(Recent(touches), id, capacity);
      Room(touches, capacity);
      order := [id] + order;
      entries := entries + {id};
      content := content[id := snapshot];
      touches := touches + [Touch.Put(id, snapshot)];
      if |order| > capacity {
        EvictBack();
      }
    }

    method EvictBack()
      requires order != [] && Distinct(order)
      requires forall id :: id in entries <==> id in order
      requires forall id :: id in content <==> id in order
      modifies this`order, this`entries, this`content
      ensures order == old(order)[..|old(order)| - 1]
      ensures forall id :: id in entries <==> id in order
      ensures forall id :: id in content <==> id in order
      ensures forall id :: id in content ==> id in old(content) && content[id] == old(content)[id]
    {
      var evictedId := order[|order| - 1];
      LastIsAlone(order);
      order := order[..|order| - 1];
      entries := entries - {evictedId};
      content := content - {evictedId};
    }

    /** put; a cache without capacity keeps nothing. */
    method Put(id: Id, snapshot: string)
      requires Valid()
      modifies this
      ensures Valid() && touches == if capacity == 0 then old(touches) else old(touches) + [Touch.Put(id, snapshot)]
      ensures forall other :: other in content ==>
                if other == id then content[other] == snapshot
                    else other in old(content) && content[other] == old(content)[other]
    {
      hide Recent, LastPut, Without;
      if capacity == 0 {
        return;
      }
      if id in entries {
        Renew(id, snapshot);
      } else {
        Admit(id, snapshot);
      }
    }
  }

  lemma NotEmpty(touches: seq<Touch>, capacity: nat, id: Id)
    requires id in First(Recent(touches), capacity)
    ensures capacity > 0
  {
  }

  lemma Room(touches: seq<Touch>, capacity: nat)
    requires capacity > 0
    ensures var ids := First(Recent(touches), capacity);
            && |ids| <= capacity && Distinct(ids)
            && First(Recent(touches), capacity - 1) == if |ids| == capacity then ids[..capacity - 1] else ids
  {
    RecentIsDistinct(touches);
  }

  lemma LastIsAlone(order: seq<Id>)
    requires order != [] && Distinct(order)
    ensures forall id :: id in order[..|order| - 1] <==> id in order && id != order[|order| - 1]
  {
    assert order == order[..|order| - 1] + [order[|order| - 1]];
  }

  // ---- The cache in front of the files ----

  const MAX_SNAPSHOT_BYTES := 5 * 1024 * 1024

  const TRUNCATION_NOTE := "\n[peek: snapshot truncated at 5 MB]\n"

  function Truncate(content: string): string {
    if |content| > MAX_SNAPSHOT_BYTES then content[..MAX_SNAPSHOT_BYTES] + TRUNCATION_NOTE else content
  }

  /** Truncating what was truncated changes nothing, though the note makes it too long again. */
  lemma TruncateOnce(content: string)
    ensures Truncate(Truncate(content)) == Truncate(content)
  {
    if |content| > MAX_SNAPSHOT_BYTES {
      assert Truncate(content)[..MAX_SNAPSHOT_BYTES] == content[..MAX_SNAPSHOT_BYTES];
    }
  }

  /** What a session knows of its diff: the output, whether that is what is served, whether a snapshot was persisted. */
  datatype DiffState = DiffState(output: string, isLive: bool, hasSnapshot: bool)

  /** What git makes of a session's working tree: it may not be ready, its base may not be found, the diff may fail. */
  datatype Git = NotReady | NoBase | Failed | Output(text: string)

  // ---- What the store serves, cache apart ----

  /** The sessions' diffs and the snapshot files. */
  datatype Served = Served(sessions: map<Id, DiffState>, files: map<Id, string>)

  /** LoadDiff, without a cache. */
  function Loaded(s: Served, id: Id): (string, bool) {
    if id !in s.sessions then ("", false)
    else if s.sessions[id].isLive && s.sessions[id].output != "" then (s.sessions[id].output, true)
    else if s.sessions[id].hasSnapshot && id in s.files then (s.files[id], true)
    else ("", false)
  }

  /** hydrateFromState: a new session knows whether a snapshot of it is on disk. */
  function Met(s: Served, id: Id): Served {
    if id in s.sessions then s else s.(sessions := s.sessions[id := DiffState("", false, id in s.files)])
  }

  function Updated(s: Served, id: Id, output: string): Served {
    if id !in s.sessions then s
    else s.(sessions := s.sessions[id := s.sessions[id].(output := output, isLive := true)])
  }

  function Marked(s: Served, id: Id): Served {
    if id !in s.sessions || (s.sessions[id].output == "" && !s.sessions[id].hasSnapshot) then s
    else s.(sessions := s.sessions[id := s.sessions[id].(isLive := false)])
  }

  function Persisted(s: Served, id: Id): Served {
    if id !in s.sessions then s else s.(sessions := s.sessions[id := s.sessions[id].(hasSnapshot := true)])
  }

  /** persistSnapshot: an empty output never replaces a snapshot. */
  function Kept(s: Served, id: Id, output: string, isWritten: bool): Served {
    if output == "" || !isWritten then s else Persisted(s.(files := s.files[id := Truncate(output)]), id)
  }

  /** refresh: a snapshot written after the last turn is taken over, else git is asked. */
  function Refreshed(s: Served, id: Id, git: Git, isFresh: bool, isWritten: bool): Served {
    if id !in s.sessions then s
    else if git == NotReady || git == NoBase then Marked(s, id)
    else if isFresh && id in s.files then Persisted(Updated(s, id, s.files[id]), id)
    else if git == Failed then Marked(s, id)
    else Kept(Updated(s, id, git.text), id, git.text, isWritten)
  }

  /** What happens to a store: a session is met or its diff asked for, the cache is seeded from the sessions by
      recency, git is asked, the instance goes cold, or warm again with the sessions of its snapshot. */
  datatype Step =
    | Meet(id: Id)
    | Load(id: Id)
    | Seed(byRecency: seq<Id>)
    | Ask(id: Id, git: Git, isFresh: bool, isWritten: bool)
    | GoCold
    | GoWarm(restored: map<Id, DiffState>)

  function Next(s: Served, step: Step): Served {
    match step
    case Meet(id) => Met(s, id)
    case Load(_) => s
    case Seed(_) => s
    case Ask(id, git, isFresh, isWritten) => Refreshed(s, id, git, isFresh, isWritten)
    case GoCold => s.(sessions := map[])
    case GoWarm(restored) => s.(sessions := s.sessions + restored)
  }

  /** What is served after a run. */
  function After(s: Served, steps: seq<Step>): Served {
    if steps == [] then s else Next(After(s, steps[..|steps| - 1]), steps[|steps| - 1])
  }

  /** The answers to a run's loads. */
  function Answers(s: Served, steps: seq<Step>): seq<(string, bool)> {
    if steps == [] then []
    else
      var front, step := steps[..|steps| - 1], steps[|steps| - 1];
      Answers(s, front) + if step.Load? then [Loaded(After(s, front), step.id)] else []
  }

  /** Every snapshot is cut to size. */
  ghost predicate AreCut(files: map<Id, string>) { forall id :: id in files ==> Truncate(files[id]) == files[id] }

  ghost predicate NoneEmpty(files: map<Id, string>) { forall id :: id in files ==> files[id] != "" }

  lemma StepKeepsSnapshots(s: Served, step: Step)
    requires NoneEmpty(s.files)
    ensures NoneEmpty(Next(s, step).files) && s.files.Keys <= Next(s, step).files.Keys
  {
    hide Truncate;
    if step.Ask? && step.git.Output? {
      TruncateKeeps(step.git.text);
    }
  }

  /** In every run a snapshot, once there, is never lost and never empty. */
  lemma {:induction false} SnapshotsAreKept(s: Served, steps: seq<Step>)
    requires NoneEmpty(s.files)
    ensures NoneEmpty(After(s, steps).files) && s.files.Keys <= After(s, steps).files.Keys
  {
    if steps != [] {
      SnapshotsAreKept(s, steps[..|steps| - 1]);
      StepKeepsSnapshots(After(s, steps[..|steps| - 1]), steps[|steps| - 1]);
    }
  }

  lemma TruncateKeeps(content: string)
    ensures Truncate(content) == "" <==> content == ""
  {
  }

  // ---- What is served after each step ----

  /** The persisted snapshot, if the session has one. */
  function Snapshot(s: Served, id: Id): (string, bool)
    requires id in s.sessions
  {
    if s.sessions[id].hasSnapshot && id in s.files then (s.files[id], true) else ("", false)
  }

  ghost predicate OthersStay(s: Served, after: Served, id: Id) {
    && after.sessions.Keys == s.sessions.Keys
    && (forall other :: other in s.sessions && other != id ==> after.sessions[other] == s.sessions[other])
    && (forall other :: other != id ==> (other in after.files <==> other in s.files))
    && (forall other :: other in s.files && other != id ==> after.files[other] == s.files[other])
  }

  /** What a refresh leaves to be served and on disk. Without a snapshot written after the last turn git's text is served
      and, if it can be, written; with one, git is not listened to; an empty text, or no text, leaves the persisted
      snapshot to be served. */
  lemma RefreshServes(s: Served, id: Id, git: Git, isFresh: bool, isWritten: bool)
    requires id in s.sessions
    ensures var after := Next(s, Ask(id, git, isFresh, isWritten));
            var isTakenOver := isFresh && id in s.files;
            && OthersStay(s, after, id)
            && (git.Output? && git.text != "" && !isTakenOver ==>
                  && Loaded(after, id) == (git.text, true)
                  && after.files == (if isWritten then s.files[id := Truncate(git.text)] else s.files)
                  && after.sessions[id].hasSnapshot == (isWritten || s.sessions[id].hasSnapshot))
            && (git == Output("") && !isTakenOver ==> Loaded(after, id) == Snapshot(s, id) && after.files == s.files)
            && ((git == Failed || git.Output?) && isTakenOver && s.files[id] != "" ==>
                  Loaded(after, id) == (s.files[id], true) && after.files == s.files)
            && (git == NotReady || git == NoBase || (git == Failed && !isTakenOver) ==>
                  Loaded(after, id) == Snapshot(s, id) && after.files == s.files)
  {
    hide Truncate;
  }

  /** A session met anew serves the snapshot on disk; a refresh of an unknown session does nothing; what a cold
      instance has restored is served as it was saved. */
  lemma OthersServe(s: Served, id: Id, git: Git, isFresh: bool, isWritten: bool, restored: map<Id, DiffState>)
    ensures id !in s.sessions ==>
              && Next(s, Ask(id, git, isFresh, isWritten)) == s
              && Loaded(Next(s, Meet(id)), id) == (if id in s.files then (s.files[id], true) else ("", false))
              && Next(s, Meet(id)).files == s.files
    ensures id in s.sessions ==> Next(s, Meet(id)) == s
    ensures Loaded(Next(s, GoCold), id) == ("", false)
    ensures Next(Next(s, GoCold), GoWarm(s.sessions)) == s
    ensures id in restored ==>
              var after := Next(s, GoWarm(restored)); id in after.sessions && after.sessions[id] == restored[id]
  {
    assert map[] + s.sessions == s.sessions;
  }

  /** Git's text, then a turn whose refresh fails: the first text is served from the file. */
  lemma RefreshExample()
    ensures var s := Served(map["s" := DiffState("", false, true)], map["s" := "old"]);
            var asked := Next(s, Ask("s", Output("new"), false, true));
            && Loaded(s, "s") == ("old", true) && Loaded(asked, "s") == ("new", true) && asked.files == map["s" := "new"]
            && Loaded(Next(asked, Ask("s", Failed, false, true)), "s") == ("new", true)
  {
    TruncateMeans("new");
  }

  /** Up to 5 MB a text is kept as it is; of a longer one the first 5 MB, and a note that it was cut. */
  lemma TruncateMeans(content: string)
    ensures |content| <= 5242880 ==> Truncate(content) == content
    ensures |content| > 5242880 ==> Truncate(content) == content[..5242880] + "\n[peek: snapshot truncated at 5 MB]\n"
  {
  }

  // ---- Seeding ----

  /** The sessions to seed: those with a snapshot, the most recently active first. */
  function Candidates(sessions: map<Id, DiffState>, byRecency: seq<Id>): seq<Id> {
    if byRecency == [] then []
    else
      var id, before := byRecency[|byRecency| - 1], Candidates(sessions, byRecency[..|byRecency| - 1]);
      if id in sessions && sessions[id].hasSnapshot then before + [id] else before
  }

  /** They are exactly the sessions with a snapshot, in the same order. */
  lemma {:induction false} CandidatesAre(sessions: map<Id, DiffState>, byRecency: seq<Id>) returns (at: seq<nat>)
    ensures |at| == |Candidates(sessions, byRecency)|
    ensures forall k :: 0 <= k < |at| ==> at[k] < |byRecency| && Candidates(sessions, byRecency)[k] == byRecency[at[k]]
    ensures forall k, l :: 0 <= k < l < |at| ==> at[k] < at[l]
    ensures forall i :: 0 <= i < |byRecency| ==>
              (i in at <==> byRecency[i] in sessions && sessions[byRecency[i]].hasSnapshot)
  {
    if byRecency == [] {
      at := [];
    } else {
      var n := |byRecency| - 1;
      at := CandidatesAre(sessions, byRecency[..n]);
      if byRecency[n] in sessions && sessions[byRecency[n]].hasSnapshot {
        at := at + [n];
      }
    }
  }

  /** Those of them whose file is there. */
  function Found(files: map<Id, string>, ids: seq<Id>): seq<Id> {
    if ids == [] then [] else if ids[0] in files then [ids[0]] + Found(files, ids[1..]) else Found(files, ids[1..])
  }

  /** Put from the last to the first. */
  function Puts(files: map<Id, string>, ids: seq<Id>): seq<Touch> {
    if ids == [] then []
    else Puts(files, ids[1..]) + if ids[0] in files then [Touch.Put(ids[0], files[ids[0]])] else []
  }

  lemma {:induction false} FoundAre(files: map<Id, string>, ids: seq<Id>)
    ensures forall id :: id in Found(files, ids) <==> id in ids && id in files
  {
    if ids != [] {
      FoundAre(files, ids[1..]);
      assert ids == [ids[0]] + ids[1..];
    }
  }

  lemma {:induction false} WithoutTail(front: seq<Id>, rest: seq<Id>, id: Id)
    requires id !in front
    ensures Without(front + rest, id) == front + Without(rest, id)
  {
    if front == [] {
      assert front + rest == rest;
    } else {
      assert (front + rest)[1..] == front[1..] + rest;
      WithoutTail(front[1..], rest, id);
    }
  }

  /** After seeding, the seeded ids come first, in the order of their activity. */
  lemma {:induction false} SeededComeFirst(touches: seq<Touch>, files: map<Id, string>, ids: seq<Id>)
    requires Distinct(ids)
    ensures Found(files, ids) <= Recent(touches + Puts(files, ids))
  {
    if ids != [] {
      var tail := ids[1..];
      DistinctTail(ids);
      SeededComeFirst(touches, files, tail);
      var before := touches + Puts(files, tail);
      if ids[0] in files {
        var touch := Touch.Put(ids[0], files[ids[0]]);
        assert touches + Puts(files, ids) == before + [touch];
        TouchedNext(before, touch);
        FoundAre(files, tail);
        var found := Found(files, tail);
        assert Recent(before) == found + Recent(before)[|found|..];
        WithoutTail(found, Recent(before)[|found|..], ids[0]);
      } else {
        assert touches + Puts(files, ids) == before;
      }
    }
  }

  lemma {:induction false} FoundAtMost(files: map<Id, string>, ids: seq<Id>)
    ensures |Found(files, ids)| <= |ids|
  {
    if ids != [] { FoundAtMost(files, ids[1..]); }
  }

  /** A cache that is seeded with no more ids than it holds has every one of them that has a file, in front. */
  lemma SeededAreCached(touches: seq<Touch>, files: map<Id, string>, ids: seq<Id>, capacity: nat)
    requires Distinct(ids) && |ids| <= capacity
    ensures Found(files, ids) <= First(Recent(touches + Puts(files, ids)), capacity)
  {
    SeededComeFirst(touches, files, ids);
    FoundAtMost(files, ids);
  }

  // ---- The store with its cache ----

  class DiffStore {
    const snapshots: SnapshotCache
    var sessions: map<Id, DiffState>
    /** The snapshot files. */
    var files: map<Id, string>

    ghost predicate Valid()
      reads this, snapshots
    {
      && snapshots.Valid() && AreCut(files)
      && (forall id :: id in snapshots.content ==> id in files && files[id] == snapshots.content[id])
    }

    function View(): Served
      reads this
    {
      Served(sessions, files)
    }

    constructor (capacity: nat, served: Served)
      requires AreCut(served.files)
      ensures Valid() && fresh(snapshots) && View() == served && snapshots.capacity == capacity
    {
      snapshots := new SnapshotCache(capacity);
      files, sessions := served.files, served.sessions;
    }

    /** getOrCreate. */
    method Meet(id: Id)
      modifies this`sessions
      ensures View() == Met(old(View()), id)
    {
      if id in sessions {
        return;
      }
      sessions := sessions[id := DiffState("", false, id in files)];
    }

    method UpdateDiff(id: Id, output: string)
      modifies this`sessions
      ensures View() == Updated(old(View()), id, output)
    {
      if id in sessions {
        sessions := sessions[id := sessions[id].(output := output, isLive := true)];
      }
    }

    method MarkDiffSnapshot(id: Id)
      modifies this`sessions
      ensures View() == Marked(old(View()), id)
    {
      if id !in sessions {
        return;
      }
      if sessions[id].output == "" && !sessions[id].hasSnapshot {
        return;
      }
      sessions := sessions[id := sessions[id].(isLive := false)];
    }

    /** The file holds the snapshot; so does the cache from now on. */
    method MarkSnapshotPersisted(id: Id, output: string)
      requires snapshots.Valid() && AreCut(files) && id in files && files[id] == Truncate(output)
      requires forall other :: other in snapshots.content && other != id ==>
                 other in files && files[other] == snapshots.content[other]
      modifies this`sessions, snapshots
      ensures Valid() && View() == Persisted(old(View()), id)
      ensures snapshots.capacity > 0 ==> snapshots.touches == old(snapshots.touches) + [Touch.Put(id, files[id])]
    {
      hide SnapshotCache.Valid, Truncate;
      if id in sessions {
        sessions := sessions[id := sessions[id].(hasSnapshot := true)];
      }
      snapshots.Put(id, Truncate(output));
    }

    /** LoadDiff: with the cache as without it. */
    method LoadDiff(id: Id) returns (content: string, isFound: bool)
      requires Valid()
      modifies snapshots
      ensures Valid() && (content, isFound) == Loaded(View(), id)
      ensures isFound <==> id in sessions && ((sessions[id].isLive && sessions[id].output != "")
                                             || (sessions[id].hasSnapshot && id in files))
      ensures isFound ==>
                content == if sessions[id].isLive && sessions[id].output != "" then sessions[id].output else files[id]
    {
      hide SnapshotCache.Valid, Truncate;
      if id !in sessions {
        return "", false;
      }
      if sessions[id].isLive && sessions[id].output != "" {
        return sessions[id].output, true;
      }
      if !sessions[id].hasSnapshot {
        return "", false;
      }
      var snapshot, isCached := snapshots.Get(id);
      if isCached {
        return snapshot, true;
      }
      if id !in files {
        return "", false;
      }
      snapshots.Put(id, files[id]);
      return files[id], true;
    }

    method CandidatesOf(byRecency: seq<Id>) returns (candidates: seq<Id>)
      ensures candidates == Candidates(sessions, byRecency)
    {
      candidates := [];
      for i := 0 to |byRecency|
        invariant candidates == Candidates(sessions, byRecency[..i])
      {
        assert byRecency[..i + 1][..i] == byRecency[..i];
        if byRecency[i] in sessions && sessions[byRecency[i]].hasSnapshot {
          candidates := candidates + [byRecency[i]];
        }
      }
      assert byRecency[..|byRecency|] == byRecency;
    }

    /** SeedDiffCache: as many snapshots as the cache holds, the most recently active session's last. */
    method SeedDiffCache(byRecency: seq<Id>)
      requires Valid()
      modifies snapshots
      ensures Valid()
      ensures snapshots.capacity > 0 ==>
                snapshots.touches ==
                old(snapshots.touches) + Puts(files, First(Candidates(sessions, byRecency), snapshots.capacity))
    {
      hide SnapshotCache.Valid, Truncate;
      if snapshots.capacity == 0 {
        return;
      }
      var candidates := CandidatesOf(byRecency);
      if |candidates| > snapshots.capacity {
        candidates := candidates[..snapshots.capacity];
      }
      var index := |candidates|;
      while index > 0
        invariant 0 <= index <= |candidates| && Valid()
        invariant snapshots.touches == old(snapshots.touches) + Puts(files, candidates[index..])
      {
        index := index - 1;
        assert candidates[index..][1..] == candidates[index + 1..];
        if candidates[index] in files {
          snapshots.Put(candidates[index], files[candidates[index]]);
        }
      }
    }

    /** persistSnapshot: an unchanged output is only touched. */
    method PersistSnapshot(id: Id, output: string, previous: string, isWritten: bool)
      requires Valid() && (previous != "" ==> id in files && files[id] == previous)
      modifies this`sessions, this`files, snapshots
      ensures Valid() && View() == Kept(old(View()), id, output, isWritten)
    {
      hide SnapshotCache.Valid, Truncate;
      if output == "" {
        return;
      }
      TruncateOnce(output);
      TruncateKeeps(output);
      var isUnchanged := Truncate(output) == previous;
      if !isWritten {
        return;
      }
      if isUnchanged {
        assert files == files[id := Truncate(output)];
      } else {
        files := files[id := Truncate(output)];
      }
      MarkSnapshotPersisted(id, output);
    }

    /** refresh: a snapshot another instance wrote after the last turn is taken over, else git is asked. */
    method Refresh(id: Id, git: Git, isFresh: bool, isWritten: bool)
      requires Valid()
      modifies this`sessions, this`files, snapshots
      ensures Valid() && View() == Refreshed(old(View()), id, git, isFresh, isWritten)
    {
      hide SnapshotCache.Valid, Truncate;
      if id !in sessions {
        return;
      }
      if git == NotReady || git == NoBase {
        MarkDiffSnapshot(id);
        return;
      }
      var existing := if id in files then files[id] else "";
      if isFresh && id in files {
        UpdateDiff(id, existing);
        MarkSnapshotPersisted(id, existing);
        return;
      }
      if git == Failed {
        MarkDiffSnapshot(id);
        return;
      }
      UpdateDiff(id, git.text);
      PersistSnapshot(id, git.text, existing, isWritten);
    }

    /** Going cold drops the sessions and the cache, not the files. */
    method Reset()
      requires Valid()
      modifies this`sessions, snapshots
      ensures Valid() && View() == old(View()).(sessions := map[]) && snapshots.content == map[]
    {
      sessions := map[];
      snapshots.Clear();
    }

    /** Going warm brings the saved sessions back, and no cached snapshot. */
    method Restore(restored: map<Id, DiffState>)
      requires Valid()
      modifies this`sessions
      ensures Valid() && View() == old(View()).(sessions := old(sessions) + restored)
    {
      sessions := sessions + restored;
    }
  }

  /** Any run of one instance serves what it would without a cache: the same sessions, files and answers. */
  method Run(capacity: nat, served: Served, steps: seq<Step>) returns (store: DiffStore, answers: seq<(string, bool)>)
    requires AreCut(served.files)
    ensures store.Valid() && store.View() == After(served, steps) && answers == Answers(served, steps)
  {
    hide Refreshed, SnapshotCache.Valid, Truncate, Candidates, Puts, AreCut;
    store := new DiffStore(capacity, served);
    answers := [];
    for i := 0 to |steps|
      invariant fresh(store) && fresh(store.snapshots) && store.Valid()
      invariant store.View() == After(served, steps[..i]) && answers == Answers(served, steps[..i])
    {
      assert steps[..i + 1][..i] == steps[..i];
      match steps[i]
      case Meet(id) =>
        store.Meet(id);
      case Load(id) =>
        var content, isFound := store.LoadDiff(id);
        answers := answers + [(content, isFound)];
      case Seed(byRecency) =>
        store.SeedDiffCache(byRecency);
      case Ask(id, git, isFresh, isWritten) =>
        store.Refresh(id, git, isFresh, isWritten);
      case GoCold =>
        store.Reset();
      case GoWarm(restored) =>
        store.Restore(restored);
    }
    assert steps[..|steps|] == steps;
  }
}
