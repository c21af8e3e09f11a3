/** The warm set as the program has it (cmd/warm.go, watcher/watcher.go): watcher objects, each with its own files,
    that are filled from a snapshot, or thrown away and built again when a restore fails half way. Taken together
    they do what the state of Warmth.dfy does. */
module WarmSets {
  import opened Types
  import opened TurnBuffers
  import opened Ledgers
  import opened Readers
  import opened Stores
  import opened Warmth

  // ---- Files of several watchers ----

  function Together<P>(parts: seq<Tracked<P>>): Tracked<P> {
    if parts == [] then map[] else Together(parts[..|parts| - 1]) + parts[|parts| - 1]
  }

  /** No path is under two of the directories. */
  ghost predicate Apart(dirs: seq<Path>) {
    forall i, j, path :: 0 <= i < j < |dirs| ==> !(IsUnder(dirs[i], path) && IsUnder(dirs[j], path))
  }

  /** Every watcher tracks paths under its own directory. */
  ghost predicate OwnPaths<P>(parts: seq<Tracked<P>>, dirs: seq<Path>) {
    |parts| == |dirs| && forall k, path :: 0 <= k < |parts| && path in parts[k] ==> IsUnder(dirs[k], path)
  }

  ghost function Part<P>(states: Tracked<P>, dir: Path): Tracked<P> {
    map path | path in states && IsUnder(dir, path) :: states[path]
  }

  lemma FrontApart<P>(parts: seq<Tracked<P>>, dirs: seq<Path>)
    requires OwnPaths(parts, dirs) && Apart(dirs) && parts != []
    ensures OwnPaths(parts[..|parts| - 1], dirs[..|dirs| - 1]) && Apart(dirs[..|dirs| - 1])
  {
  }

  /** A path's state is the one its own watcher has. */
  lemma {:induction false} MergedAt<P>(parts: seq<Tracked<P>>, dirs: seq<Path>, k: nat, path: Path)
    requires OwnPaths(parts, dirs) && Apart(dirs) && k < |parts| && IsUnder(dirs[k], path)
    ensures path in Together(parts) <==> path in parts[k]
    ensures path in parts[k] ==> Together(parts)[path] == parts[k][path]
  {
    var last := |parts| - 1;
    FrontApart(parts, dirs);
    if k < last {
      assert path !in parts[last];
      MergedAt(parts[..last], dirs[..last], k, path);
    } else {
      NotBefore(parts[..last], dirs[..last], dirs[last], path);
    }
  }

  lemma {:induction false} NotBefore<P>(parts: seq<Tracked<P>>, dirs: seq<Path>, dir: Path, path: Path)
    requires OwnPaths(parts, dirs) && Apart(dirs) && forall k :: 0 <= k < |dirs| ==> !IsUnder(dirs[k], path)
    ensures path !in Together(parts)
  {
    if parts != [] {
      FrontApart(parts, dirs);
      NotBefore(parts[..|parts| - 1], dirs[..|dirs| - 1], dir, path);
    }
  }

  lemma NotInLast<P>(parts: seq<Tracked<P>>, dirs: seq<Path>, k: nat, path: Path)
    requires OwnPaths(parts, dirs) && Apart(dirs) && k < |parts| - 1 && IsUnder(dirs[k], path)
    ensures path !in parts[|parts| - 1]
  {
  }

  lemma PutBefore<P>(front: Tracked<P>, last: Tracked<P>, path: Path, watched: Watched<P>)
    requires path !in last
    ensures front[path := watched] + last == (front + last)[path := watched]
  {
  }

  /** What one watcher stores under a path of its own, all of them together store. */
  lemma {:induction false} MergedPut<P>(parts: seq<Tracked<P>>, dirs: seq<Path>, k: nat, path: Path, watched: Watched<P>)
    requires OwnPaths(parts, dirs) && Apart(dirs) && k < |parts| && IsUnder(dirs[k], path)
    ensures Together(parts[k := parts[k][path := watched]]) == Together(parts)[path := watched]
  {
    var last := |parts| - 1;
    var after := parts[k := parts[k][path := watched]];
    if k < last {
      FrontApart(parts, dirs);
      NotInLast(parts, dirs, k, path);
      hide OwnPaths, Apart;
      MergedPut(parts[..last], dirs[..last], k, path, watched);
      assert after[..last] == parts[..last][k := parts[k][path := watched]];
      PutBefore(Together(parts[..last]), parts[last], path, watched);
    } else {
      assert after[..last] == parts[..last];
    }
  }

  /** Restored watcher by watcher, the files are those under any of the directories. */
  lemma {:induction false} MergedParts<P>(parts: seq<Tracked<P>>, states: Tracked<P>, dirs: seq<Path>)
    requires |parts| == |dirs| && forall k :: 0 <= k < |parts| ==> parts[k] == Part(states, dirs[k])
    ensures Together(parts) == Watchable(states, dirs) && OwnPaths(parts, dirs)
  {
    if parts != [] {
      var last := |parts| - 1;
      MergedParts(parts[..last], states, dirs[..last]);
      UnderNext(dirs, last);
      assert dirs[..last + 1] == dirs;
    }
  }

  lemma {:induction false} MergedEmpty<P>(parts: seq<Tracked<P>>, dirs: seq<Path>)
    requires |parts| == |dirs| && forall k :: 0 <= k < |parts| ==> parts[k] == map[]
    ensures Together(parts) == map[] && OwnPaths(parts, dirs)
  {
    if parts != [] { MergedEmpty(parts[..|parts| - 1], dirs[..|dirs| - 1]); }
  }

  lemma UnderNext(dirs: seq<Path>, i: nat)
    requires i < |dirs|
    ensures forall path :: Under(dirs[..i + 1], path) <==> Under(dirs[..i], path) || IsUnder(dirs[i], path)
  {
    var longer := dirs[..i + 1];
    forall path ensures Under(longer, path) <==> Under(dirs[..i], path) || IsUnder(dirs[i], path) {
      if Under(dirs[..i], path) {
        var k :| 0 <= k < i && IsUnder(dirs[..i][k], path);
        assert IsUnder(longer[k], path);
      }
      if IsUnder(dirs[i], path) {
        assert IsUnder(longer[i], path);
      }
      if Under(longer, path) {
        var k :| 0 <= k <= i && IsUnder(longer[k], path);
        assert k < i ==> dirs[..i][k] == longer[k];
      }
    }
  }

  /** A read by the path's own watcher is a read on all files together. */
  lemma ReadOnMerged<P>(setup: Setup<P>, parts: seq<Tracked<P>>, dirs: seq<Path>, k: nat, store: Store, path: Path,
                        content: Bytes, now: Time)
    requires OwnPaths(parts, dirs) && Apart(dirs) && k < |parts| && IsUnder(dirs[k], path)
    ensures var (files, told) := ReadOn(setup, parts[k], store, path, content, now);
            && OwnPaths(parts[k := files], dirs)
            && (Together(parts[k := files]), told) == ReadOn(setup, Together(parts), store, path, content, now)
  {
    hide AddTurns, ParserFrom, TurnsFrom, Lines, CompleteLength, Together, Apart;
    MergedAt(parts, dirs, k, path);
    var (files, told) := ReadOn(setup, parts[k], store, path, content, now);
    if files == parts[k] {
      assert parts[k := files] == parts;
    }
    if path in files {
      MergedPut(parts, dirs, k, path, files[path]);
    }
  }

  // ---- The objects ----

  class Watcher<P> {
    const dir: Path
    var files: Tracked<P>

    constructor (dir: Path)
      ensures this.dir == dir && files == map[]
    {
      this.dir, files := dir, map[];
    }

    /** readNewLines: the complete new lines go through the parser and into the store. */
    method ReadNewLines(setup: Setup<P>, path: Path, content: Bytes, store: Store, now: Time) returns (told: Store)
      modifies this`files
      ensures (files, told) == ReadOn(setup, old(files), store, path, content, now)
    {
      hide AddTurn, ParserFrom, TurnsFrom, Lines, CompleteLength;
      var watched := if path in files then files[path] else Watched(0, setup.parsing.start);
      told := store;
      if watched.offset > |content| {
        return;
      }
      var lines, consumed := TakeLines(content[watched.offset..]);
      var parser := watched.parser;
      NoLines(setup.parsing, path, watched.parser);
      for i := 0 to |lines|
        invariant files == old(files) && parser == ParserFrom(setup.parsing, path, watched.parser, lines[..i])
        invariant told == AddTurns(store, setup.agentOf(path), setup.depth,
                                   TurnsFrom(setup.parsing, path, watched.parser, lines[..i]), now)
      {
        assert lines[..i + 1] == lines[..i] + [lines[i]];
        LineSnoc(setup.parsing, path, watched.parser, lines[..i], lines[i]);
        var (next, turn) := setup.parsing.step(path, parser, lines[i]);
        parser := next;
        if turn.Some? {
          AddTurnsSnoc(store, setup.agentOf(path), setup.depth,
                       TurnsFrom(setup.parsing, path, watched.parser, lines[..i]), turn.value.(filePath := path), now);
          told := AddTurn(told, setup.agentOf(path), setup.depth, Arrival(turn.value.(filePath := path), now));
        } else {
          assert TurnsFrom(setup.parsing, path, watched.parser, lines[..i]) + [] ==
                 TurnsFrom(setup.parsing, path, watched.parser, lines[..i]);
        }
      }
      assert lines[..|lines|] == lines;
      files := files[path := Watched(watched.offset + consumed, parser)];
    }

    /** RestoreFiles: in whatever order the states come, it stops at one whose parser cannot be restored; what it
        stored before that stays. */
    method RestoreFiles(states: Tracked<P>, broken: set<Path>) returns (isRestored: bool)
      modifies this`files
      ensures isRestored <==> forall path :: path in states && IsUnder(dir, path) ==> path !in broken
      ensures isRestored ==> files == old(files) + Part(states, dir)
    {
      var rest := states.Keys;
      while rest != {}
        invariant rest <= states.Keys
        invariant forall path :: path in states && path !in rest && IsUnder(dir, path) ==> path !in broken
        invariant forall path :: path in files <==> path in old(files) || (path in Part(states, dir) && path !in rest)
        invariant forall path :: path in files ==>
                    files[path] == if path in Part(states, dir) && path !in rest then states[path] else old(files)[path]
      {
        var path :| path in rest;
        rest := rest - {path};
        if !IsUnder(dir, path) {
          continue;
        }
        if path in broken {
          return false;
        }
        files := files[path := states[path]];
      }
      return true;
    }
  }

  lemma AddTurnsSnoc(store: Store, agent: Agent, depth: Capacity, turns: seq<Turn>, turn: Turn, now: Time)
    ensures AddTurns(store, agent, depth, turns + [turn], now) ==
            AddTurn(AddTurns(store, agent, depth, turns, now), agent, depth, Arrival(turn, now))
  {
    assert (turns + [turn])[..|turns|] == turns;
  }

  function DirsOf<P>(watchers: seq<Watcher<P>>): seq<Path> {
    seq(|watchers|, i requires 0 <= i < |watchers| => watchers[i].dir)
  }

  ghost function Held<P>(watchers: seq<Watcher<P>>): seq<Tracked<P>>
    reads watchers
  {
    seq(|watchers|, i requires 0 <= i < |watchers| reads watchers => watchers[i].files)
  }

  predicate Distinct<P(!new)>(watchers: seq<Watcher<P>>) {
    forall i, j :: 0 <= i < j < |watchers| ==> watchers[i] != watchers[j]
  }

  /** transcriptWatchers: one for each directory, with nothing read yet. */
  method TranscriptWatchers<P(!new)>(dirs: seq<Path>) returns (watchers: seq<Watcher<P>>)
    ensures DirsOf(watchers) == dirs && Distinct(watchers) && forall w :: w in watchers ==> fresh(w)
    ensures forall k :: 0 <= k < |Held(watchers)| ==> Held(watchers)[k] == map[]
  {
    watchers := [];
    for i := 0 to |dirs|
      invariant DirsOf(watchers) == dirs[..i] && Distinct(watchers) && |watchers| == i
      invariant forall w :: w in watchers ==> fresh(w) && w.files == map[]
    {
      var watcher := new Watcher<P>(dirs[i]);
      watchers := watchers + [watcher];
    }
  }

  class Instance<P(!new)> {
    const setup: Setup<P>
    var isWarm: bool
    /** The instance's snapshot file. */
    var saved: Option<StoreSnapshot<P>>
    var store: Store
    var watchers: seq<Watcher<P>>

    ghost predicate Valid()
      reads this, watchers
    {
      && Distinct(watchers) && OwnPaths(Held(watchers), DirsOf(watchers)) && Apart(DirsOf(watchers))
      && (!isWarm ==> watchers == [] && store == map[])
    }

    ghost function View(disk: Disk): State<P>
      reads this, watchers
    {
      State(disk, DirsOf(watchers), Together(Held(watchers)), isWarm, saved, store)
    }

    constructor (setup: Setup<P>, ghost disk: Disk)
      ensures Valid() && this.setup == setup && watchers == [] && View(disk) == After(setup, disk, [])
    {
      this.setup := setup;
      isWarm, saved, store, watchers := false, None, map[], [];
    }

    /** A file is read by the watcher of its directory. */
    method ReadNewLines(path: Path, disk: Disk, now: Time)
      requires Valid()
      modifies this`store, (set w | w in watchers)
      ensures Valid() && View(disk) == ReadNext(setup, old(View(disk)), path, now)
    {
      hide ReadOn, Together, Apart;
      if !isWarm || path !in disk {
        return;
      }
      var i := 0;
      while i < |watchers| && !IsUnder(watchers[i].dir, path)
        invariant i <= |watchers| && forall k :: 0 <= k < i ==> !IsUnder(watchers[k].dir, path)
      {
        i := i + 1;
      }
      if i == |watchers| {
        return;
      }
      assert IsUnder(DirsOf(watchers)[i], path);
      ghost var parts := Held(watchers);
      ReadOnMerged(setup, parts, DirsOf(watchers), i, store, path, disk[path], now);
      store := watchers[i].ReadNewLines(setup, path, disk[path], store, now);
      assert Held(watchers) == parts[i := watchers[i].files];
    }

    /** FileStates of every watcher, copied into one map. */
    method FileStates() returns (files: Tracked<P>)
      ensures files == Together(Held(watchers))
    {
      files := map[];
      for i := 0 to |watchers|
        invariant files == Together(Held(watchers)[..i])
      {
        assert Held(watchers)[..i + 1][..i] == Held(watchers)[..i];
        files := files + watchers[i].files;
      }
      assert Held(watchers)[..|watchers|] == Held(watchers);
    }

    /** stop: writeSnapshot, then Reset. */
    method Stop(isWritten: bool, ghost disk: Disk)
      requires Valid() && isWarm
      modifies this
      ensures Valid() && watchers == [] && View(disk) == Cooled(old(View(disk)), isWritten)
    {
      var files := FileStates();
      if isWritten {
        saved := Some(StoreSnapshot(files, store));
      }
      store, watchers, isWarm := map[], [], false;
    }

    /** restoreSnapshot: the watchers one after the other, then the store. A snapshot that could be opened is gone
        afterwards; when a watcher fails, those before it stay filled. */
    method RestoreSnapshot(outcome: Outcome) returns (isRestored: bool)
      requires Distinct(watchers) && store == map[] && forall k :: 0 <= k < |watchers| ==> watchers[k].files == map[]
      modifies this`saved, this`store, watchers
      ensures saved == if outcome.OpenFails? then old(saved) else None
      ensures isRestored <==>
              old(saved).Some? && outcome.Decodes? && AllParse(old(saved).value.files, DirsOf(watchers), outcome.broken)
      ensures store == if isRestored then old(saved).value.sessions else map[]
      ensures isRestored ==>
                forall k :: 0 <= k < |watchers| ==> watchers[k].files == Part(old(saved).value.files, watchers[k].dir)
    {
      if saved == None || outcome.OpenFails? {
        return false;
      }
      var snapshot := saved.value;
      saved := None;
      if outcome.DecodeFails? {
        return false;
      }
      for i := 0 to |watchers|
        invariant store == map[] && saved == None
        invariant forall k, path :: 0 <= k < i && path in snapshot.files && IsUnder(watchers[k].dir, path) ==>
                    path !in outcome.broken
        invariant forall k :: 0 <= k < |watchers| ==>
                    watchers[k].files == if k < i then Part(snapshot.files, watchers[k].dir) else map[]
      {
        var isFilled := watchers[i].RestoreFiles(snapshot.files, outcome.broken);
        if !isFilled {
          NotAllParse(snapshot.files, DirsOf(watchers), outcome.broken, i);
          return false;
        }
        assert map[] + Part(snapshot.files, watchers[i].dir) == Part(snapshot.files, watchers[i].dir);
      }
      store := store + snapshot.sessions;
      return true;
    }

    lemma NotAllParse(files: Tracked<P>, dirs: seq<Path>, broken: set<Path>, i: nat)
      requires i < |dirs| && exists path :: path in files && IsUnder(dirs[i], path) && path in broken
      ensures !AllParse(files, dirs, broken)
    {
      var path :| path in files && IsUnder(dirs[i], path) && path in broken;
      assert Under(dirs, path);
    }

    /** startWarmSet: when the restore fails, the watchers it filled are thrown away for new ones. */
    method Start(dirs: seq<Path>, outcome: Outcome, ghost disk: Disk)
      requires Valid() && !isWarm && Apart(dirs)
      modifies this
      ensures Valid() && (forall w :: w in watchers ==> fresh(w))
      ensures View(disk) == Warmed(old(View(disk)), dirs, outcome)
    {
      hide Together, Apart, AllParse, OwnPaths, Part, Watchable;
      ghost var was := saved;
      isWarm := true;
      var built := TranscriptWatchers(dirs);
      watchers := built;
      assert forall k :: 0 <= k < |built| ==> built[k].files == Held(built)[k] && built[k] in built;
      var isRestored := RestoreSnapshot(outcome);
      if isRestored {
        assert forall k :: 0 <= k < |watchers| ==> DirsOf(watchers)[k] == watchers[k].dir;
        MergedParts(Held(watchers), was.value.files, dirs);
      } else {
        watchers := TranscriptWatchers(dirs);
        MergedEmpty(Held(watchers), dirs);
      }
    }
  }

  /** Any schedule, taken by the objects: they end in the schedule's state. */
  method Run<P(!new)>(setup: Setup<P>, disk: Disk, steps: seq<Step>) returns (instance: Instance<P>, content: Disk)
    requires forall i :: 0 <= i < |steps| && steps[i].Warm? ==> Apart(steps[i].dirs)
    ensures instance.Valid() && instance.setup == setup && instance.View(content) == After(setup, disk, steps)
  {
    hide ReadNext, Cooled, Warmed, Together, OwnPaths, Apart;
    instance := new Instance(setup, disk);
    content := disk;
    for i := 0 to |steps|
      invariant fresh(instance) && instance.setup == setup && instance.Valid()
      invariant forall w :: w in instance.watchers ==> fresh(w)
      invariant instance.View(content) == After(setup, disk, steps[..i])
    {
      assert steps[..i + 1] == steps[..i] + [steps[i]];
      AfterSnoc(setup, disk, steps[..i], steps[i]);
      match steps[i]
      case Append(path, added) =>
        content := Appended(content, path, added);
      case Read(path, now) =>
        instance.ReadNewLines(path, content, now);
      case Cool(isWritten) =>
        ColdStays(instance.View(content), steps[i]);
        if instance.isWarm {
          instance.Stop(isWritten, content);
        }
      case Warm(dirs, outcome) =>
        ColdStays(instance.View(content), steps[i]);
        if !instance.isWarm {
          instance.Start(dirs, outcome, content);
        }
    }
    assert steps[..|steps|] == steps;
  }

  lemma ColdStays<P>(s: State<P>, step: Step)
    ensures step.Cool? && !s.isWarm ==> Cooled(s, step.isWritten) == s
    ensures step.Warm? && s.isWarm ==> Warmed(s, step.dirs, step.outcome) == s
  {
  }
}
