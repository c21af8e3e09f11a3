/** Going cold and warm (cmd/warm.go, watcher/watcher.go): the store and the read positions it was built from
    are saved and restored together, so no line is lost or taken twice. */
module Warmth {
  import opened Types
  import opened EventBuffers
  import opened TurnBuffers
  import opened Ledgers
  import opened Denials
  import opened Readers
  import opened Stores

  type Path = string

  /** A watcher's parser: a fresh one, and the step from one line to the next. What it keeps between lines is
      saved and restored as it is; its step ends with the turn's validation and project stamp. */
  datatype Parsing<!P> = Parsing(start: P, step: (Path, P, Bytes) -> (P, Option<Turn>))

  /** A tracked file: how far it is read, and its parser. */
  datatype Watched<P> = Watched(offset: nat, parser: P)

  type Tracked<P> = map<Path, Watched<P>>

  datatype StoreSnapshot<P> = StoreSnapshot(files: Tracked<P>, sessions: Store)

  type Disk = map<Path, Bytes>

  // ---- What lines read as ----

  /** Where a parser is after these lines. */
  function ParserFrom<P>(w: Parsing<P>, path: Path, parser: P, lines: seq<Bytes>): P {
    if lines == [] then parser
    else w.step(path, ParserFrom(w, path, parser, lines[..|lines| - 1]), lines[|lines| - 1]).0
  }

  /** The turns it makes of them. */
  function TurnsFrom<P>(w: Parsing<P>, path: Path, parser: P, lines: seq<Bytes>): seq<Turn> {
    if lines == [] then []
    else
      var front := lines[..|lines| - 1];
      match w.step(path, ParserFrom(w, path, parser, front), lines[|lines| - 1]).1
      case Some(turn) => TurnsFrom(w, path, parser, front) + [turn.(filePath := path)]
      case None => TurnsFrom(w, path, parser, front)
  }

  /** The same from the start of a transcript. */
  function ParserAfter<P>(w: Parsing<P>, path: Path, lines: seq<Bytes>): P { ParserFrom(w, path, w.start, lines) }

  function TurnsOf<P>(w: Parsing<P>, path: Path, lines: seq<Bytes>): seq<Turn> { TurnsFrom(w, path, w.start, lines) }

  lemma LineSnoc<P>(w: Parsing<P>, path: Path, parser: P, lines: seq<Bytes>, line: Bytes)
    ensures var (next, turn) := w.step(path, ParserFrom(w, path, parser, lines), line);
            && ParserFrom(w, path, parser, lines + [line]) == next
            && TurnsFrom(w, path, parser, lines + [line]) ==
               TurnsFrom(w, path, parser, lines) + if turn.Some? then [turn.value.(filePath := path)] else []
  {
    assert (lines + [line])[..|lines|] == lines;
  }

  /** Lines can be parsed in two goes. */
  lemma {:induction false} ParseInTwo<P>(w: Parsing<P>, path: Path, parser: P, lines: seq<Bytes>, more: seq<Bytes>)
    ensures ParserFrom(w, path, parser, lines + more) == ParserFrom(w, path, ParserFrom(w, path, parser, lines), more)
    ensures TurnsFrom(w, path, parser, lines + more) ==
            TurnsFrom(w, path, parser, lines) + TurnsFrom(w, path, ParserFrom(w, path, parser, lines), more)
  {
    hide ParserFrom, TurnsFrom;
    if more == [] {
      assert lines + more == lines;
      NoLines(w, path, ParserFrom(w, path, parser, lines));
    } else {
      var front, last := more[..|more| - 1], more[|more| - 1];
      ParseInTwo(w, path, parser, lines, front);
      assert lines + more == (lines + front) + [last] && more == front + [last];
      LineSnoc(w, path, parser, lines + front, last);
      LineSnoc(w, path, ParserFrom(w, path, parser, lines), front, last);
    }
  }

  lemma NoLines<P>(w: Parsing<P>, path: Path, parser: P)
    ensures ParserFrom(w, path, parser, []) == parser && TurnsFrom(w, path, parser, []) == []
  {
  }

  // ---- Exactness ----

  /** What is fixed for an instance: its parsers, whose agent a path is, and the depth of its buffers. */
  datatype Setup<!P> = Setup(parsing: Parsing<P>, agentOf: Path -> Agent, depth: Capacity)

  /** A file's read position ends a line, and its parser is where the lines up to there leave it. */
  ghost predicate Tracks<P>(setup: Setup<P>, disk: Disk, path: Path, watched: Watched<P>) {
    && path in disk && watched.offset <= |disk[path]|
    && EndsLine(disk[path][..watched.offset])
    && watched.parser == ParserAfter(setup.parsing, path, Lines(disk[path][..watched.offset]))
  }

  /** The turns of the lines a file is read up to. */
  ghost function TurnsRead<P>(setup: Setup<P>, files: Tracked<P>, disk: Disk, path: Path): seq<Turn> {
    if path in files && path in disk && files[path].offset <= |disk[path]|
    then TurnsOf(setup.parsing, path, Lines(disk[path][..files[path].offset])) else []
  }

  /** Every session is what one ingest of the lines read so far of its transcript makes of it. */
  ghost predicate Exact<P(!new)>(setup: Setup<P>, home: Id -> Path, files: Tracked<P>, store: Store, disk: Disk) {
    && (forall path :: path in files ==> Tracks(setup, disk, path, files[path]))
    && (forall id ::
          Lookup(store, id) == SessionOf(TurnsRead(setup, files, disk, home(id)), id, setup.agentOf(home(id)), setup.depth))
  }

  /** Every session has one transcript, its home, and no line carries a plan. */
  ghost predicate OneTranscript<P(!new)>(setup: Setup<P>, home: Id -> Path, disk: Disk) {
    forall path :: path in disk ==> AtHome(home, path, TurnsOf(setup.parsing, path, Lines(disk[path])))
  }

  ghost predicate AtHome(home: Id -> Path, path: Path, turns: seq<Turn>) {
    forall i :: 0 <= i < |turns| ==> home(turns[i].meta.sessionId) == path && turns[i].planFilePath == ""
  }

  /** Transcripts are only appended to. */
  ghost predicate Grows(disk: Disk, later: Disk) {
    forall path :: path in disk ==> path in later && disk[path] <= later[path]
  }

  lemma LinesGrow(s: Bytes, later: Bytes)
    requires s <= later
    ensures exists more :: Lines(later) == Lines(s) + more
  {
    hide Lines, CompleteLength, EndsLine;
    var n := CompleteLength(s);
    CompletePart(s);
    LinesSplit(s[..n], later[n..]);
    assert later == s[..n] + later[n..];
  }

  lemma OneTranscriptBefore<P(!new)>(setup: Setup<P>, home: Id -> Path, disk: Disk, later: Disk)
    requires OneTranscript(setup, home, later) && Grows(disk, later)
    ensures OneTranscript(setup, home, disk)
  {
    hide AtHome, Lines, ParserFrom, TurnsFrom;
    forall path | path in disk ensures AtHome(home, path, TurnsOf(setup.parsing, path, Lines(disk[path]))) {
      LinesGrow(disk[path], later[path]);
      var more :| Lines(later[path]) == Lines(disk[path]) + more;
      ParseInTwo(setup.parsing, path, setup.parsing.start, Lines(disk[path]), more);
      AtHomeFront(home, path, TurnsOf(setup.parsing, path, Lines(disk[path])),
          TurnsOf(setup.parsing, path, Lines(later[path])));
    }
  }

  lemma AtHomeFront(home: Id -> Path, path: Path, turns: seq<Turn>, all: seq<Turn>)
    requires AtHome(home, path, all) && turns <= all
    ensures AtHome(home, path, turns)
  {
  }

  lemma ExactLater<P(!new)>(setup: Setup<P>, home: Id -> Path, files: Tracked<P>, store: Store, disk: Disk,
                            later: Disk)
    requires Exact(setup, home, files, store, disk) && Grows(disk, later)
    ensures Exact(setup, home, files, store, later)
  {
    hide SessionOf, Lookup, Lines, EndsLine, ParserAfter, TurnsOf;
    forall path | path in files
      ensures Tracks(setup, later, path, files[path])
    {
      assert Tracks(setup, disk, path, files[path]);
      assert later[path][..files[path].offset] == disk[path][..files[path].offset];
    }
    forall id ensures TurnsRead(setup, files, later, home(id)) == TurnsRead(setup, files, disk, home(id)) {
      if home(id) in files {
        assert Tracks(setup, disk, home(id), files[home(id)]);
        assert later[home(id)][..files[home(id)].offset] == disk[home(id)][..files[home(id)].offset];
      }
    }
  }

  // ---- One read ----

  function AddTurns(store: Store, agent: Agent, depth: Capacity, turns: seq<Turn>, now: Time): Store {
    if turns == [] then store
    else AddTurn(AddTurns(store, agent, depth, turns[..|turns| - 1], now), agent, depth, Arrival(turns[|turns| - 1], now))
  }

  /** readNewLines: a file's new complete lines go through its parser into the store. */
  function ReadOn<P>(setup: Setup<P>, files: Tracked<P>, store: Store, path: Path, content: Bytes, now: Time):
      (Tracked<P>, Store) {
    var watched := if path in files then files[path] else Watched(0, setup.parsing.start);
    if watched.offset > |content| then (files, store)
    else
      var lines := Lines(content[watched.offset..]);
      (files[path := Watched(watched.offset + CompleteLength(content[watched.offset..]),
                             ParserFrom(setup.parsing, path, watched.parser, lines))],
       AddTurns(store, setup.agentOf(path), setup.depth, TurnsFrom(setup.parsing, path, watched.parser, lines), now))
  }

  /** The store before a read, and after it has been told `turns` of the file. */
  ghost predicate HasHeard<P(!new)>(setup: Setup<P>, home: Id -> Path, was: Store, store: Store, path: Path,
                                    turns: seq<Turn>) {
    forall id :: Lookup(store, id) ==
                 if home(id) == path then SessionOf(turns, id, setup.agentOf(path), setup.depth) else Lookup(was, id)
  }

  lemma TellOne<P(!new)>(setup: Setup<P>, home: Id -> Path, was: Store, store: Store, path: Path, turns: seq<Turn>,
                         turn: Turn, now: Time)
    requires HasHeard(setup, home, was, store, path, turns) && AtHome(home, path, [turn])
    ensures HasHeard(setup, home, was, AddTurn(store, setup.agentOf(path), setup.depth, Arrival(turn, now)),
                     path, turns + [turn])
  {
    hide AddTurn, SessionOf, Lookup;
    var after := AddTurn(store, setup.agentOf(path), setup.depth, Arrival(turn, now));
    assert home([turn][0].meta.sessionId) == path && [turn][0].planFilePath == "";
    forall id
      ensures Lookup(after, id) == if home(id) == path
              then SessionOf(turns + [turn], id, setup.agentOf(path), setup.depth) else Lookup(was, id)
    {
      if home(id) == path {
        AddTurnMoves(store, setup.agentOf(path), setup.depth, turn, now, turns, id);
      } else {
        AddTurnLeaves(store, setup.agentOf(path), setup.depth, turn, now, id);
      }
    }
  }

  lemma {:induction false} TellAll<P(!new)>(setup: Setup<P>, home: Id -> Path, was: Store, store: Store, path: Path,
                                            turns: seq<Turn>, more: seq<Turn>, now: Time)
    requires HasHeard(setup, home, was, store, path, turns) && AtHome(home, path, more)
    ensures HasHeard(setup, home, was, AddTurns(store, setup.agentOf(path), setup.depth, more, now), path, turns + more)
  {
    hide AddTurn, HasHeard;
    if more == [] {
      assert turns + more == turns;
    } else {
      var front, last := more[..|more| - 1], more[|more| - 1];
      TellAll(setup, home, was, store, path, turns, front, now);
      assert AtHome(home, path, [last]);
      TellOne(setup, home, was, AddTurns(store, setup.agentOf(path), setup.depth, front, now), path, turns + front, last, now);
      assert turns + more == (turns + front) + [last];
    }
  }

  /** A read that takes a file from one line end to the next keeps the store exact. */
  lemma ReadKeepsExact<P(!new)>(setup: Setup<P>, home: Id -> Path, files: Tracked<P>, was: Store,
                                      store: Store, disk: Disk, path: Path, watched: Watched<P>)
    requires Exact(setup, home, files, was, disk) && path in disk
    requires Tracks(setup, disk, path, watched)
    requires HasHeard(setup, home, was, store, path, TurnsOf(setup.parsing, path, Lines(disk[path][..watched.offset])))
    ensures Exact(setup, home, files[path := watched], store, disk)
  {
    hide SessionOf, Lookup, Lines, EndsLine, ParserAfter, TurnsOf;
    forall id ensures TurnsRead(setup, files[path := watched], disk, home(id)) ==
                      if home(id) == path then TurnsOf(setup.parsing, path, Lines(disk[path][..watched.offset]))
                      else TurnsRead(setup, files, disk, home(id)) {
    }
  }

  /** Before the read the file is at a line end, its parser and its sessions are where the lines so far leave them. */
  lemma StartsExact<P(!new)>(setup: Setup<P>, home: Id -> Path, files: Tracked<P>, store: Store, disk: Disk, path: Path,
                             watched: Watched<P>)
    requires Exact(setup, home, files, store, disk) && path in disk
    requires watched == if path in files then files[path] else Watched(0, setup.parsing.start)
    ensures Tracks(setup, disk, path, watched)
    ensures HasHeard(setup, home, store, store, path, TurnsOf(setup.parsing, path, Lines(disk[path][..watched.offset])))
  {
    hide SessionOf;
    if path !in files {
      assert disk[path][..0] == [];
      NoNewline([]);
    }
    assert TurnsRead(setup, files, disk, path) == TurnsOf(setup.parsing, path, Lines(disk[path][..watched.offset]));
  }

  /** What the read adds to the lines so far, and where it stops. */
  lemma ReadAhead<P(!new)>(setup: Setup<P>, home: Id -> Path, path: Path, disk: Disk, offset: nat)
    requires path in disk && offset <= |disk[path]| && EndsLine(disk[path][..offset])
    requires OneTranscript(setup, home, disk)
    ensures var later := offset + CompleteLength(disk[path][offset..]);
            && later == CompleteLength(disk[path])
            && EndsLine(disk[path][..later])
            && Lines(disk[path][..later]) == Lines(disk[path][..offset]) + Lines(disk[path][offset..])
            && AtHome(home, path, TurnsOf(setup.parsing, path, Lines(disk[path][..offset]) + Lines(disk[path][offset..])))
  {
    hide Lines, CompleteLength, AtHome;
    var content := disk[path];
    LinesSplit(content[..offset], content[offset..]);
    assert content == content[..offset] + content[offset..];
    CompletePart(content);
  }

  /** Reading a file on keeps the store exact, and takes all its complete lines. */
  lemma ReadIsExact<P(!new)>(setup: Setup<P>, home: Id -> Path, files: Tracked<P>, store: Store, disk: Disk, path: Path,
                             now: Time)
    requires Exact(setup, home, files, store, disk) && OneTranscript(setup, home, disk) && path in disk
    ensures var (tracked, told) := ReadOn(setup, files, store, path, disk[path], now);
            && Exact(setup, home, tracked, told, disk)
            && path in tracked && tracked[path].offset == CompleteLength(disk[path])
  {
    hide Exact, HasHeard, AtHome, ParserFrom, TurnsFrom, Lines, CompleteLength, AddTurns, OneTranscript;
    var watched := if path in files then files[path] else Watched(0, setup.parsing.start);
    StartsExact(setup, home, files, store, disk, path, watched);
    var content := disk[path];
    var done, more := Lines(content[..watched.offset]), Lines(content[watched.offset..]);
    ReadAhead(setup, home, path, disk, watched.offset);
    ParseInTwo(setup.parsing, path, setup.parsing.start, done, more);
    var turns := TurnsFrom(setup.parsing, path, watched.parser, more);
    LaterAtHome(home, path, TurnsOf(setup.parsing, path, done), turns);
    TellAll(setup, home, store, store, path, TurnsOf(setup.parsing, path, done), turns, now);
    var (tracked, told) := ReadOn(setup, files, store, path, content, now);
    ReadKeepsExact(setup, home, files, store, told, disk, path, tracked[path]);
  }

  lemma LaterAtHome(home: Id -> Path, path: Path, turns: seq<Turn>, more: seq<Turn>)
    requires AtHome(home, path, turns + more)
    ensures AtHome(home, path, more)
  {
    assert forall i :: 0 <= i < |more| ==> more[i] == (turns + more)[|turns| + i];
  }

  // ---- What a warm-up takes over ----

  /** Opening or decoding the snapshot may fail; so may restoring the parsers of some of its files. */
  datatype Outcome = OpenFails | DecodeFails | Decodes(broken: set<Path>)

  predicate IsUnder(dir: Path, path: Path) { dir + "/" <= path }

  /** The paths under a watcher's directory. */
  predicate Under(dirs: seq<Path>, path: Path) { exists i :: 0 <= i < |dirs| && IsUnder(dirs[i], path) }

  ghost function Watchable<P>(files: Tracked<P>, dirs: seq<Path>): Tracked<P> {
    map path | path in files && Under(dirs, path) :: files[path]
  }

  /** Every file under a watcher's directory has a parser that can be restored. */
  ghost predicate AllParse<P>(files: Tracked<P>, dirs: seq<Path>, broken: set<Path>) {
    forall path :: path in files && Under(dirs, path) ==> path !in broken
  }

  /** Restoring takes every session, but only the read positions under this period's directories: the store is
      exact again exactly when no session's transcript was left out. */
  lemma RestoreIsExactExactly<P(!new)>(setup: Setup<P>, home: Id -> Path, saved: StoreSnapshot<P>, disk: Disk,
                                       dirs: seq<Path>)
    requires Exact(setup, home, saved.files, saved.sessions, disk)
    ensures Exact(setup, home, Watchable(saved.files, dirs), saved.sessions, disk) <==>
            forall id :: id in saved.sessions ==> Under(dirs, home(id))
  {
    hide Tracks, Under, SessionOf, TurnsOf, Lines;
    var kept := Watchable(saved.files, dirs);
    forall id ensures TurnsRead(setup, kept, disk, home(id)) ==
                      if Under(dirs, home(id)) then TurnsRead(setup, saved.files, disk, home(id)) else [] {
    }
    NothingRead(setup, home);
  }

  lemma NothingRead<P(!new)>(setup: Setup<P>, home: Id -> Path)
    ensures forall id :: SessionOf([], id, setup.agentOf(home(id)), setup.depth) == None
  {
  }

  // ---- Every schedule ----

  /** An instance over its disk: the watched directories, the files tracked under them, the store, the snapshot file. */
  datatype State<P> = State(disk: Disk, dirs: seq<Path>, files: Tracked<P>, isWarm: bool,
                            saved: Option<StoreSnapshot<P>>, store: Store)

  datatype Step =
    | Append(path: Path, added: Bytes)
    | Read(path: Path, now: Time)
    | Cool(isWritten: bool)
    | Warm(dirs: seq<Path>, outcome: Outcome)

  function Appended(disk: Disk, path: Path, added: Bytes): Disk {
    disk[path := (if path in disk then disk[path] else []) + added]
  }

  /** Only a warm instance reads, and only under its directories. */
  function ReadNext<P>(setup: Setup<P>, s: State<P>, path: Path, now: Time): State<P> {
    if !s.isWarm || path !in s.disk || !Under(s.dirs, path) then s
    else
      var (files, store) := ReadOn(setup, s.files, s.store, path, s.disk[path], now);
      s.(files := files, store := store)
  }

  /** stop: the store and the read positions are written together, or not at all; then both are dropped. */
  function Cooled<P>(s: State<P>, isWritten: bool): State<P> {
    if !s.isWarm then s
    else
      State(s.disk, [], map[], false, if isWritten then Some(StoreSnapshot(s.files, s.store)) else s.saved, map[])
  }

  /** startWarmSet: both parts of the snapshot are taken over, or neither; once opened it is gone. */
  ghost function Warmed<P>(s: State<P>, dirs: seq<Path>, outcome: Outcome): State<P> {
    if s.isWarm then s
    else
      var begun := s.(dirs := dirs, files := map[], isWarm := true, store := map[]);
      if s.saved == None || outcome.OpenFails? then begun
      else
        var gone := begun.(saved := None);
        if outcome.DecodeFails? || !AllParse(s.saved.value.files, dirs, outcome.broken) then gone
        else gone.(files := Watchable(s.saved.value.files, dirs), store := s.saved.value.sessions)
  }

  ghost function Next<P>(setup: Setup<P>, s: State<P>, step: Step): State<P> {
    match step
    case Append(path, added) => s.(disk := Appended(s.disk, path, added))
    case Read(path, now) => ReadNext(setup, s, path, now)
    case Cool(isWritten) => Cooled(s, isWritten)
    case Warm(dirs, outcome) => Warmed(s, dirs, outcome)
  }

  /** The state a schedule leaves, from a cold start over a disk. */
  ghost function After<P>(setup: Setup<P>, disk: Disk, steps: seq<Step>): State<P> {
    if steps == [] then State(disk, [], map[], false, None, map[])
    else Next(setup, After(setup, disk, steps[..|steps| - 1]), steps[|steps| - 1])
  }

  lemma AfterSnoc<P>(setup: Setup<P>, disk: Disk, steps: seq<Step>, step: Step)
    ensures After(setup, disk, steps + [step]) == Next(setup, After(setup, disk, steps), step)
  {
    assert (steps + [step])[..|steps|] == steps;
  }

  /** Every session's transcript is under a directory that every warm-up watches. */
  ghost predicate AlwaysWatched(home: Id -> Path, steps: seq<Step>) {
    forall i :: 0 <= i < |steps| && steps[i].Warm? ==> forall id :: Under(steps[i].dirs, home(id))
  }

  /** While warm the store is exact, while cold it is empty, and what is saved is exact. */
  ghost predicate Sound<P(!new)>(setup: Setup<P>, home: Id -> Path, s: State<P>) {
    && (if s.isWarm then Exact(setup, home, s.files, s.store, s.disk) else s.store == map[] && s.files == map[])
    && (s.saved.Some? ==> Exact(setup, home, s.saved.value.files, s.saved.value.sessions, s.disk))
  }

  lemma AppendGrows(disk: Disk, path: Path, added: Bytes)
    ensures Grows(disk, Appended(disk, path, added))
  {
  }

  lemma StepGrows<P>(setup: Setup<P>, s: State<P>, step: Step)
    ensures Grows(s.disk, Next(setup, s, step).disk)
  {
    if step.Append? { AppendGrows(s.disk, step.path, step.added); }
  }

  lemma AppendIsSound<P(!new)>(setup: Setup<P>, home: Id -> Path, s: State<P>, path: Path, added: Bytes)
    requires Sound(setup, home, s)
    ensures Sound(setup, home, s.(disk := Appended(s.disk, path, added)))
  {
    hide Exact, Appended;
    var later := Appended(s.disk, path, added);
    AppendGrows(s.disk, path, added);
    if s.isWarm { ExactLater(setup, home, s.files, s.store, s.disk, later); }
    if s.saved.Some? { ExactLater(setup, home, s.saved.value.files, s.saved.value.sessions, s.disk, later); }
  }

  lemma WarmIsSound<P(!new)>(setup: Setup<P>, home: Id -> Path, s: State<P>, dirs: seq<Path>, outcome: Outcome)
    requires Sound(setup, home, s) && forall id :: Under(dirs, home(id))
    ensures Sound(setup, home, Warmed(s, dirs, outcome))
  {
    hide Exact, Watchable, AllParse, Under;
    FreshIsExact(setup, home, s.disk);
    if s.saved.Some? {
      RestoreIsExactExactly(setup, home, s.saved.value, s.disk, dirs);
    }
  }

  lemma FreshIsExact<P(!new)>(setup: Setup<P>, home: Id -> Path, disk: Disk)
    ensures Exact(setup, home, map[], map[], disk)
  {
    NothingRead(setup, home);
  }

  lemma StepIsSound<P(!new)>(setup: Setup<P>, home: Id -> Path, s: State<P>, step: Step)
    requires Sound(setup, home, s) && OneTranscript(setup, home, s.disk)
    requires step.Warm? ==> forall id :: Under(step.dirs, home(id))
    ensures Sound(setup, home, Next(setup, s, step))
  {
    hide Exact, OneTranscript, Under, ReadOn, Appended;
    match step
    case Append(path, added) => AppendIsSound(setup, home, s, path, added);
    case Read(path, now) =>
      if s.isWarm && path in s.disk && Under(s.dirs, path) {
        ReadIsExact(setup, home, s.files, s.store, s.disk, path, now);
      }
    case Cool(_) =>
    case Warm(dirs, outcome) => WarmIsSound(setup, home, s, dirs, outcome);
  }

  /** For every schedule of appends, reads, cool-downs and warm-ups, whatever fails on the way, each session is
      one ingest of the lines its transcript is read up to: no line is lost and none is taken twice. */
  lemma {:induction false} ScheduleIsExact<P(!new)>(setup: Setup<P>, home: Id -> Path, disk: Disk, steps: seq<Step>)
    requires OneTranscript(setup, home, After(setup, disk, steps).disk) && AlwaysWatched(home, steps)
    ensures Sound(setup, home, After(setup, disk, steps))
  {
    hide Exact, OneTranscript, Next, Grows, Under;
    if steps != [] {
      var front, step := steps[..|steps| - 1], steps[|steps| - 1];
      var before := After(setup, disk, front);
      StepGrows(setup, before, step);
      OneTranscriptBefore(setup, home, before.disk, After(setup, disk, steps).disk);
      ScheduleIsExact(setup, home, disk, front);
      StepIsSound(setup, home, before, step);
    }
  }

  /** After any schedule, once a warm instance reads a watched transcript on, each session at home there is one
      ingest of all its complete lines. */
  lemma ReadIsComplete<P(!new)>(setup: Setup<P>, home: Id -> Path, disk: Disk, steps: seq<Step>, path: Path, now: Time,
                                id: Id)
    requires var s := After(setup, disk, steps);
             s.isWarm && path in s.disk && Under(s.dirs, path) && OneTranscript(setup, home, s.disk)
    requires AlwaysWatched(home, steps) && home(id) == path
    ensures var s := After(setup, disk, steps + [Read(path, now)]);
            Lookup(s.store, id) ==
            SessionOf(TurnsOf(setup.parsing, path, Lines(s.disk[path])), id, setup.agentOf(path), setup.depth)
  {
    hide OneTranscript, Under, ReadOn, Lines, CompleteLength, TurnsFrom, SessionOf;
    var s := After(setup, disk, steps);
    ScheduleIsExact(setup, home, disk, steps);
    AfterSnoc(setup, disk, steps, Read(path, now));
    ReadIsExact(setup, home, s.files, s.store, s.disk, path, now);
    CompletePart(s.disk[path]);
  }

  // ---- Resuming ----

  ghost predicate TrackedUnder<P>(s: State<P>) { forall path :: path in s.files ==> Under(s.dirs, path) }

  /** Every file tracked is under a watched directory. */
  lemma {:induction false} TrackedIsWatched<P>(setup: Setup<P>, disk: Disk, steps: seq<Step>)
    ensures TrackedUnder(After(setup, disk, steps))
  {
    hide Next;
    if steps != [] {
      var front, step := steps[..|steps| - 1], steps[|steps| - 1];
      TrackedIsWatched(setup, disk, front);
      StepTracksUnder(setup, After(setup, disk, front), step);
    }
  }

  lemma StepTracksUnder<P>(setup: Setup<P>, s: State<P>, step: Step)
    requires TrackedUnder(s)
    ensures TrackedUnder(Next(setup, s, step))
  {
    hide Under, Appended, Lines, CompleteLength, ParserFrom, AddTurns;
  }

  /** Going cold and warm over the same directories resumes exactly where the instance was, if the snapshot is written,
      opened and decoded and every parser restored; if not, everything is read again from the start. A snapshot is used
      once, and one that could not be replaced stays. */
  lemma CycleResumes<P>(setup: Setup<P>, disk: Disk, steps: seq<Step>, isWritten: bool, outcome: Outcome)
    requires After(setup, disk, steps).isWarm
    ensures var s := After(setup, disk, steps);
            var saved := if isWritten then Some(StoreSnapshot(s.files, s.store)) else s.saved;
            var resumed := After(setup, disk, steps + [Cool(isWritten), Warm(s.dirs, outcome)]);
            && resumed.isWarm && resumed.disk == s.disk && resumed.dirs == s.dirs
            && (isWritten && outcome.Decodes? && outcome.broken !! s.files.Keys ==>
                  resumed.files == s.files && resumed.store == s.store && resumed.saved == None)
            && (!outcome.Decodes? || saved == None ==> resumed.files == map[] && resumed.store == map[])
            && (if outcome.OpenFails? then resumed.saved == saved else resumed.saved == None)
  {
    hide Under, Appended, ReadNext;
    var s := After(setup, disk, steps);
    TrackedIsWatched(setup, disk, steps);
    AfterSnoc(setup, disk, steps, Cool(isWritten));
    AfterSnoc(setup, disk, steps + [Cool(isWritten)], Warm(s.dirs, outcome));
    assert steps + [Cool(isWritten)] + [Warm(s.dirs, outcome)] == steps + [Cool(isWritten), Warm(s.dirs, outcome)];
  }

  // ---- What a directory left out does ----

  /** A transcript is read in one warm period, left out of the next, and read again in the third. */
  function LeftOutSchedule(path: Path, content: Bytes, dir: Path, other: Path, now: Time): seq<Step> {
    [Append(path, content), Warm([dir], Decodes({})), Read(path, now), Cool(true), Warm([other], Decodes({})),
     Cool(true), Warm([dir], Decodes({})), Read(path, now)]
  }

  lemma OneDir(dir: Path, path: Path)
    ensures Under([dir], path) <==> IsUnder(dir, path)
  {
    if IsUnder(dir, path) { assert IsUnder([dir][0], path); }
  }

  /** The state after the first read. */
  lemma FirstRead<P>(setup: Setup<P>, path: Path, content: Bytes, dir: Path, now: Time)
    requires IsUnder(dir, path)
    ensures var s := After(setup, map[], [Append(path, content), Warm([dir], Decodes({})), Read(path, now)]);
            && s.isWarm && s.dirs == [dir] && s.disk == map[path := content] && s.saved == None
            && (s.files, s.store) == ReadOn(setup, map[], map[], path, content, now)
  {
    hide ReadOn, Under;
    OneDir(dir, path);
    var (a, b, c) := (Append(path, content), Warm([dir], Decodes({})), Read(path, now));
    assert [] + content == content;
    AfterSnoc(setup, map[], [], a);
    AfterSnoc(setup, map[], [a], b);
    AfterSnoc(setup, map[], [a, b], c);
    assert [] + [a] == [a] && [a] + [b] == [a, b] && [a, b] + [c] == [a, b, c];
  }

  /** The period without the directory drops the read position and keeps the sessions. */
  lemma SecondPeriod<P>(setup: Setup<P>, path: Path, s: State<P>, dir: Path, other: Path)
    requires s.isWarm && s.saved == None && s.files.Keys <= {path}
    requires !IsUnder(other, path) && IsUnder(dir, path)
    ensures Warmed(Cooled(Warmed(Cooled(s, true), [other], Decodes({})), true), [dir], Decodes({})) ==
            s.(dirs := [dir], files := map[])
  {
    OneDir(other, path);
    OneDir(dir, path);
    assert Watchable(s.files, [other]) == map[];
  }

  lemma LeftOutState<P>(setup: Setup<P>, path: Path, content: Bytes, dir: Path, other: Path, now: Time)
    requires IsUnder(dir, path) && !IsUnder(other, path)
    ensures var store := ReadOn(setup, map[], map[], path, content, now).1;
            After(setup, map[], LeftOutSchedule(path, content, dir, other, now)).store ==
            ReadOn(setup, map[], store, path, content, now).1
  {
    hide ReadOn, Under, After, Watchable, AllParse;
    var steps := LeftOutSchedule(path, content, dir, other, now);
    FirstRead(setup, path, content, dir, now);
    assert steps[..3] == [Append(path, content), Warm([dir], Decodes({})), Read(path, now)];
    var s := After(setup, map[], steps[..3]);
    ReadTracks(setup, path, content, now);
    SecondPeriod(setup, path, s, dir, other);
    AfterSnoc(setup, map[], steps[..3], steps[3]);
    assert steps[..4] == steps[..3] + [steps[3]];
    AfterSnoc(setup, map[], steps[..4], steps[4]);
    assert steps[..5] == steps[..4] + [steps[4]];
    AfterSnoc(setup, map[], steps[..5], steps[5]);
    assert steps[..6] == steps[..5] + [steps[5]];
    AfterSnoc(setup, map[], steps[..6], steps[6]);
    assert steps[..7] == steps[..6] + [steps[6]];
    OneDir(dir, path);
    AfterSnoc(setup, map[], steps[..7], steps[7]);
    assert steps == steps[..7] + [steps[7]];
  }

  lemma ReadTracks<P>(setup: Setup<P>, path: Path, content: Bytes, now: Time)
    ensures ReadOn(setup, map[], map[], path, content, now).0.Keys == {path}
  {
  }

  /** After it the sessions of that transcript have taken every one of its turns twice. */
  lemma LeftOutCountsTwice<P(!new)>(setup: Setup<P>, home: Id -> Path, path: Path, content: Bytes, dir: Path, other: Path,
                                    now: Time, id: Id)
    requires IsUnder(dir, path) && !IsUnder(other, path) && home(id) == path
    requires OneTranscript(setup, home, map[path := content])
    ensures var s := After(setup, map[], LeftOutSchedule(path, content, dir, other, now));
            var turns := TurnsOf(setup.parsing, path, Lines(content));
            Lookup(s.store, id) == SessionOf(turns + turns, id, setup.agentOf(path), setup.depth)
  {
    hide HasHeard, AtHome, Lines, CompleteLength, AddTurns, TurnsFrom, ParserFrom, SessionOf;
    LeftOutState(setup, path, content, dir, other, now);
    assert content[0..] == content;
    var turns := TurnsOf(setup.parsing, path, Lines(content));
    assert path in map[path := content] && AtHome(home, path, turns);
    NothingHeard(setup, home, path);
    TellAll(setup, home, map[], map[], path, [], turns, now);
    var once := AddTurns(map[], setup.agentOf(path), setup.depth, turns, now);
    assert [] + turns == turns;
    TellAll(setup, home, map[], once, path, turns, turns, now);
    HeardAt(setup, home, AddTurns(once, setup.agentOf(path), setup.depth, turns, now), path, turns + turns, id);
  }

  lemma NothingHeard<P(!new)>(setup: Setup<P>, home: Id -> Path, path: Path)
    ensures HasHeard(setup, home, map[], map[], path, [])
  {
  }

  lemma HeardAt<P(!new)>(setup: Setup<P>, home: Id -> Path, store: Store, path: Path, turns: seq<Turn>, id: Id)
    requires HasHeard(setup, home, map[], store, path, turns) && home(id) == path
    ensures Lookup(store, id) == SessionOf(turns, id, setup.agentOf(path), setup.depth)
  {
  }

  /** One line with one denied event. */
  const DENIED_TURN := Turn(
    Assistant, "", "", 1, Meta("s", "", "", "", "", None), "", None, [BareEvent(PermissionDenied, 1)], [], "d/t", "", "",
    "", "", "", "", NoSource, [], [])

  const A_LINE: Bytes := [65, NEWLINE]

  function DeniedSetup(depth: Capacity): Setup<int> {
    Setup(Parsing(0, (path: Path, parser: int, line: Bytes) => (0, Some(DENIED_TURN))), (path: Path) => Claude, depth)
  }

  function DenialsIn(session: Option<Ledger>): int {
    if session == None then -1
    else session.value.notes.counters.permissionDenials + session.value.notes.counters.permissionCancellations
  }

  lemma DeniedLines(depth: Capacity)
    ensures TurnsOf(DeniedSetup(depth).parsing, "d/t", Lines(A_LINE)) == [DENIED_TURN]
  {
    FirstNewlineIs(A_LINE, 1);
    assert A_LINE[2..] == [] && A_LINE[..1] == [65];
    NoNewline([]);
    assert Lines(A_LINE) == [[65 as Byte]];
    assert [[65 as Byte]][..0] == [];
  }

  lemma DenialsDouble(depth: Capacity)
    ensures DenialsIn(SessionOf([DENIED_TURN], "s", Claude, depth)) == 1
    ensures DenialsIn(SessionOf([DENIED_TURN, DENIED_TURN], "s", Claude, depth)) == 2
  {
    hide Ingest;
    var begun := NewLedger("s", Claude, depth, None);
    var arrival := Arrival(DENIED_TURN, 0);
    var once := Ingest(Desk(begun, None), arrival).ledger;
    assert [BareEvent(PermissionDenied, 1)][..0] == [];
    IngestTallies(Desk(begun, None), arrival, 0);
    IngestTallies(Desk(once, None), arrival, 1);
    assert [DENIED_TURN, DENIED_TURN][..1] == [DENIED_TURN] && [DENIED_TURN][..0] == [];
  }

  /** A transcript of one denial is counted as two. */
  lemma LeftOutExample(depth: Capacity)
    ensures var setup := DeniedSetup(depth);
            var s := After(setup, map[], LeftOutSchedule("d/t", A_LINE, "d", "e", 1));
            && DenialsIn(Lookup(s.store, "s")) == 2
            && DenialsIn(SessionOf(TurnsOf(setup.parsing, "d/t", Lines(A_LINE)), "s", Claude, depth)) == 1
  {
    hide After, Lines, TurnsFrom, SessionOf, DenialsIn;
    var setup := DeniedSetup(depth);
    DeniedLines(depth);
    DenialsDouble(depth);
    assert IsUnder("d", "d/t") && !IsUnder("e", "d/t") by {
      assert "d" + "/" == "d/t"[..2] && ("e" + "/")[0] != "d/t"[0];
    }
    assert OneTranscript(setup, _ => "d/t", map["d/t" := A_LINE]);
    LeftOutCountsTwice(setup, _ => "d/t", "d/t", A_LINE, "d", "e", 1, "s");
    assert [DENIED_TURN] + [DENIED_TURN] == [DENIED_TURN, DENIED_TURN];
  }
}
