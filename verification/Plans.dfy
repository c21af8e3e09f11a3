/** Plan revisions: what one plan edit does to a session and to the shared plan directory
    (session/store.go, state/dir.go). */
module Plans {
  import opened Types

  const MAX_PLAN_REVISIONS := 50

  /** A recorded text: the first plan in full, later ones as the unified diff between two texts.
      The diff is kept symbolic. */
  datatype PlanText = Whole(text: string) | Diff(current: string, previous: string)

  datatype PlanRevision = PlanRevision(body: PlanText, index: nat, isAlteration: bool, timestamp: Time)

  datatype PlanVersion = PlanVersion(body: PlanText, index: nat, isAlteration: bool, modTime: Time)
  {
    /** The file a version is written to: the index, and whether it is a draft. */
    function Name(): (nat, bool) { (index, index > 0 && isAlteration) }
  }

  /** One session's plan directory: the numbered files in reading order, and latest.md. */
  datatype PlanDisk = PlanDisk(versions: seq<PlanVersion>, latest: Option<string>)
  {
    function WriteVersion(version: PlanVersion): PlanDisk { this.(versions := Put(versions, version)) }

    function WriteLatest(content: string): PlanDisk { this.(latest := Some(content)) }
  }

  /** Writes one file among the files sorted by index; a file of the same name is replaced. */
  function Put(versions: seq<PlanVersion>, version: PlanVersion): seq<PlanVersion> {
    if versions == [] then [version]
    else if versions[0].Name() == version.Name() then [version] + versions[1..]
    else if version.index < versions[0].index then [version] + versions
    else [versions[0]] + Put(versions[1..], version)
  }

  /** In index order, no two of one name. */
  ghost predicate Filed(versions: seq<PlanVersion>) {
    forall i, j :: 0 <= i < j < |versions| ==>
      versions[i].index <= versions[j].index && versions[i].Name() != versions[j].Name()
  }

  lemma FiledCons(first: PlanVersion, rest: seq<PlanVersion>)
    requires Filed(rest) && forall v :: v in rest ==> first.index <= v.index && first.Name() != v.Name()
    ensures Filed([first] + rest)
  {
    hide PlanVersion.Name;
  }

  lemma FiledTail(versions: seq<PlanVersion>)
    requires Filed(versions) && versions != []
    ensures Filed(versions[1..])
    ensures forall v :: v in versions[1..] ==> versions[0].index <= v.index && versions[0].Name() != v.Name()
  {
    hide PlanVersion.Name;
  }

  lemma {:induction false} PutHolds(versions: seq<PlanVersion>, version: PlanVersion)
    requires Filed(versions)
    ensures forall v :: v in Put(versions, version) <==> v == version || (v in versions && v.Name() != version.Name())
  {
    hide PlanVersion.Name, Filed;
    if versions != [] {
      FiledTail(versions);
      assert versions == [versions[0]] + versions[1..];
      if versions[0].Name() == version.Name() {
      } else if version.index < versions[0].index {
        forall v: PlanVersion | v in versions ensures v.Name() != version.Name() { SameFile(v, version); }
      } else {
        PutHolds(versions[1..], version);
      }
    }
  }

  lemma {:induction false} PutIsFiled(versions: seq<PlanVersion>, version: PlanVersion)
    requires Filed(versions)
    ensures Filed(Put(versions, version))
  {
    hide PlanVersion.Name, Filed;
    if versions == [] {
      OneIsFiled(version);
    } else {
      FiledTail(versions);
      SameFile(versions[0], version);
      if versions[0].Name() == version.Name() {
        FiledCons(version, versions[1..]);
      } else if version.index < versions[0].index {
        assert versions == [versions[0]] + versions[1..];
        forall v: PlanVersion | v in versions ensures v.Name() != version.Name() { SameFile(v, version); }
        FiledCons(version, versions);
      } else {
        PutIsFiled(versions[1..], version);
        PutHolds(versions[1..], version);
        FiledCons(versions[0], Put(versions[1..], version));
      }
    }
  }

  lemma OneIsFiled(version: PlanVersion)
    ensures Filed([version])
  {
  }

  lemma SameFile(v: PlanVersion, w: PlanVersion)
    ensures v.Name() == w.Name() <==> v.index == w.index && (v.index == 0 || v.isAlteration == w.isAlteration)
  {
  }

  /** A version's file name is its index, and for all but the first whether it is an alteration; the file written takes the
      place of the one of its name, every other stays, and they stay in order. */
  lemma PutFiles(versions: seq<PlanVersion>, version: PlanVersion)
    requires Filed(versions)
    ensures Filed(Put(versions, version))
    ensures forall v :: v in Put(versions, version) <==>
              || v == version
              || (v in versions
                  && !(v.index == version.index && (v.index == 0 || v.isAlteration == version.isAlteration)))
  {
    hide PlanVersion.Name, Put, Filed;
    PutIsFiled(versions, version);
    PutHolds(versions, version);
    forall v: PlanVersion ensures v.Name() == version.Name() <==>
                     v.index == version.index && (v.index == 0 || v.isAlteration == version.isAlteration) {
      SameFile(v, version);
    }
  }

  /** What a session keeps about its plan. */
  datatype PlanBook = PlanBook(content: string, revisions: seq<PlanRevision>, alterations: nat)
  {
    function NextIndex(): nat {
      if revisions == [] then 0 else revisions[|revisions| - 1].index + 1
    }

    predicate IsReplay(timestamp: Time) {
      timestamp != 0 && revisions != [] && timestamp <= revisions[|revisions| - 1].timestamp
    }

    function Append(revision: PlanRevision): PlanBook {
      this.(revisions := revisions + [revision], alterations := if revision.isAlteration then alterations + 1 else alterations)
    }
  }

  const EMPTY_BOOK := PlanBook("", [], 0)

  const EMPTY_DISK := PlanDisk([], None)

  /** A session's plan, the directory it is persisted to (None: not persisted) and the events recorded on the way. */
  datatype PlanState = PlanState(book: PlanBook, disk: Option<PlanDisk>, events: seq<Event>)

  datatype Edit = Edit(content: string, timestamp: Time)

  function Revised(revision: PlanRevision): Event {
    BareEvent(PlanRevised, revision.timestamp).(plan := Some(PlanPayload(revision.index)))
  }

  function Loaded(version: PlanVersion): PlanRevision {
    PlanRevision(version.body, version.index, version.isAlteration, version.modTime)
  }

  /** The file a revision is written to. A diff recorded at index 0 (latest.md was there, but no version) is lost:
      the initial file takes its text from the full content, which a diff does not have. */
  function Stored(revision: PlanRevision): PlanVersion {
    PlanVersion(if revision.index == 0 && revision.body.Diff? then Whole("") else revision.body,
                revision.index, revision.isAlteration, revision.timestamp)
  }

  /** adoptPlanVersions: take over every version from `next` on. */
  function Adopt(state: PlanState, versions: seq<PlanVersion>, next: nat): PlanState {
    if versions == [] then state
    else
      var before, version := Adopt(state, versions[..|versions| - 1], next), versions[|versions| - 1];
      if version.index < next then before else Adopted(before, version)
  }

  function Adopted(state: PlanState, version: PlanVersion): PlanState {
    PlanState(state.book.Append(Loaded(version)), state.disk,
              if version.index == 0 then state.events else state.events + [Revised(Loaded(version))])
  }

  function AppendVersions(book: PlanBook, versions: seq<PlanVersion>): (r: PlanBook)
    ensures r.content == book.content
  {
    if versions == [] then book
    else AppendVersions(book, versions[..|versions| - 1]).Append(Loaded(versions[|versions| - 1]))
  }

  /** hydratePlanState: what a session seen for the first time takes over from its plan directory. */
  function Hydrated(disk: Option<PlanDisk>): PlanBook {
    match disk
    case None => EMPTY_BOOK
    case Some(d) =>
      if d.versions == [] then EMPTY_BOOK
      else AppendVersions(EMPTY_BOOK, d.versions).(content := if d.latest.Some? then d.latest.value else "")
  }

  /** syncPlanFromDisk, the state it leaves; it reports true exactly when latest.md holds `content`. */
  function Synced(state: PlanState): PlanState {
    match state.disk
    case None => state
    case Some(disk) =>
      if disk.latest == None || disk.latest.value == state.book.content then state
      else
        var adopted := Adopt(state, disk.versions, state.book.NextIndex());
        adopted.(book := adopted.book.(content := disk.latest.value))
  }

  predicate DiskHolds(disk: Option<PlanDisk>, content: string) {
    disk.Some? && disk.value.latest == Some(content)
  }

  function Persisted(disk: Option<PlanDisk>, latest: string, revision: PlanRevision): Option<PlanDisk> {
    match disk
    case None => None
    case Some(d) => Some(d.WriteVersion(Stored(revision)).WriteLatest(latest))
  }

  /** recordPlanRevision; `now` stands in for the clock when the edit carries no time. */
  function Record(state: PlanState, isAlteration: bool, current: string, previous: string, timestamp: Time,
                  now: Time): PlanState {
    var time := if timestamp == 0 then now else timestamp;
    var book := state.book;
    if previous == "" then
      var initial := PlanRevision(Whole(current), 0, false, time);
      PlanState(book.(revisions := book.revisions + [initial]), Persisted(state.disk, current, initial), state.events)
    else
      Announced(state, current, PlanRevision(Diff(current, previous), book.NextIndex(), isAlteration, time))
  }

  /** A revision after the first: counted always, kept while there is room. */
  function Extended(book: PlanBook, revision: PlanRevision): PlanBook {
    book.(alterations := if revision.isAlteration then book.alterations + 1 else book.alterations,
          revisions := if |book.revisions| < MAX_PLAN_REVISIONS then book.revisions + [revision] else book.revisions)
  }

  /** It is announced always, and persisted when it is kept. */
  function Announced(state: PlanState, current: string, revision: PlanRevision): PlanState {
    PlanState(Extended(state.book, revision),
              if |state.book.revisions| < MAX_PLAN_REVISIONS then Persisted(state.disk, current, revision) else state.disk,
              state.events + [Revised(revision)])
  }

  predicate IsAlterationPhase(agent: Agent, planExitSeen: bool, book: PlanBook) {
    if agent == Codex then |book.revisions| >= 1 else planExitSeen
  }

  /** setPlanContent: one edit arriving at one session. */
  function SetPlanContent(state: PlanState, agent: Agent, planExitSeen: bool, edit: Edit, now: Time): PlanState {
    var book := state.book;
    if edit.content == "" || edit.content == book.content then state
    else if book.IsReplay(edit.timestamp) then state.(book := book.(content := edit.content))
    else Taken(state, agent, planExitSeen, edit, now)
  }

  /** A new edit: adopted when the disk already holds it, else recorded. */
  function Taken(state: PlanState, agent: Agent, planExitSeen: bool, edit: Edit, now: Time): PlanState {
    var synced := Synced(state);
    if DiskHolds(state.disk, edit.content) then synced
    else
      var renamed := synced.(book := synced.book.(content := edit.content));
      Record(renamed, IsAlterationPhase(agent, planExitSeen, synced.book), edit.content, synced.book.content,
          edit.timestamp, now)
  }

  lemma {:induction false} AdoptKeepsDisk(state: PlanState, versions: seq<PlanVersion>, next: nat)
    ensures Adopt(state, versions, next).disk == state.disk
  {
    if versions != [] { AdoptKeepsDisk(state, versions[..|versions| - 1], next); }
  }

  /** An edit writes to a directory or has none to write to. */
  lemma DirectoryStays(state: PlanState, agent: Agent, planExitSeen: bool, edit: Edit, now: Time)
    ensures SetPlanContent(state, agent, planExitSeen, edit, now).disk.Some? == state.disk.Some?
  {
    hide Extended, Adopt;
    if state.disk.Some? { AdoptKeepsDisk(state, state.disk.value.versions, state.book.NextIndex()); }
  }

  /** state/dir.go: the plan files of one session, shared by every instance that has it open. */
  class PlanDir {
    var versions: seq<PlanVersion>
    var latest: Option<string>

    ghost function Value(): PlanDisk
      reads this
    {
      PlanDisk(versions, latest)
    }

    constructor ()
      ensures Value() == EMPTY_DISK
    {
      versions, latest := [], None;
    }

    method WritePlanVersion(version: PlanVersion)
      modifies this
      ensures Value() == old(Value()).WriteVersion(version)
    {
      versions := Put(versions, version);
    }

    method WritePlanLatest(content: string)
      modifies this
      ensures Value() == old(Value()).WriteLatest(content)
    {
      latest := Some(content);
    }
  }
}
