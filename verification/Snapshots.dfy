/** A session's serial form (session/store_snapshot.go): the pointer graph flattened to indices, and relinked.
    Encoding the values themselves is the identity. */
module Snapshots {
  import opened Types
  import opened TurnBuffers
  import opened Plans
  import opened Ledgers
  import opened SessionParts
  import opened Sessions

  /** What the encoder sees of a session: its exported fields. Its window and request pointers are not among them. */
  datatype SessionImage = SessionImage(
    notes: Notes, total: Tokens, skills: seq<(SkillRow, Tokens)>, subagents: map<string, (SubagentRow, Tokens)>)

  datatype SessionSnapshot = SessionSnapshot(
    activeSkills: map<string, nat>, currentPromptId: string, planExitSeen: bool,
    requestUsage: map<string, RequestRow>, session: SessionImage)

  function Exported(ledger: Ledger): SessionImage
    requires Consistent(ledger.accounts)
  {
    var a := ledger.accounts;
    SessionImage(ledger.notes.(currentPromptId := "", planExitSeen := false), a.cells[SessionCell],
                 seq(|a.skills|, i requires 0 <= i < |a.skills| => (a.skills[i], a.cells[SkillCell(i)])),
                 map id | id in a.subagents :: (a.subagents[id], a.cells[SubagentCell(id)]))
  }

  function SnapshotOf(ledger: Ledger): SessionSnapshot
    requires Consistent(ledger.accounts)
  {
    SessionSnapshot(ledger.accounts.active, ledger.notes.currentPromptId, ledger.notes.planExitSeen,
                    ledger.accounts.requests, Exported(ledger))
  }

  // ---- Flattening ----

  /** Skills stand where their index says. */
  ghost predicate Numbered(skills: seq<SkillStat>) {
    forall i :: 0 <= i < |skills| ==> skills[i].index == i
  }

  lemma SkillsNumbered(skills: seq<SkillStat>, rows: seq<SkillRow>, owned: set<SkillStat>)
    requires SkillsHold(skills, rows, owned)
    ensures Numbered(skills)
  {
  }

  /** activeSkillIndexes; a skill that is not in the list would get index 0. */
  method ActiveSkillIndexes(skills: seq<SkillStat>, active: map<string, SkillStat>, ghost rows: map<string,
                            nat>) returns (indexes: map<string, nat>)
    requires Numbered(skills) && WindowsOk(skills, active, rows)
    ensures indexes == rows
  {
    var indexBySkill: map<SkillStat, nat> := map[];
    for i := 0 to |skills|
      invariant forall k :: 0 <= k < i ==> skills[k] in indexBySkill && indexBySkill[skills[k]] == k
    {
      indexBySkill := indexBySkill[skills[i] := i];
    }
    indexes := map[];
    var rest := active.Keys;
    while rest != {}
      invariant rest <= active.Keys
      invariant forall actor :: actor in indexes <==> actor in active && actor !in rest
      invariant forall actor :: actor in indexes ==> indexes[actor] == active[actor].index
    {
      var actor :| actor in rest;
      var skill := active[actor];
      assert skills[skill.index] == skill;
      indexes := indexes[actor := if skill in indexBySkill then indexBySkill[skill] else 0];
      rest := rest - {actor};
    }
  }

  /** The targets known so far are right, and nothing but cells are targets. */
  ghost predicate Named(cellAt: CellMap, targetByUsage: map<Usage, Target>) {
    forall u :: u in targetByUsage ==> IsCell(cellAt, u) && targetByUsage[u] == u.where
  }

  /** usageTargets: which cell each usage pointer is. */
  method UsageTargets(ghost cellAt: CellMap, total: Usage, skills: seq<SkillStat>, subagents: map<string, SubagentStat>)
    returns (targetByUsage: map<Usage, Target>)
    requires InPlace(cellAt, total, skills, subagents)
    ensures Named(cellAt, targetByUsage)
    ensures total in targetByUsage
    ensures forall i :: 0 <= i < |skills| ==> skills[i].usage in targetByUsage
    ensures forall id :: id in subagents ==> subagents[id].usage in targetByUsage
  {
    targetByUsage := map[total := SessionCell];
    for i := 0 to |skills|
      invariant Named(cellAt, targetByUsage) && total in targetByUsage
      invariant forall k :: 0 <= k < i ==> skills[k].usage in targetByUsage
    {
      targetByUsage := targetByUsage[skills[i].usage := SkillCell(i)];
    }
    var rest := subagents.Keys;
    while rest != {}
      invariant rest <= subagents.Keys
      invariant Named(cellAt, targetByUsage) && total in targetByUsage
      invariant forall i :: 0 <= i < |skills| ==> skills[i].usage in targetByUsage
      invariant forall id :: id in subagents && id !in rest ==> subagents[id].usage in targetByUsage
    {
      var id :| id in rest;
      targetByUsage := targetByUsage[subagents[id].usage := SubagentCell(id)];
      rest := rest - {id};
    }
  }

  /** The targets of one request; one that is no cell of the session would be skipped. */
  method RequestUsageSnapshot(usage: RequestUsage, targetByUsage: map<Usage, Target>,
                              ghost cellAt: CellMap) returns (row: RequestRow)
    requires Named(cellAt, targetByUsage)
    requires forall i :: 0 <= i < |usage.targets| ==> usage.targets[i] in targetByUsage
    ensures row == RequestRow(usage.counted, Places(usage.targets))
  {
    var targets := [];
    for i := 0 to |usage.targets|
      invariant targets == Places(usage.targets)[..i]
    {
      var target := usage.targets[i];
      if target in targetByUsage {
        targets := targets + [targetByUsage[target]];
      }
    }
    return RequestRow(usage.counted, targets);
  }

  method RequestUsageSnapshots(requests: map<string, RequestUsage>, targetByUsage: map<Usage, Target>,
                               ghost cellAt: CellMap)
    returns (snapshots: map<string, RequestRow>)
    requires Named(cellAt, targetByUsage)
    requires forall id, i :: id in requests && 0 <= i < |requests[id].targets| ==> requests[id].targets[i] in targetByUsage
    ensures snapshots == RequestRows(requests)
  {
    snapshots := map[];
    var rest := requests.Keys;
    while rest != {}
      invariant rest <= requests.Keys
      invariant forall id :: id in snapshots <==> id in requests && id !in rest
      invariant forall id :: id in snapshots ==> snapshots[id] == RequestRow(requests[id].counted, Places(requests[id].targets))
    {
      var id :| id in rest;
      var row := RequestUsageSnapshot(requests[id], targetByUsage, cellAt);
      snapshots := snapshots[id := row];
      rest := rest - {id};
    }
  }

  method ExportSkills(skills: seq<SkillStat>, ghost a: Accounts, ghost cellAt: CellMap, ghost total: Usage,
                      ghost subagents: map<string, SubagentStat>, ghost owned: set<SkillStat>, ghost cells: set<Usage>)
    returns (images: seq<(SkillRow, Tokens)>)
    requires InPlace(cellAt, total, skills, subagents) && SkillsHold(skills, a.skills, owned)
    requires CellsHold(cellAt, a.cells, cells) && Consistent(a)
    ensures images == seq(|a.skills|, i requires 0 <= i < |a.skills| => (a.skills[i], a.cells[SkillCell(i)]))
  {
    images := [];
    for i := 0 to |skills|
      invariant |images| == i
      invariant forall k :: 0 <= k < i ==> images[k] == (a.skills[k], a.cells[SkillCell(k)])
    {
      assert skills[i].usage.where == SkillCell(i);
      images := images + [(skills[i].Row(), skills[i].usage.Value())];
    }
  }

  lemma SubagentReads(subagents: map<string, SubagentStat>, a: Accounts, cellAt: CellMap, total: Usage, skills: seq<SkillStat>,
                      owned: set<SubagentStat>, turns: set<TurnBuffer>, cells: set<Usage>)
    requires InPlace(cellAt, total, skills, subagents) && SubagentsHold(subagents, a.subagents, owned, turns)
    requires CellsHold(cellAt, a.cells, cells) && Consistent(a)
    ensures forall id :: id in subagents <==> id in a.subagents
    ensures forall id :: id in subagents ==>
              SubagentCell(id) in a.cells && (subagents[id].Row(), subagents[id].usage.Value()) ==
                  (a.subagents[id], a.cells[SubagentCell(id)])
  {
    forall id | id in subagents ensures subagents[id].usage.Value() == a.cells[SubagentCell(id)] {
      assert subagents[id].usage.where == SubagentCell(id);
    }
  }

  method ExportSubagents(subagents: map<string, SubagentStat>,
                         ghost a: Accounts) returns (images: map<string, (SubagentRow, Tokens)>)
    requires Consistent(a)
    requires forall id :: id in subagents <==> id in a.subagents
    requires forall id :: id in subagents ==>
               SubagentCell(id) in a.cells && (subagents[id].Row(), subagents[id].usage.Value()) ==
                   (a.subagents[id], a.cells[SubagentCell(id)])
    ensures images == map id | id in a.subagents :: (a.subagents[id], a.cells[SubagentCell(id)])
  {
    images := map[];
    var rest := subagents.Keys;
    while rest != {}
      invariant rest <= subagents.Keys
      invariant forall id :: id in images <==> id in a.subagents && id !in rest
      invariant forall id :: id in images ==> images[id] == (a.subagents[id], a.cells[SubagentCell(id)])
    {
      var id :| id in rest;
      images := images[id := (subagents[id].Row(), subagents[id].usage.Value())];
      rest := rest - {id};
    }
  }

  lemma TotalHolds(s: Session)
    requires s.Valid()
    ensures Consistent(s.accounts) && s.totalUsage.Value() == s.accounts.cells[SessionCell]
  {
    s.ReadsConsistent();
  }

  /** Every pointer the snapshot has to name, it can name. */
  lemma AllNamed(s: Session, targetByUsage: map<Usage, Target>)
    requires s.Valid() && s.totalUsage in targetByUsage
    requires forall i :: 0 <= i < |s.skills| ==> s.skills[i].usage in targetByUsage
    requires forall id :: id in s.subagents ==> s.subagents[id].usage in targetByUsage
    ensures forall id, i :: id in s.usageByRequestId && 0 <= i < |s.usageByRequestId[id].targets| ==>
              s.usageByRequestId[id].targets[i] in targetByUsage
  {
    forall id, i | id in s.usageByRequestId && 0 <= i < |s.usageByRequestId[id].targets|
      ensures s.usageByRequestId[id].targets[i] in targetByUsage
    {
      var u := s.usageByRequestId[id].targets[i];
      assert IsCell(s.cellAt, u);
      match u.where
      case SessionCell =>
      case SkillCell(index) => assert s.skills[index].usage.where == u.where;
      case SubagentCell(name) => assert s.subagents[name].usage.where == u.where;
    }
  }

  /** newSessionSnapshot. */
  method NewSessionSnapshot(s: Session) returns (snapshot: SessionSnapshot)
    requires s.Valid()
    ensures Consistent(s.accounts) && snapshot == SnapshotOf(s.View())
  {
    hide CellsHold, SkillsHold, SubagentsHold, InPlace, WindowsOk, RequestsOk, Session.ReadNotes,
         Consistent;
    TotalHolds(s);
    SkillsNumbered(s.skills, s.accounts.skills, s.ownedSkills);
    var activeSkills := ActiveSkillIndexes(s.skills, s.activeSkills, s.accounts.active);
    var targetByUsage := UsageTargets(s.cellAt, s.totalUsage, s.skills, s.subagents);
    AllNamed(s, targetByUsage);
    RowsOf(s.cellAt, s.usageByRequestId, s.accounts.requests);
    var requestUsage := RequestUsageSnapshots(s.usageByRequestId, targetByUsage, s.cellAt);
    var skills := ExportSkills(s.skills, s.accounts, s.cellAt, s.totalUsage, s.subagents, s.ownedSkills, s.ownedCells);
    SubagentReads(s.subagents, s.accounts, s.cellAt, s.totalUsage, s.skills, s.ownedSubagents, s.ownedTurns, s.ownedCells);
    var subagents := ExportSubagents(s.subagents, s.accounts);
    var notes := s.ReadNotes();
    snapshot := SessionSnapshot(activeSkills, notes.currentPromptId, notes.planExitSeen, requestUsage,
                                SessionImage(notes.(currentPromptId := "", planExitSeen := false),
                                             s.totalUsage.Value(), skills, subagents));
  }

  lemma RowsOf(cellAt: CellMap, requests: map<string, RequestUsage>, rows: map<string, RequestRow>)
    requires RequestsOk(cellAt, requests, rows)
    ensures rows == RequestRows(requests)
  {
  }

  // ---- Relinking ----

  /** What restore needs of a snapshot: its indices are in range and its sub-agents are there. */
  ghost predicate Resolvable(snapshot: SessionSnapshot) {
    && (forall actor :: actor in snapshot.activeSkills ==> snapshot.activeSkills[actor] < |snapshot.session.skills|)
    && (forall id, i :: id in snapshot.requestUsage && 0 <= i < |snapshot.requestUsage[id].targets| ==>
          Resolves(snapshot.session, snapshot.requestUsage[id].targets[i]))
  }

  predicate Resolves(image: SessionImage, t: Target) {
    match t
    case SessionCell => true
    case SkillCell(index) => index < |image.skills|
    case SubagentCell(id) => id in image.subagents
  }

  function ImageOf(image: SessionImage, t: Target): Tokens
    requires Resolves(image, t)
  {
    match t
    case SessionCell => image.total
    case SkillCell(index) => image.skills[index].1
    case SubagentCell(id) => image.subagents[id].1
  }

  ghost function PlacesIn(image: SessionImage): (r: set<Target>)
    ensures forall t :: t in r <==> Resolves(image, t)
  {
    {SessionCell} + (set i | 0 <= i < |image.skills| :: SkillCell(i)) + (set id | id in image.subagents :: SubagentCell(id))
  }

  /** The accounts of the decoded session, before its pointers are restored. */
  ghost function Imported(image: SessionImage): Accounts {
    Accounts(map t | t in PlacesIn(image) :: ImageOf(image, t),
             seq(|image.skills|, i requires 0 <= i < |image.skills| => image.skills[i].0),
             map id | id in image.subagents :: image.subagents[id].0, map[], map[])
  }

  ghost function Restored(snapshot: SessionSnapshot): Ledger {
    Ledger(snapshot.session.notes.(currentPromptId := snapshot.currentPromptId, planExitSeen := snapshot.planExitSeen),
           Imported(snapshot.session).(active := snapshot.activeSkills, requests := snapshot.requestUsage))
  }

  lemma {:induction false} ExportedPlaces(ledger: Ledger, t: Target)
    requires Consistent(ledger.accounts)
    ensures t in ledger.accounts.cells <==> Resolves(Exported(ledger), t)
    ensures t in ledger.accounts.cells ==> ImageOf(Exported(ledger), t) == ledger.accounts.cells[t]
  {
    assert t in ledger.accounts.cells <==> HasPlace(ledger.accounts, t);
  }

  /** Flattening loses nothing: what is restored from a ledger's snapshot is that ledger. */
  lemma SnapshotRoundTrip(ledger: Ledger)
    requires Consistent(ledger.accounts)
    ensures Resolvable(SnapshotOf(ledger)) && Restored(SnapshotOf(ledger)) == ledger
  {
    var a, image := ledger.accounts, Exported(ledger);
    forall t ensures t in a.cells <==> t in PlacesIn(image) {
      ExportedPlaces(ledger, t);
    }
    forall t | t in a.cells ensures Resolves(image, t) && ImageOf(image, t) == a.cells[t] {
      ExportedPlaces(ledger, t);
    }
    assert Imported(image).cells == a.cells;
    assert Imported(image).skills == a.skills;
    assert Imported(image).subagents == a.subagents;
  }

  /** The skills and sub-agents decoded so far. */
  ghost predicate Decoded(a: Accounts, image: SessionImage, n: nat, ids: set<string>) {
    && |a.skills| == n <= |image.skills| && (forall i :: 0 <= i < n ==> a.skills[i] == image.skills[i].0)
    && ids <= image.subagents.Keys
    && (forall id :: id in a.subagents <==> id in ids) && (forall id :: id in ids ==> a.subagents[id] == image.subagents[id].0)
    && (forall t :: t in a.cells <==> HasPlace(a, t))
    && (forall t :: t in a.cells ==> Resolves(image, t) && a.cells[t] == ImageOf(image, t))
    && a.active == map[] && a.requests == map[]
  }

  lemma DecodedAtFirst(image: SessionImage)
    ensures Decoded(EMPTY_ACCOUNTS.(cells := map[SessionCell := image.total]), image, 0, {})
  {
  }

  lemma DecodedSkill(a: Accounts, image: SessionImage, n: nat)
    requires Decoded(a, image, n, {}) && n < |image.skills|
    ensures Decoded(WithSkill(a, image.skills[n].0, image.skills[n].1), image, n + 1, {})
  {
    var b := WithSkill(a, image.skills[n].0, image.skills[n].1);
    forall t ensures t in b.cells <==> HasPlace(b, t) {
      assert t in a.cells <==> HasPlace(a, t);
    }
  }

  lemma DecodedSubagent(a: Accounts, image: SessionImage, ids: set<string>, id: string)
    requires Decoded(a, image, |image.skills|, ids) && id in image.subagents && id !in ids
    ensures Decoded(WithSubagent(a, id, image.subagents[id].0, image.subagents[id].1), image, |image.skills|, ids + {id})
  {
    var b := WithSubagent(a, id, image.subagents[id].0, image.subagents[id].1);
    forall t ensures t in b.cells <==> HasPlace(b, t) {
      assert t in a.cells <==> HasPlace(a, t);
    }
  }

  lemma DecodedAtLast(a: Accounts, image: SessionImage)
    requires Decoded(a, image, |image.skills|, image.subagents.Keys)
    ensures a == Imported(image)
  {
    forall t ensures t in a.cells <==> t in PlacesIn(image) {
      assert t in a.cells <==> HasPlace(a, t);
    }
    assert a.cells == Imported(image).cells;
    assert a.skills == Imported(image).skills;
    assert a.subagents == Imported(image).subagents;
  }

  /** The decoder: a fresh session with the exported fields and no pointers yet. */
  method Decode(image: SessionImage) returns (s: Session)
    ensures s.Valid() && fresh(s) && forall o :: o in s.Repr() ==> fresh(o)
    ensures s.ReadNotes() == image.notes && s.accounts == Imported(image)
  {
    hide Session.Valid, Session.Repr, Session.ReadNotes, Decoded, WithSkill, WithSubagent;
    s := NewSession(image.notes, image.total);
    DecodedAtFirst(image);
    for i := 0 to |image.skills|
      invariant s.Valid() && fresh(s) && (forall o :: o in s.Repr() ==> fresh(o)) && s.ReadNotes() == image.notes
      invariant Decoded(s.accounts, image, i, {})
    {
      DecodedSkill(s.accounts, image, i);
      s.AddSkill(image.skills[i].0, image.skills[i].1);
    }
    var rest := image.subagents.Keys;
    assert image.subagents.Keys - rest == {};
    while rest != {}
      invariant rest <= image.subagents.Keys && fresh(s)
      invariant s.Valid() && (forall o :: o in s.Repr() ==> fresh(o)) && s.ReadNotes() == image.notes
      invariant Decoded(s.accounts, image, |image.skills|, image.subagents.Keys - rest)
    {
      var id :| id in rest;
      NotYet(s.accounts, image, rest, id);
      DecodedSubagent(s.accounts, image, image.subagents.Keys - rest, id);
      assert image.subagents.Keys - rest + {id} == image.subagents.Keys - (rest - {id});
      s.AddSubagent(id, image.subagents[id].0, image.subagents[id].1);
      rest := rest - {id};
    }
    assert image.subagents.Keys - rest == image.subagents.Keys;
    DecodedAtLast(s.accounts, image);
  }

  lemma NotYet(a: Accounts, image: SessionImage, rest: set<string>, id: string)
    requires Decoded(a, image, |image.skills|, image.subagents.Keys - rest) && id in rest
    ensures id !in a.subagents
  {
  }

  method NewSession(notes: Notes, total: Tokens) returns (s: Session)
    ensures s.Valid() && (forall o :: o in s.Repr() ==> fresh(o)) && fresh(s)
    ensures s.ReadNotes() == notes && s.accounts == EMPTY_ACCOUNTS.(cells := map[SessionCell := total])
  {
    s := new Session(notes, total);
  }

  /** usageTarget.resolve. */
  method Resolve(t: Target, s: Session) returns (u: Usage)
    requires InPlace(s.cellAt, s.totalUsage, s.skills, s.subagents) && IsPlace(s.skills, s.subagents, t)
    ensures IsCell(s.cellAt, u) && u.where == t
  {
    match t
    case SessionCell => u := s.totalUsage;
    case SkillCell(index) => u := s.skills[index].usage;
    case SubagentCell(id) => u := s.subagents[id].usage;
  }

  method RestoreUsage(row: RequestRow, s: Session) returns (usage: RequestUsage)
    requires InPlace(s.cellAt, s.totalUsage, s.skills, s.subagents)
    requires forall i :: 0 <= i < |row.targets| ==> IsPlace(s.skills, s.subagents, row.targets[i])
    ensures AreCells(s.cellAt, usage.targets) && RequestRow(usage.counted, SessionParts.Places(usage.targets)) == row
  {
    var targets: seq<Usage> := [];
    for i := 0 to |row.targets|
      invariant |targets| == i && AreCells(s.cellAt, targets)
      invariant forall k :: 0 <= k < i ==> targets[k].where == row.targets[k]
    {
      var resolved := Resolve(row.targets[i], s);
      targets := targets + [resolved];
    }
    return RequestUsage(row.counted, targets);
  }

  method RestoreRequests(rows: map<string, RequestRow>, s: Session) returns (requests: map<string, RequestUsage>)
    requires InPlace(s.cellAt, s.totalUsage, s.skills, s.subagents)
    requires forall id, i :: id in rows && 0 <= i < |rows[id].targets| ==> IsPlace(s.skills, s.subagents, rows[id].targets[i])
    ensures RequestsOk(s.cellAt, requests, rows)
  {
    requests := map[];
    var rest := rows.Keys;
    while rest != {}
      invariant rest <= rows.Keys
      invariant forall id :: id in requests <==> id in rows && id !in rest
      invariant forall id :: id in requests ==> AreCells(s.cellAt, requests[id].targets)
      invariant forall id :: id in requests ==>
                RequestRow(requests[id].counted, SessionParts.Places(requests[id].targets)) == rows[id]
    {
      var id :| id in rest;
      var usage := RestoreUsage(rows[id], s);
      requests := requests[id := usage];
      rest := rest - {id};
    }
    assert rows == RequestRows(requests);
  }

  method RestoreWindows(rows: map<string, nat>, skills: seq<SkillStat>) returns (active: map<string, SkillStat>)
    requires Numbered(skills) && forall actor :: actor in rows ==> rows[actor] < |skills|
    ensures WindowsOk(skills, active, rows)
  {
    active := map[];
    var rest := rows.Keys;
    while rest != {}
      invariant rest <= rows.Keys
      invariant forall actor :: actor in active <==> actor in rows && actor !in rest
      invariant forall actor :: actor in active ==> active[actor] == skills[rows[actor]]
    {
      var actor :| actor in rest;
      active := active[actor := skills[rows[actor]]];
      rest := rest - {actor};
    }
    assert rows == ActiveRows(active);
  }

  /** restore: the decoded session, its private fields set and its pointers relinked. */
  method Restore(snapshot: SessionSnapshot) returns (s: Session)
    requires Resolvable(snapshot)
    ensures s.Valid() && fresh(s) && forall o :: o in s.Repr() ==> fresh(o)
    ensures s.View() == Restored(snapshot)
  {
    hide CellsHold, SkillsHold, SubagentsHold, InPlace, WindowsOk, RequestsOk, Session.ReadNotes,
         Session.Repr, Imported;
    s := Decode(snapshot.session);
    SkillsNumbered(s.skills, s.accounts.skills, s.ownedSkills);
    EverythingResolves(s, snapshot);
    var active := RestoreWindows(snapshot.activeSkills, s.skills);
    var requests := RestoreRequests(snapshot.requestUsage, s);
    s.SetPrivate(snapshot.currentPromptId, snapshot.planExitSeen, active, requests, snapshot.activeSkills,
        snapshot.requestUsage);
  }

  lemma EverythingResolves(s: Session, snapshot: SessionSnapshot)
    requires s.Valid() && s.accounts == Imported(snapshot.session) && Resolvable(snapshot)
    ensures |s.skills| == |snapshot.session.skills|
    ensures forall id, i :: id in snapshot.requestUsage && 0 <= i < |snapshot.requestUsage[id].targets| ==>
              IsPlace(s.skills, s.subagents, snapshot.requestUsage[id].targets[i])
  {
    SkillsAlike(s.skills, s.accounts.skills, s.ownedSkills);
    SubagentsAlike(s.subagents, s.accounts.subagents, s.ownedSubagents, s.ownedTurns);
  }

  // ---- Runs ----

  /** Going cold and warm again: the session is dropped for its snapshot, and restored from it. */
  method Cycle(s: Session) returns (r: Session)
    requires s.Valid()
    ensures r.Valid() && fresh(r) && forall o :: o in r.Repr() ==> fresh(o)
    ensures r.View() == s.View()
  {
    hide Session.Valid, Session.Repr, Session.ReadNotes, Consistent, SnapshotOf, Restored;
    var snapshot := NewSessionSnapshot(s);
    SnapshotRoundTrip(s.View());
    r := Restore(snapshot);
  }

  /** What happens to a session: a line arrives, or the instance cools down and warms up. */
  datatype Step = Take(arrival: Arrival) | CoolAndWarm

  function Arrivals(steps: seq<Step>): seq<Arrival> {
    if steps == [] then []
    else
      var before, step := Arrivals(steps[..|steps| - 1]), steps[|steps| - 1];
      match step case Take(arrival) => before + [arrival] case CoolAndWarm => before
  }

  /** In any run, however often and wherever the instance goes cold and warm, the session that results is the
      one a single uninterrupted ingest of the same lines leaves, and so is its plan directory. */
  method Run(id: Id, agent: Agent, depth: Capacity, steps: seq<Step>, dir: PlanDir?) returns (s: Session)
    modifies dir
    ensures s.Valid()
    ensures Desk(s.View(), DiskOf(dir)) ==
            IngestAll(Desk(NewLedger(id, agent, depth, old(DiskOf(dir))), old(DiskOf(dir))), Arrivals(steps))
  {
    hide Session.Valid, Session.Repr, Session.View, Ingest, NewLedger;
    s := Create(id, agent, depth, dir);
    ghost var first := Desk(s.View(), DiskOf(dir));
    for i := 0 to |steps|
      invariant s.Valid() && fresh(s) && (forall o :: o in s.Repr() ==> fresh(o))
      invariant Desk(s.View(), DiskOf(dir)) == IngestAll(first, Arrivals(steps[..i]))
    {
      assert steps[..i + 1][..i] == steps[..i];
      match steps[i]
      case Take(arrival) =>
        IngestSnoc(first, Arrivals(steps[..i]), arrival);
        s.AddTurnBySessionId(arrival.turn, arrival.now, dir);
      case CoolAndWarm =>
        s := Cycle(s);
    }
    assert steps[..|steps|] == steps;
  }

  /** getOrCreate, on a session not seen before. */
  method Create(id: Id, agent: Agent, depth: Capacity, dir: PlanDir?) returns (s: Session)
    ensures s.Valid() && fresh(s) && (forall o :: o in s.Repr() ==> fresh(o))
    ensures s.View() == NewLedger(id, agent, depth, DiskOf(dir))
  {
    hide CellsHold, SkillsHold, SubagentsHold, InPlace, WindowsOk, RequestsOk, Session.Repr,
         Hydrated;
    s := NewSession(NewNotes(id, agent, depth), ZERO);
    s.HydratePlanState(dir);
  }
}
