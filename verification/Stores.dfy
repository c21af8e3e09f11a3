/** The store read as a value: a ledger a session (session/store.go). */
module Stores {
  import opened Types
  import opened TurnBuffers
  import opened Plans
  import opened Ledgers

  type Store = map<Id, Ledger>

  /** AddTurnBySessionId and addSubagentTurn on the session with the turn's id, and on its plan directory: a
      sub-agent's turn is dropped while its session is unknown. */
  function ToldBeside(known: Option<Ledger>, disk: Option<PlanDisk>, agent: Agent, depth: Capacity, arrival: Arrival):
      (Option<Ledger>, Option<PlanDisk>) {
    if known == None && arrival.turn.subagentId != "" then (None, disk)
    else
      var ledger := if known.Some? then known.value else NewLedger(arrival.turn.meta.sessionId, agent, depth, disk);
      var desk := Ingest(Desk(ledger, disk), arrival);
      (Some(desk.ledger), desk.disk)
  }

  /** A store beside the plan directories of some of its sessions. */
  datatype Office = Office(store: Store, disks: map<Id, PlanDisk>)

  function DiskIn(disks: map<Id, PlanDisk>, id: Id): Option<PlanDisk> { if id in disks then Some(disks[id]) else None }

  /** A turn moves its own session and that session's directory. */
  function AddTurnBeside(office: Office, agent: Agent, depth: Capacity, arrival: Arrival): Office {
    var id := arrival.turn.meta.sessionId;
    var (ledger, disk) := ToldBeside(Lookup(office.store, id), DiskIn(office.disks, id), agent, depth, arrival);
    Office(if ledger.Some? then office.store[id := ledger.value] else office.store,
           if id in office.disks && disk.Some? then office.disks[id := disk.value] else office.disks)
  }

  /** The same without plan directories. */
  function AddTurn(store: Store, agent: Agent, depth: Capacity, arrival: Arrival): Store {
    var id := arrival.turn.meta.sessionId;
    match Told(if id in store then Some(store[id]) else None, agent, depth, arrival)
    case Some(ledger) => store[id := ledger]
    case None => store
  }

  function Told(known: Option<Ledger>, agent: Agent, depth: Capacity, arrival: Arrival): Option<Ledger> {
    ToldBeside(known, None, agent, depth, arrival).0
  }

  function Lookup(store: Store, id: Id): Option<Ledger> { if id in store then Some(store[id]) else None }

  /** One session on its own: what all turns of one transcript make of it. */
  function SessionOf(turns: seq<Turn>, id: Id, agent: Agent, depth: Capacity): Option<Ledger> {
    if turns == [] then None
    else
      var before, turn := SessionOf(turns[..|turns| - 1], id, agent, depth), turns[|turns| - 1];
      if turn.meta.sessionId != id then before else Told(before, agent, depth, Arrival(turn, 0))
  }

  /** Without a plan in the line, the clock does not matter. */
  lemma ClockIsIdle(known: Option<Ledger>, agent: Agent, depth: Capacity, turn: Turn, now: Time)
    requires turn.planFilePath == ""
    ensures Told(known, agent, depth, Arrival(turn, now)) == Told(known, agent, depth, Arrival(turn, 0))
  {
    hide NoteSignals, NoteChat, ChargeMain, IngestSubagent, NoteTitle, NewLedger;
  }

  lemma SessionSnoc(turns: seq<Turn>, turn: Turn, id: Id, agent: Agent, depth: Capacity)
    ensures SessionOf(turns + [turn], id, agent, depth) ==
            if turn.meta.sessionId != id then SessionOf(turns, id, agent, depth)
            else Told(SessionOf(turns, id, agent, depth), agent, depth, Arrival(turn, 0))
  {
    assert (turns + [turn])[..|turns|] == turns;
  }

  lemma ToldIsKnown(known: Option<Ledger>, agent: Agent, depth: Capacity, arrival: Arrival)
    ensures known.Some? ==> Told(known, agent, depth, arrival).Some?
  {
  }

  /** One more turn of a session moves that session and no other. */
  lemma AddTurnMoves(store: Store, agent: Agent, depth: Capacity, turn: Turn, now: Time, turns: seq<Turn>, id: Id)
    requires turn.planFilePath == ""
    requires Lookup(store, id) == SessionOf(turns, id, agent, depth)
    ensures Lookup(AddTurn(store, agent, depth, Arrival(turn, now)), id) == SessionOf(turns + [turn], id, agent, depth)
  {
    hide Told, SessionOf;
    ToldIsKnown(Lookup(store, id), agent, depth, Arrival(turn, now));
    SessionSnoc(turns, turn, id, agent, depth);
    ClockIsIdle(Lookup(store, id), agent, depth, turn, now);
  }

  lemma AddTurnLeaves(store: Store, agent: Agent, depth: Capacity, turn: Turn, now: Time, id: Id)
    requires turn.meta.sessionId != id
    ensures Lookup(AddTurn(store, agent, depth, Arrival(turn, now)), id) == Lookup(store, id)
  {
  }

  // ---- One session's lines ----

  /** The lines a session hears: its own, from the first of the main chain on. */
  function Heard(turns: seq<Turn>, id: Id): seq<Arrival> {
    if turns == [] then []
    else
      var front, turn := Heard(turns[..|turns| - 1], id), turns[|turns| - 1];
      if turn.meta.sessionId == id && (front != [] || turn.subagentId == "") then front + [Arrival(turn, 0)] else front
  }

  lemma IngestKeepsDirectory(desk: Desk, arrival: Arrival)
    ensures Ingest(desk, arrival).disk.Some? == desk.disk.Some?
  {
    hide SetPlanContent, NoteEvents, NoteSignals, NoteChat, ChargeMain, IngestSubagent, NoteTitle;
    var notes, turn := NoteSignals(desk.ledger.notes, arrival.turn), arrival.turn;
    var named := notes.(planFilePath := turn.planFilePath);
    DirectoryStays(PlanStateOf(named, desk.disk), named.agent, named.planExitSeen, Edit(turn.planContent, turn.timestamp),
                   arrival.now);
  }

  /** A session there is one of is a new session that ingested its lines, from the first of the main chain on; until then
      there is none. */
  lemma {:induction false} SessionIsOneIngest(turns: seq<Turn>, id: Id, agent: Agent, depth: Capacity)
    ensures var (heard, after) := (Heard(turns, id),
            IngestAll(Desk(NewLedger(id, agent, depth, None), None), Heard(turns, id)));
            SessionOf(turns, id, agent, depth) == (if heard == [] then None else Some(after.ledger)) && after.disk == None
  {
    hide Ingest, NewLedger;
    if turns != [] {
      var front, turn := turns[..|turns| - 1], turns[|turns| - 1];
      SessionIsOneIngest(front, id, agent, depth);
      var start := Desk(NewLedger(id, agent, depth, None), None);
      IngestSnoc(start, Heard(front, id), Arrival(turn, 0));
      IngestKeepsDirectory(IngestAll(start, Heard(front, id)), Arrival(turn, 0));
    }
  }
}
