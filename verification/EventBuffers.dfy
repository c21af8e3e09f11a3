/** The event buffer of a session (session/event_buffer.go): two keep-first budgets. */
module EventBuffers {
  import opened Types

  /** The buffer's value: what Push works on and what a snapshot stores. */
  datatype EventLog = EventLog(capacity: nat, denialBudget: nat, denials: nat, items: seq<Event>) {

    predicate Valid() {
      && denialBudget <= capacity
      && denials == CountDenials(items) <= denialBudget
      && |items| - denials <= capacity - denialBudget
    }

    function Push(event: Event): EventLog {
      if event.kind == PermissionDenied then
        if denials >= denialBudget then this
        else this.(denials := denials + 1, items := items + [event])
      else if |items| - denials >= capacity - denialBudget then this
      else this.(items := items + [event])
    }

    function PushAll(events: seq<Event>): EventLog
      decreases |events|
    {
      if events == [] then this else PushAll(events[..|events| - 1]).Push(events[|events| - 1])
    }
  }

  function NewLog(capacity: nat, denialBudget: nat): EventLog {
    EventLog(capacity, denialBudget, 0, [])
  }

  function CountDenials(events: seq<Event>): (n: nat)
    ensures n <= |events|
  {
    if events == [] then 0
    else CountDenials(events[..|events| - 1]) + if events[|events| - 1].kind == PermissionDenied then 1 else 0
  }

  /** How many events of the same class (denials, or everything else) as `event` are in `events`. */
  function CountAlike(event: Event, events: seq<Event>): nat {
    if event.kind == PermissionDenied then CountDenials(events) else |events| - CountDenials(events)
  }

  /** The declarative reading of a whole history: an event stays exactly when fewer than its class's
      budget of events of its class came before it. */
  function FirstOfEach(history: seq<Event>, denialRoom: nat, otherRoom: nat): seq<Event> {
    if history == [] then []
    else
      var before, event := history[..|history| - 1], history[|history| - 1];
      var room := if event.kind == PermissionDenied then denialRoom else otherRoom;
      if CountAlike(event, before) < room then FirstOfEach(before, denialRoom, otherRoom) + [event]
      else FirstOfEach(before, denialRoom, otherRoom)
  }

  function Min(a: nat, b: nat): nat { if a <= b then a else b }

  lemma CountSnoc(events: seq<Event>, event: Event)
    ensures CountDenials(events + [event]) == CountDenials(events) + if event.kind == PermissionDenied then 1 else 0
  {
    assert (events + [event])[..|events|] == events;
  }

  lemma PushKeepsValid(log: EventLog, event: Event)
    requires log.Valid()
    ensures log.Push(event).Valid()
  {
    CountSnoc(log.items, event);
  }

  lemma {:induction false} FirstOfEachCounts(history: seq<Event>, denialRoom: nat, otherRoom: nat)
    ensures var kept := FirstOfEach(history, denialRoom, otherRoom);
            && CountDenials(kept) == Min(CountDenials(history), denialRoom)
            && |kept| - CountDenials(kept) == Min(|history| - CountDenials(history), otherRoom)
  {
    if history != [] {
      var before, event := history[..|history| - 1], history[|history| - 1];
      FirstOfEachCounts(before, denialRoom, otherRoom);
      var kept := FirstOfEach(before, denialRoom, otherRoom);
      CountSnoc(kept, event);
    }
  }

  lemma {:induction false} PushAllKeepsValid(log: EventLog, events: seq<Event>)
    requires log.Valid()
    ensures var r := log.PushAll(events); r.Valid() && r.capacity == log.capacity && r.denialBudget == log.denialBudget
  {
    if events != [] {
      PushAllKeepsValid(log, events[..|events| - 1]);
      PushKeepsValid(log.PushAll(events[..|events| - 1]), events[|events| - 1]);
    }
  }

  lemma FirstOfEachSnoc(before: seq<Event>, event: Event, denialRoom: nat, otherRoom: nat)
    ensures FirstOfEach(before + [event], denialRoom, otherRoom) ==
            if CountAlike(event, before) < (if event.kind == PermissionDenied then denialRoom else otherRoom)
            then FirstOfEach(before, denialRoom, otherRoom) + [event]
            else FirstOfEach(before, denialRoom, otherRoom)
  {
    assert (before + [event])[..|before|] == before;
  }

  lemma PushMeaning(log: EventLog, before: seq<Event>, event: Event)
    requires log.Valid()
    requires log.items == FirstOfEach(before, log.denialBudget, log.capacity - log.denialBudget)
    ensures log.Push(event).items == FirstOfEach(before + [event], log.denialBudget, log.capacity - log.denialBudget)
  {
    PushDecides(log, event, CountDenials(before), |before| - CountDenials(before)) by {
      FirstOfEachCounts(before, log.denialBudget, log.capacity - log.denialBudget);
    }
    FirstOfEachSnoc(before, event, log.denialBudget, log.capacity - log.denialBudget);
  }

  /** With the room left known by counting, Push appends exactly when there is room. */
  lemma PushDecides(log: EventLog, event: Event, denied: nat, others: nat)
    requires log.denialBudget <= log.capacity
    requires log.denials == Min(denied, log.denialBudget)
    requires |log.items| - log.denials == Min(others, log.capacity - log.denialBudget)
    ensures log.Push(event).items ==
            if (if event.kind == PermissionDenied then denied < log.denialBudget else others < log.capacity - log.denialBudget)
            then log.items + [event] else log.items
  {
  }

  /** After any push history the items are, in arrival order, exactly the first `denialBudget` denials
      and the first `capacity - denialBudget` other events, and never more than `capacity`. */
  lemma {:induction false} BufferMeaning(capacity: nat, denialBudget: nat, history: seq<Event>)
    requires denialBudget <= capacity
    ensures var log := NewLog(capacity, denialBudget).PushAll(history);
            && log.items == FirstOfEach(history, denialBudget, capacity - denialBudget)
            && |log.items| <= capacity
  {
    PushAllKeepsValid(NewLog(capacity, denialBudget), history);
    if history != [] {
      var before, event := history[..|history| - 1], history[|history| - 1];
      BufferMeaning(capacity, denialBudget, before);
      PushAllKeepsValid(NewLog(capacity, denialBudget), before);
      PushMeaning(NewLog(capacity, denialBudget).PushAll(before), before, event);
      assert before + [event] == history;
    }
  }

  /** Each class on its own is a prefix of that class's history: no kind evicts another. */
  function OfClass(events: seq<Event>, isDenial: bool): (r: seq<Event>) {
    if events == [] then []
    else
      var event := events[|events| - 1];
      var before := OfClass(events[..|events| - 1], isDenial);
      if (event.kind == PermissionDenied) == isDenial then before + [event] else before
  }

  lemma {:induction false} OfClassLength(events: seq<Event>, isDenial: bool)
    ensures |OfClass(events, isDenial)| == if isDenial then CountDenials(events) else |events| - CountDenials(events)
  {
    if events != [] { OfClassLength(events[..|events| - 1], isDenial); }
  }

  lemma OfClassSnoc(events: seq<Event>, event: Event, isDenial: bool)
    ensures OfClass(events + [event], isDenial) ==
            if (event.kind == PermissionDenied) == isDenial then OfClass(events, isDenial) + [event]
                else OfClass(events, isDenial)
  {
    assert (events + [event])[..|events|] == events;
  }

  lemma {:induction false} ClassIsPrefix(history: seq<Event>, denialRoom: nat, otherRoom: nat, isDenial: bool)
    ensures var room := if isDenial then denialRoom else otherRoom;
            var all := OfClass(history, isDenial);
            OfClass(FirstOfEach(history, denialRoom, otherRoom), isDenial) == all[..Min(|all|, room)]
  {
    if history != [] {
      var before, event := history[..|history| - 1], history[|history| - 1];
      assert history == before + [event];
      ClassIsPrefix(before, denialRoom, otherRoom, isDenial);
      OfClassLength(before, isDenial);
      FirstOfEachSnoc(before, event, denialRoom, otherRoom);
      OfClassSnoc(FirstOfEach(before, denialRoom, otherRoom), event, isDenial);
      OfClassSnoc(before, event, isDenial);
    }
  }

  class EventBuffer {
    const capacity: nat
    const denialBudget: nat
    var denials: nat
    var items: seq<Event>

    function Log(): EventLog
      reads this
    {
      EventLog(capacity, denialBudget, denials, items)
    }

    constructor (capacity: nat, denialBudget: nat)
      ensures Log() == NewLog(capacity, denialBudget)
    {
      this.capacity, this.denialBudget := capacity, denialBudget;
      denials, items := 0, [];
    }

    /** GobDecode: the buffer a snapshot stored. */
    constructor Decode(log: EventLog)
      ensures Log() == log
    {
      capacity, denialBudget := log.capacity, log.denialBudget;
      denials, items := log.denials, log.items;
    }

    /** An event seen earlier is changed in place. */
    method SetItem(i: nat, event: Event)
      requires i < |items|
      modifies this`items
      ensures items == old(items)[i := event]
    {
      items := items[i := event];
    }

    method Push(event: Event)
      modifies this
      ensures Log() == old(Log()).Push(event)
    {
      if event.kind == PermissionDenied {
        if denials >= denialBudget {
          return;
        }
        denials := denials + 1;
        items := items + [event];
        return;
      }
      if |items| - denials >= capacity - denialBudget {
        return;
      }
      items := items + [event];
    }
  }
}
