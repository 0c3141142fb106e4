/**
  The bridge's journal: four tables and the transactions that write them.

  A table is the sequence of its rows in insertion order (associations are keyed by their primary key).
  A transaction works on a value and its result replaces the tables only if it does not fail.
  Stored JSON is compared for equality only, so a row holds the record itself.
*/
module Journal {
  import opened Wrappers
  import opened GatewayContracts

  datatype OutRow = OutRow(event: Event, acknowledged: bool)

  datatype Limits = Limits(maxEvents: nat, maxPending: nat)

  datatype Tables = Tables(
    associations: map<string, Snapshot>, events: seq<Event>, outbox: seq<OutRow>, cursors: seq<Cursor>)

  const EMPTY := Tables(map[], [], [], [])

  // ----- queries

  function BySequence(rows: seq<Event>, a: string, q: nat): (r: Option<Event>)
    ensures r.Some? ==> r.value in rows && r.value.associationRef == a && r.value.sequence == q
    ensures r.None? ==> forall e | e in rows :: !(e.associationRef == a && e.sequence == q)
  {
    if rows == [] then None
    else if rows[0].associationRef == a && rows[0].sequence == q then Some(rows[0])
    else BySequence(rows[1..], a, q)
  }

  function ByKey(rows: seq<Event>, a: string, epoch: Epoch, q: nat): (r: Option<Event>)
    ensures r.Some? ==> r.value in rows && r.value.associationRef == a && r.value.epoch == epoch && r.value.sequence == q
    ensures r.None? ==> forall e | e in rows :: !(e.associationRef == a && e.epoch == epoch && e.sequence == q)
  {
    if rows == [] then None
    else if rows[0].associationRef == a && rows[0].epoch == epoch && rows[0].sequence == q then Some(rows[0])
    else ByKey(rows[1..], a, epoch, q)
  }

  function ById(rows: seq<Event>, id: EventId): (r: Option<Event>)
    ensures r.Some? ==> r.value in rows && r.value.eventId == id
    ensures r.None? ==> forall e | e in rows :: e.eventId != id
  {
    if rows == [] then None else if rows[0].eventId == id then Some(rows[0]) else ById(rows[1..], id)
  }

  function Queued(rows: seq<OutRow>, id: EventId): (r: Option<OutRow>)
    ensures r.Some? ==> r.value in rows && r.value.event.eventId == id
    ensures r.None? ==> forall row | row in rows :: row.event.eventId != id
  {
    if rows == [] then None else if rows[0].event.eventId == id then Some(rows[0]) else Queued(rows[1..], id)
  }

  function Unacked(rows: seq<OutRow>): nat {
    if rows == [] then 0 else Unacked(rows[..|rows| - 1]) + (if rows[|rows| - 1].acknowledged then 0 else 1)
  }

  function CursorFor(rows: seq<Cursor>, a: string, s: string): (r: Option<Cursor>)
    ensures r.Some? ==> r.value in rows && r.value.associationRef == a && r.value.subscriberRef == s
    ensures r.None? ==> forall c | c in rows :: !(c.associationRef == a && c.subscriberRef == s)
  {
    if rows == [] then None
    else if rows[0].associationRef == a && rows[0].subscriberRef == s then Some(rows[0])
    else CursorFor(rows[1..], a, s)
  }

  function Upsert(rows: seq<Cursor>, c: Cursor): (r: seq<Cursor>)
    ensures CursorFor(r, c.associationRef, c.subscriberRef) == Some(c)
    ensures forall a, s | (a, s) != (c.associationRef, c.subscriberRef) :: CursorFor(r, a, s) == CursorFor(rows, a, s)
  {
    if rows == [] then [c]
    else if rows[0].associationRef == c.associationRef && rows[0].subscriberRef == c.subscriberRef then [c] + rows[1..]
    else
      var rest := Upsert(rows[1..], c);
      assert ([rows[0]] + rest)[1..] == rest;
      [rows[0]] + rest
  }

  function Max(a: nat, b: nat): nat { if a < b then b else a }

  function MaxSequence(rows: seq<Event>, a: string, epoch: Epoch): (m: nat)
    ensures forall e | e in rows && e.associationRef == a && e.epoch == epoch :: e.sequence <= m
  {
    if rows == [] then 0
    else
      var m := MaxSequence(rows[1..], a, epoch);
      if rows[0].associationRef == a && rows[0].epoch == epoch then Max(rows[0].sequence, m) else m
  }

  function MaxCursor(rows: seq<Cursor>, a: string): (m: nat)
    ensures forall c | c in rows && c.associationRef == a :: c.lastSequence <= m
  {
    if rows == [] then 0
    else
      var m := MaxCursor(rows[1..], a);
      if rows[0].associationRef == a then Max(rows[0].lastSequence, m) else m
  }

  // ----- validation of a delivered stream

  function CheckEvents(snapshot: Snapshot, events: seq<Event>, previous: nat): Result<nat, Error> {
    if events == [] then Ok(previous)
    else
      var e := events[0];
      if e.associationRef != snapshot.associationRef || e.epoch != snapshot.epoch || e.sequence == 0 then Err(InvalidEvent)
      else if e.ownership == FleetOwnedTask then Err(CapabilityDenied)
      else if e.sequence != previous + 1 then Err(ReplayGap)
      else CheckEvents(snapshot, events[1..], e.sequence)
  }

  function ValidateStream(snapshot: Snapshot, events: seq<Event>, expected: nat, cursor: Option<Cursor>): Result<(), Error> {
    if |events| > MAX_REPLAY_BATCH then Err(InvalidEvent)
    else if snapshot.ownership == FleetOwnedTask || snapshot.epoch == NoEpoch then Err(ResyncRequired)
    else if snapshot.sequence < expected then Err(ResyncRequired)
    else
      match CheckEvents(snapshot, events, expected)
      case Err(e) => Err(e)
      case Ok(last) =>
        if events != [] && snapshot.sequence < last then Err(ResyncRequired)
        else if cursor.Some? && (cursor.value.associationRef != snapshot.associationRef || cursor.value.epoch != snapshot.epoch)
        then Err(ResyncRequired)
        else if cursor.Some? && events != [] && cursor.value.lastSequence != events[|events| - 1].sequence then Err(CursorStale)
        else if cursor.Some? && events == [] && cursor.value.lastSequence > expected then Err(CursorStale)
        else Ok(())
  }

  lemma {:induction false} CheckEventsSpec(snapshot: Snapshot, events: seq<Event>, previous: nat)
    ensures CheckEvents(snapshot, events, previous).Ok? <==>
              Follows(events, previous) &&
              forall e | e in events :: e.associationRef == snapshot.associationRef && e.epoch == snapshot.epoch
                                        && e.ownership == UserOwnedSession
    ensures CheckEvents(snapshot, events, previous).Ok? ==>
              CheckEvents(snapshot, events, previous).value == previous + |events|
  {
    if events != [] {
      var rest := events[1..];
      assert events == [events[0]] + rest;
      if events[0].sequence == previous + 1 {
        CheckEventsSpec(snapshot, rest, previous + 1);
        if Follows(rest, previous + 1) {
          forall i | 0 <= i < |events| ensures events[i].sequence == previous + 1 + i {
            if i > 0 { assert rest[i - 1].sequence == previous + 2 + (i - 1); }
          }
        }
        if Follows(events, previous) {
          forall i | 0 <= i < |rest| ensures rest[i].sequence == previous + 2 + i { assert rest[i] == events[i + 1]; }
        }
      }
    }
  }

  /** An accepted delivery is contiguous from the expected position, belongs to one stream and matches its cursor. */
  lemma AcceptedStream(snapshot: Snapshot, events: seq<Event>, expected: nat, cursor: Option<Cursor>)
    requires ValidateStream(snapshot, events, expected, cursor).Ok?
    ensures Follows(events, expected) && expected + |events| <= snapshot.sequence && snapshot.epoch != NoEpoch
    ensures forall e | e in events :: e.associationRef == snapshot.associationRef && e.epoch == snapshot.epoch
    ensures cursor.Some? ==> cursor.value.associationRef == snapshot.associationRef && cursor.value.epoch == snapshot.epoch
    ensures cursor.Some? && events != [] ==> cursor.value.lastSequence == expected + |events|
    ensures cursor.Some? && events == [] ==> cursor.value.lastSequence <= expected
  {
    CheckEventsSpec(snapshot, events, expected);
  }

  // ----- transactions

  function Associate(t: Tables, snapshot: Snapshot): Result<Tables, Error> {
    if snapshot.epoch == NoEpoch then Err(ResyncRequired)
    else if snapshot.associationRef in t.associations then
      var old_ := t.associations[snapshot.associationRef];
      if old_.epoch == NoEpoch || old_.sessionRef != snapshot.sessionRef || old_.ownership != snapshot.ownership
         || old_.epoch != snapshot.epoch then Err(InvalidEvent)
      else
        var effective := if old_.sequence > snapshot.sequence || (old_.status.Terminal() && !snapshot.status.Terminal())
                         then old_ else snapshot;
        Ok(t.(associations := t.associations[snapshot.associationRef := effective]))
    else if snapshot.ownership == FleetOwnedTask then Err(CapabilityDenied)
    else Ok(t.(associations := t.associations[snapshot.associationRef := snapshot]))
  }

  /** The capacity checks, the journal row and its outbox row. */
  function Insert(t: Tables, lim: Limits, e: Event): Result<Tables, Error> {
    if |t.events| >= lim.maxEvents || Unacked(t.outbox) >= lim.maxPending then Err(PayloadTooLarge)
    else if e.associationRef !in t.associations then Err(InvalidRequest)
    else
      var rows := t.events + [e];
      match Queued(t.outbox, e.eventId)
      case Some(row) => if row.event != e then Err(InvalidProvenance) else Ok(t.(events := rows))
      case None => Ok(t.(events := rows, outbox := t.outbox + [OutRow(e, false)]))
  }

  function IngestEvent(t: Tables, lim: Limits, e: Event): Result<Tables, Error> {
    var known := BySequence(t.events, e.associationRef, e.sequence);
    if known.Some? && known.value != e then Err(InvalidProvenance)
    else
      match ByKey(t.events, e.associationRef, e.epoch, e.sequence)
      case Some(row) => if row != e then Err(InvalidProvenance) else Ok(t)
      case None =>
        if ById(t.events, e.eventId).Some? then Err(InvalidProvenance) else Insert(t, lim, e)
  }

  function IngestAll(t: Tables, lim: Limits, events: seq<Event>): Result<Tables, Error> {
    if events == [] then Ok(t)
    else
      match IngestAll(t, lim, events[..|events| - 1])
      case Err(e) => Err(e)
      case Ok(t1) => IngestEvent(t1, lim, events[|events| - 1])
  }

  function KeepCursor(t: Tables, cursor: Option<Cursor>): Tables {
    match cursor
    case None => t
    case Some(c) =>
      var prior := CursorFor(t.cursors, c.associationRef, c.subscriberRef);
      t.(cursors := Upsert(t.cursors, if prior.Some? && prior.value.lastSequence >= c.lastSequence then prior.value else c))
  }

  function Ingest(t: Tables, lim: Limits, snapshot: Snapshot, events: seq<Event>, cursor: Option<Cursor>): Result<Tables, Error> {
    if |events| > MAX_REPLAY_BATCH then Err(InvalidEvent)
    else
      match Associate(t, snapshot)
      case Err(e) => Err(e)
      case Ok(t1) =>
        match IngestAll(t1, lim, events)
        case Err(e) => Err(e)
        case Ok(t2) => Ok(KeepCursor(t2, cursor))
  }

  /** The next sequence number a terminal event must carry. */
  function Expected(t: Tables, old_: Snapshot): nat {
    Max(Max(old_.sequence, MaxSequence(t.events, old_.associationRef, old_.epoch)), MaxCursor(t.cursors, old_.associationRef)) + 1
  }

  function CheckTerminal(t: Tables, e: Event): Result<(), Error> {
    match ById(t.events, e.eventId)
    case Some(row) => if row != e then Err(InvalidProvenance) else Ok(())
    case None =>
      if e.associationRef !in t.associations then Err(AssociationRequired)
      else
        var old_ := t.associations[e.associationRef];
        if old_.associationRef != e.associationRef || old_.sessionRef != e.sessionRef || old_.epoch == NoEpoch
           || old_.epoch != e.epoch then Err(InvalidProvenance)
        else if !e.body.SessionDetached? then Err(InvalidEvent)
        else
          match ValidateStream(old_.(status := Detached, sequence := e.sequence), [e], Expected(t, old_) - 1, None)
          case Err(x) => Err(x)
          case Ok(_) =>
            var known := BySequence(t.events, e.associationRef, e.sequence);
            if known.Some? && known.value != e then Err(InvalidProvenance) else Ok(())
  }

  function CheckTerminals(t: Tables, events: seq<Event>): Result<(), Error> {
    if events == [] then Ok(())
    else
      match CheckTerminals(t, events[..|events| - 1])
      case Err(e) => Err(e)
      case Ok(_) => CheckTerminal(t, events[|events| - 1])
  }

  function MarkDetached(t: Tables, e: Event): Tables
    requires e.associationRef in t.associations
  {
    var old_ := t.associations[e.associationRef];
    t.(associations := t.associations[e.associationRef := old_.(status := Detached, sequence := Max(old_.sequence, e.sequence))])
  }

  function WriteTerminal(t: Tables, lim: Limits, e: Event): Result<Tables, Error> {
    if e.associationRef !in t.associations then Err(AssociationRequired)
    else
      var old_ := t.associations[e.associationRef];
      if old_.epoch == NoEpoch || old_.epoch != e.epoch then Err(ResyncRequired)
      else
        var existing := ByKey(t.events, e.associationRef, e.epoch, e.sequence);
        var written := if existing.None? then Insert(t, lim, e)
                       else if existing.value != e then Err(InvalidProvenance) else Ok(t);
        match written
        case Err(x) => Err(x)
        case Ok(t1) => Ok(MarkDetached(t1, e))
  }

  function WriteTerminals(t: Tables, lim: Limits, events: seq<Event>): Result<Tables, Error> {
    if events == [] then Ok(t)
    else
      match WriteTerminals(t, lim, events[..|events| - 1])
      case Err(e) => Err(e)
      case Ok(t1) => WriteTerminal(t1, lim, events[|events| - 1])
  }

  function IngestTerminals(t: Tables, lim: Limits, events: seq<Event>): Result<Tables, Error> {
    if events == [] then Err(AssociationStale)
    else if |events| > MAX_REPLAY_BATCH then Err(InvalidEvent)
    else
      match CheckTerminals(t, events)
      case Err(e) => Err(e)
      case Ok(_) => WriteTerminals(t, lim, events)
  }

  function Acknowledge(rows: seq<OutRow>, id: EventId): (r: seq<OutRow>)
    ensures |r| == |rows|
    ensures forall i | 0 <= i < |rows| :: r[i] == if rows[i].event.eventId == id then rows[i].(acknowledged := true) else rows[i]
  {
    seq(|rows|, i requires 0 <= i < |rows| => if rows[i].event.eventId == id then rows[i].(acknowledged := true) else rows[i])
  }

  function AckEvent(t: Tables, id: EventId): Result<Tables, Error> {
    if Queued(t.outbox, id).None? then Err(InvalidEvent) else Ok(t.(outbox := Acknowledge(t.outbox, id)))
  }

  datatype Op =
    | OpIngest(snapshot: Snapshot, events: seq<Event>, cursor: Option<Cursor>)
    | OpTerminals(events: seq<Event>)
    | OpAck(id: EventId)

  function Attempt(t: Tables, lim: Limits, op: Op): Result<Tables, Error> {
    match op
    case OpIngest(s, events, cursor) => Ingest(t, lim, s, events, cursor)
    case OpTerminals(events) => IngestTerminals(t, lim, events)
    case OpAck(id) => AckEvent(t, id)
  }

  /** A failed transaction is rolled back. */
  function Step(t: Tables, lim: Limits, op: Op): Tables {
    match Attempt(t, lim, op)
    case Ok(t1) => t1
    case Err(_) => t
  }

  function Run(lim: Limits, ops: seq<Op>): Tables {
    if ops == [] then EMPTY else Step(Run(lim, ops[..|ops| - 1]), lim, ops[|ops| - 1])
  }

  lemma RunOne(lim: Limits, ops: seq<Op>, op: Op)
    ensures Run(lim, ops + [op]) == Step(Run(lim, ops), lim, op)
  {
    assert (ops + [op])[..|ops|] == ops;
  }

  // ----- invariant

  /** One row per event id, and one row per (association, sequence) whatever the epoch. */
  ghost predicate UniqueRows(rows: seq<Event>) {
    forall i, j | 0 <= i < j < |rows| ::
      rows[i].eventId != rows[j].eventId &&
      !(rows[i].associationRef == rows[j].associationRef && rows[i].sequence == rows[j].sequence)
  }

  ghost predicate Aligned(rows: seq<Event>, outbox: seq<OutRow>) {
    |outbox| == |rows| && forall i | 0 <= i < |rows| :: outbox[i].event == rows[i]
  }

  ghost predicate Inv(t: Tables, lim: Limits) {
    && UniqueRows(t.events) && Aligned(t.events, t.outbox)
    && |t.events| <= lim.maxEvents && Unacked(t.outbox) <= lim.maxPending
    && (forall e | e in t.events :: e.associationRef in t.associations)
    && (forall a | a in t.associations :: t.associations[a].associationRef == a && t.associations[a].epoch != NoEpoch)
  }

  /** Outbox rows stay where they are, and an acknowledged one stays acknowledged. */
  ghost predicate RowsKept(before: seq<OutRow>, after: seq<OutRow>) {
    && |before| <= |after|
    && forall i | 0 <= i < |before| ::
         after[i].event == before[i].event && (before[i].acknowledged ==> after[i].acknowledged)
  }

  /** Nothing the journal knows is ever taken back. */
  ghost predicate Advances(t: Tables, u: Tables) {
    && t.events <= u.events && RowsKept(t.outbox, u.outbox)
    && (forall a | a in t.associations ::
          && a in u.associations
          && var (before, after) := (t.associations[a], u.associations[a]);
             && before.sequence <= after.sequence && (before.status.Terminal() ==> after.status.Terminal())
             && after.epoch == before.epoch && after.sessionRef == before.sessionRef)
    && (forall a, s | CursorFor(t.cursors, a, s).Some? ::
          CursorFor(u.cursors, a, s).Some? &&
          CursorFor(t.cursors, a, s).value.lastSequence <= CursorFor(u.cursors, a, s).value.lastSequence)
  }

  lemma AdvancesTransitive(t: Tables, u: Tables, v: Tables)
    requires Advances(t, u) && Advances(u, v)
    ensures Advances(t, v)
  {
  }

  lemma UnackedAppend(rows: seq<OutRow>, r: OutRow)
    ensures Unacked(rows + [r]) == Unacked(rows) + if r.acknowledged then 0 else 1
  {
    assert (rows + [r])[..|rows|] == rows;
  }

  lemma AssociateKeeps(t: Tables, lim: Limits, snapshot: Snapshot)
    requires Inv(t, lim) && Associate(t, snapshot).Ok?
    ensures Inv(Associate(t, snapshot).value, lim) && Advances(t, Associate(t, snapshot).value)
    ensures snapshot.associationRef in Associate(t, snapshot).value.associations
    ensures Associate(t, snapshot).value.associations[snapshot.associationRef].epoch == snapshot.epoch
    ensures Associate(t, snapshot).value.events == t.events && Associate(t, snapshot).value.cursors == t.cursors
  {
  }

  lemma SplitLast(events: seq<Event>)
    requires events != []
    ensures events == events[..|events| - 1] + [events[|events| - 1]]
  {
  }

  lemma InsertKeeps(t: Tables, lim: Limits, e: Event)
    requires Inv(t, lim) && Insert(t, lim, e).Ok?
    requires forall r | r in t.events :: !(r.associationRef == e.associationRef && r.sequence == e.sequence)
    ensures var u := Insert(t, lim, e).value;
            Inv(u, lim) && Advances(t, u) && u.events == t.events + [e] && u.associations == t.associations && u.cursors == t.cursors
  {
    var u := Insert(t, lim, e).value;
    forall i | 0 <= i < |t.events| ensures t.outbox[i].event in t.events {}
    assert Queued(t.outbox, e.eventId).None?;
    UnackedAppend(t.outbox, OutRow(e, false));
    forall i | 0 <= i < |t.events| ensures t.events[i].eventId != e.eventId { assert t.outbox[i].event == t.events[i]; }
  }

  lemma IngestEventKeeps(t: Tables, lim: Limits, e: Event)
    requires Inv(t, lim) && IngestEvent(t, lim, e).Ok?
    ensures var u := IngestEvent(t, lim, e).value;
            && Inv(u, lim) && Advances(t, u) && e in u.events && u.associations == t.associations && u.cursors == t.cursors
            && u.events == if e in t.events then t.events else t.events + [e]
  {
    if ByKey(t.events, e.associationRef, e.epoch, e.sequence).None? { InsertKeeps(t, lim, e); }
  }

  lemma {:induction false} IngestAllKeeps(t: Tables, lim: Limits, events: seq<Event>)
    requires Inv(t, lim) && IngestAll(t, lim, events).Ok?
    ensures var u := IngestAll(t, lim, events).value;
            && Inv(u, lim) && Advances(t, u) && u.associations == t.associations && u.cursors == t.cursors
            && (forall e | e in events :: e in u.events)
            && (forall e | e in u.events :: e in t.events || e in events)
  {
    if events != [] {
      var front, e := events[..|events| - 1], events[|events| - 1];
      var mid, end := IngestAll(t, lim, front).value, IngestAll(t, lim, events).value;
      IngestAllKeeps(t, lim, front);
      IngestEventKeeps(mid, lim, e);
      AdvancesTransitive(t, mid, end);
      OneMoreIngested(t.events, mid.events, end.events, events);
    }
  }

  lemma OneMoreIngested(rows: seq<Event>, mid: seq<Event>, end: seq<Event>, events: seq<Event>)
    requires events != [] && var e := events[|events| - 1]; end == if e in mid then mid else mid + [e]
    requires forall x | x in events[..|events| - 1] :: x in mid
    requires forall x | x in mid :: x in rows || x in events[..|events| - 1]
    ensures (forall x | x in events :: x in end) && (forall x | x in end :: x in rows || x in events)
  {
    assert events == events[..|events| - 1] + [events[|events| - 1]];
  }

  /** A committed ingest holds every delivered event; nothing else was added, and the cursor never moves back. */
  lemma IngestKeeps(t: Tables, lim: Limits, snapshot: Snapshot, events: seq<Event>, cursor: Option<Cursor>)
    requires Inv(t, lim) && Ingest(t, lim, snapshot, events, cursor).Ok?
    ensures var u := Ingest(t, lim, snapshot, events, cursor).value;
            && Inv(u, lim) && Advances(t, u)
            && (forall e | e in events :: e in u.events)
            && (forall e | e in u.events :: e in t.events || e in events)
            && snapshot.associationRef in u.associations && u.associations[snapshot.associationRef].epoch == snapshot.epoch
            && u.cursors == KeepCursor(t, cursor).cursors
  {
    IngestIs(t, lim, snapshot, events, cursor);
    AssociateKeeps(t, lim, snapshot);
    var t1 := Associate(t, snapshot).value;
    var t2 := IngestAll(t1, lim, events).value;
    IngestAllKeeps(t1, lim, events);
    KeepCursorKeeps(t2, lim, cursor);
    AdvancesTransitive(t, t1, t2);
    AdvancesTransitive(t, t2, KeepCursor(t2, cursor));
    SameCursors(t, t2, cursor);
  }

  lemma IngestIs(t: Tables, lim: Limits, snapshot: Snapshot, events: seq<Event>, cursor: Option<Cursor>)
    requires Ingest(t, lim, snapshot, events, cursor).Ok?
    ensures Associate(t, snapshot).Ok? && IngestAll(Associate(t, snapshot).value, lim, events).Ok?
    ensures Ingest(t, lim, snapshot, events, cursor).value == KeepCursor(IngestAll(Associate(t, snapshot).value, lim, events).value, cursor)
  {
  }

  lemma SameCursors(t: Tables, u: Tables, cursor: Option<Cursor>)
    requires t.cursors == u.cursors
    ensures KeepCursor(t, cursor).cursors == KeepCursor(u, cursor).cursors
  {
  }

  lemma KeepCursorKeeps(t: Tables, lim: Limits, cursor: Option<Cursor>)
    requires Inv(t, lim)
    ensures var u := KeepCursor(t, cursor);
            Inv(u, lim) && Advances(t, u) && u.events == t.events && u.associations == t.associations && u.outbox == t.outbox
  {
  }

  /** Rows written so far by a terminal batch carry the epoch their association had when the batch was checked. */
  ghost predicate BatchInv(t: Tables, u: Tables) {
    && t.events <= u.events && u.associations.Keys == t.associations.Keys
    && (forall a | a in t.associations :: u.associations[a].epoch == t.associations[a].epoch)
    && forall e | e in u.events :: e in t.events || (e.associationRef in t.associations && e.epoch == t.associations[e.associationRef].epoch)
  }

  /** A checked terminal event cannot share its sequence number with another row, even one written in the same batch. */
  lemma TerminalIsFresh(t: Tables, u: Tables, lim: Limits, e: Event)
    requires Inv(t, lim) && BatchInv(t, u) && CheckTerminal(t, e).Ok?
    requires ByKey(u.events, e.associationRef, e.epoch, e.sequence).None?
    ensures e.associationRef in t.associations && e.epoch == t.associations[e.associationRef].epoch
    ensures NoClash(u, e)
  {
    assert e !in t.events;
    assert ById(t.events, e.eventId).None?;
    forall r | r in u.events
      ensures !(r.associationRef == e.associationRef && r.sequence == e.sequence)
    {
      if r in t.events {
        assert BySequence(t.events, e.associationRef, e.sequence).None?;
      }
    }
  }

  lemma MarkDetachedKeeps(t: Tables, lim: Limits, e: Event)
    requires Inv(t, lim) && e.associationRef in t.associations
    ensures Inv(MarkDetached(t, e), lim) && Advances(t, MarkDetached(t, e))
  {
  }

  ghost predicate Wrote(u: Tables, v: Tables, e: Event) {
    && e.associationRef in u.associations && v.associations == MarkDetached(u, e).associations
    && e in v.events && v.cursors == u.cursors
    && (forall x | x in v.events :: x in u.events || x == e)
  }

  lemma BatchGrows(t: Tables, u: Tables, v: Tables, e: Event)
    requires BatchInv(t, u) && e.associationRef in u.associations && e.epoch == u.associations[e.associationRef].epoch
    requires v.events == u.events || v.events == u.events + [e]
    requires v.associations == u.associations || v.associations == MarkDetached(u, e).associations
    ensures BatchInv(t, v)
  {
  }

  ghost predicate NoClash(t: Tables, e: Event) {
    forall r | r in t.events :: !(r.associationRef == e.associationRef && r.sequence == e.sequence)
  }

  lemma WriteEffect(u: Tables, lim: Limits, e: Event)
    requires Inv(u, lim) && WriteTerminal(u, lim, e).Ok?
    requires ByKey(u.events, e.associationRef, e.epoch, e.sequence).None? ==> NoClash(u, e)
    ensures var v := WriteTerminal(u, lim, e).value;
            && Inv(v, lim) && Advances(u, v) && Wrote(u, v, e)
            && e.epoch == u.associations[e.associationRef].epoch
            && (v.events == u.events || v.events == u.events + [e])
  {
    if ByKey(u.events, e.associationRef, e.epoch, e.sequence).None? {
      InsertKeeps(u, lim, e);
      var w := Insert(u, lim, e).value;
      MarkDetachedKeeps(w, lim, e);
      AdvancesTransitive(u, w, MarkDetached(w, e));
    } else {
      MarkDetachedKeeps(u, lim, e);
    }
  }

  lemma WriteTerminalKeeps(t: Tables, u: Tables, lim: Limits, e: Event)
    requires Inv(t, lim) && Inv(u, lim) && BatchInv(t, u)
    requires CheckTerminal(t, e).Ok? && WriteTerminal(u, lim, e).Ok?
    ensures var v := WriteTerminal(u, lim, e).value; Inv(v, lim) && BatchInv(t, v) && Advances(u, v) && Wrote(u, v, e)
  {
    if ByKey(u.events, e.associationRef, e.epoch, e.sequence).None? { TerminalIsFresh(t, u, lim, e); }
    WriteEffect(u, lim, e);
    BatchGrows(t, u, WriteTerminal(u, lim, e).value, e);
  }

  ghost predicate WroteAll(t: Tables, u: Tables, events: seq<Event>) {
    && u.cursors == t.cursors
    && (forall e | e in events :: e in u.events && e.associationRef in u.associations
                                  && u.associations[e.associationRef].status == Detached)
    && (forall e | e in u.events :: e in t.events || e in events)
  }

  lemma WroteMore(t: Tables, u: Tables, v: Tables, front: seq<Event>, e: Event)
    requires WroteAll(t, u, front) && Wrote(u, v, e) && u.events <= v.events
    ensures WroteAll(t, v, front + [e])
  {
  }

  lemma {:induction false} WriteTerminalsKeeps(t: Tables, lim: Limits, events: seq<Event>)
    requires Inv(t, lim) && CheckTerminals(t, events).Ok? && WriteTerminals(t, lim, events).Ok?
    ensures var u := WriteTerminals(t, lim, events).value;
            Inv(u, lim) && BatchInv(t, u) && Advances(t, u) && WroteAll(t, u, events)
  {
    if events != [] {
      var front, e := events[..|events| - 1], events[|events| - 1];
      SplitLast(events);
      WriteTerminalsKeeps(t, lim, front);
      var u := WriteTerminals(t, lim, front).value;
      WriteTerminalKeeps(t, u, lim, e);
      var v := WriteTerminal(u, lim, e).value;
      assert WriteTerminals(t, lim, events) == Ok(v);
      AdvancesTransitive(t, u, v);
      WroteMore(t, u, v, front, e);
    }
  }

  lemma {:induction false} AcknowledgeKeeps(rows: seq<OutRow>, id: EventId)
    ensures Unacked(Acknowledge(rows, id)) <= Unacked(rows)
  {
    if rows != [] {
      var front := rows[..|rows| - 1];
      AcknowledgeKeeps(front, id);
      assert Acknowledge(rows, id)[..|rows| - 1] == Acknowledge(front, id);
    }
  }

  lemma StepKeeps(t: Tables, lim: Limits, op: Op)
    requires Inv(t, lim)
    ensures Inv(Step(t, lim, op), lim) && Advances(t, Step(t, lim, op))
  {
    if Attempt(t, lim, op).Ok? {
      match op
      case OpIngest(s, events, cursor) => IngestKeeps(t, lim, s, events, cursor);
      case OpTerminals(events) => WriteTerminalsKeeps(t, lim, events);
      case OpAck(id) => AcknowledgeKeeps(t.outbox, id);
    }
  }

  /** Over every run of the journal its rows, outbox and bounds stay consistent ... */
  lemma {:induction false} JournalInvariant(lim: Limits, ops: seq<Op>)
    ensures Inv(Run(lim, ops), lim)
  {
    if ops != [] {
      JournalInvariant(lim, ops[..|ops| - 1]);
      StepKeeps(Run(lim, ops[..|ops| - 1]), lim, ops[|ops| - 1]);
    }
  }

  /** ... and only moves forward: rows stay and stay acknowledged, sequences and cursors grow, terminal stays terminal. */
  lemma {:induction false} JournalMonotone(lim: Limits, ops: seq<Op>, more: seq<Op>)
    ensures Advances(Run(lim, ops), Run(lim, ops + more))
    decreases |more|
  {
    if more == [] {
      assert ops + more == ops;
    } else {
      var front := more[..|more| - 1];
      JournalMonotone(lim, ops, front);
      assert (ops + more)[..|ops + more| - 1] == ops + front;
      JournalInvariant(lim, ops + front);
      StepKeeps(Run(lim, ops + front), lim, more[|more| - 1]);
      AdvancesTransitive(Run(lim, ops), Run(lim, ops + front), Run(lim, ops + more));
    }
  }

  /** A row's event id and its (association, epoch, sequence) determine each other, and both determine the row. */
  lemma IdsAndKeysBiject(lim: Limits, ops: seq<Op>, x: Event, y: Event)
    requires x in Run(lim, ops).events && y in Run(lim, ops).events
    ensures x.eventId == y.eventId <==> x == y
    ensures x.eventId == y.eventId <==>
            (x.associationRef, x.epoch, x.sequence) == (y.associationRef, y.epoch, y.sequence)
  {
    JournalInvariant(lim, ops);
    var rows := Run(lim, ops).events;
    var i :| 0 <= i < |rows| && rows[i] == x;
    var j :| 0 <= j < |rows| && rows[j] == y;
  }

  // ----- redelivery

  lemma KnownEventIsNoOp(t: Tables, lim: Limits, e: Event)
    requires Inv(t, lim) && e in t.events
    ensures IngestEvent(t, lim, e) == Ok(t)
  {
    var i :| 0 <= i < |t.events| && t.events[i] == e;
    var known := BySequence(t.events, e.associationRef, e.sequence);
    assert known.Some?;
    var j :| 0 <= j < |t.events| && t.events[j] == known.value;
    assert ByKey(t.events, e.associationRef, e.epoch, e.sequence).Some?;
    var row := ByKey(t.events, e.associationRef, e.epoch, e.sequence).value;
    var k :| 0 <= k < |t.events| && t.events[k] == row;
    assert i == j == k;
  }

  lemma {:induction false} KnownEventsAreNoOp(t: Tables, lim: Limits, events: seq<Event>)
    requires Inv(t, lim) && forall e | e in events :: e in t.events
    ensures IngestAll(t, lim, events) == Ok(t)
  {
    if events != [] {
      KnownEventsAreNoOp(t, lim, events[..|events| - 1]);
      KnownEventIsNoOp(t, lim, events[|events| - 1]);
    }
  }

  lemma UpsertSame(rows: seq<Cursor>, c: Cursor)
    requires CursorFor(rows, c.associationRef, c.subscriberRef) == Some(c)
    ensures Upsert(rows, c) == rows
  {
  }

  lemma ReassociateIsNoOp(t: Tables, u: Tables, snapshot: Snapshot)
    requires Associate(t, snapshot).Ok? && u.associations == Associate(t, snapshot).value.associations
    ensures Associate(u, snapshot) == Ok(u)
  {
    var a := snapshot.associationRef;
    assert u.associations[a := u.associations[a]] == u.associations;
  }

  lemma RekeepIsNoOp(t: Tables, u: Tables, cursor: Option<Cursor>)
    requires u.cursors == KeepCursor(t, cursor).cursors
    ensures KeepCursor(u, cursor) == u
  {
    if cursor.Some? {
      var kept := CursorFor(u.cursors, cursor.value.associationRef, cursor.value.subscriberRef);
      assert kept.Some? && kept.value.lastSequence >= cursor.value.lastSequence;
      UpsertSame(u.cursors, kept.value);
    }
  }

  /** Redelivering exactly what was committed changes nothing, not even acknowledgements. */
  lemma RedeliveryIsNoOp(t: Tables, lim: Limits, snapshot: Snapshot, events: seq<Event>, cursor: Option<Cursor>)
    requires Inv(t, lim) && Ingest(t, lim, snapshot, events, cursor).Ok?
    ensures var u := Ingest(t, lim, snapshot, events, cursor).value;
            Ingest(u, lim, snapshot, events, cursor) == Ok(u)
  {
    IngestKeeps(t, lim, snapshot, events, cursor);
    var u := Ingest(t, lim, snapshot, events, cursor).value;
    assert u.associations == Associate(t, snapshot).value.associations by {
      AssociateKeeps(t, lim, snapshot);
      IngestAllKeeps(Associate(t, snapshot).value, lim, events);
    }
    ReassociateIsNoOp(t, u, snapshot);
    KnownEventsAreNoOp(u, lim, events);
    RekeepIsNoOp(t, u, cursor);
  }

  lemma {:induction false} KnownTerminalsPass(t: Tables, lim: Limits, events: seq<Event>)
    requires Inv(t, lim) && forall e | e in events :: e in t.events
    ensures CheckTerminals(t, events) == Ok(())
  {
    if events != [] {
      var e := events[|events| - 1];
      assert e in events;
      KnownTerminalsPass(t, lim, events[..|events| - 1]);
      var i :| 0 <= i < |t.events| && t.events[i] == e;
      var row := ById(t.events, e.eventId);
      assert row.Some?;
      var j :| 0 <= j < |t.events| && t.events[j] == row.value;
    }
  }

  ghost predicate Settled(t: Tables, e: Event) {
    && e in t.events && e.associationRef in t.associations
    && var a := t.associations[e.associationRef];
       a.epoch == e.epoch && a.status == Detached && e.sequence <= a.sequence
  }

  lemma {:induction false} SettledTerminalsAreNoOp(t: Tables, lim: Limits, events: seq<Event>)
    requires Inv(t, lim) && forall e | e in events :: Settled(t, e)
    ensures WriteTerminals(t, lim, events) == Ok(t)
  {
    if events != [] {
      var e := events[|events| - 1];
      SettledTerminalsAreNoOp(t, lim, events[..|events| - 1]);
      assert Settled(t, e);
      KnownEventIsNoOp(t, lim, e);
      assert ByKey(t.events, e.associationRef, e.epoch, e.sequence).Some?;
      var a := t.associations[e.associationRef];
      assert a.(status := Detached, sequence := Max(a.sequence, e.sequence)) == a;
      assert t.associations[e.associationRef := a] == t.associations;
    }
  }

  lemma WriteSettles(t: Tables, u: Tables, lim: Limits, e: Event)
    requires Inv(t, lim) && Inv(u, lim) && BatchInv(t, u)
    requires CheckTerminal(t, e).Ok? && WriteTerminal(u, lim, e).Ok?
    ensures var v := WriteTerminal(u, lim, e).value; Settled(v, e) && forall x :: Settled(u, x) ==> Settled(v, x)
  {
    WriteTerminalKeeps(t, u, lim, e);
  }

  lemma {:induction false} WrittenTerminalsSettle(t: Tables, lim: Limits, events: seq<Event>)
    requires Inv(t, lim) && CheckTerminals(t, events).Ok? && WriteTerminals(t, lim, events).Ok?
    ensures forall e | e in events :: Settled(WriteTerminals(t, lim, events).value, e)
  {
    if events != [] {
      var front, last := events[..|events| - 1], events[|events| - 1];
      SplitLast(events);
      WrittenTerminalsSettle(t, lim, front);
      WriteTerminalsKeeps(t, lim, front);
      WriteSettles(t, WriteTerminals(t, lim, front).value, lim, last);
    }
  }

  /** The same for a terminal batch. */
  lemma TerminalRedeliveryIsNoOp(t: Tables, lim: Limits, events: seq<Event>)
    requires Inv(t, lim) && IngestTerminals(t, lim, events).Ok?
    ensures var u := IngestTerminals(t, lim, events).value; IngestTerminals(u, lim, events) == Ok(u)
  {
    WriteTerminalsKeeps(t, lim, events);
    WrittenTerminalsSettle(t, lim, events);
    var u := IngestTerminals(t, lim, events).value;
    KnownTerminalsPass(u, lim, events);
    SettledTerminalsAreNoOp(u, lim, events);
  }

  // ----- the store itself

  lemma {:induction false} FailedPrefix(t: Tables, lim: Limits, events: seq<Event>, i: nat)
    requires i <= |events|
    ensures IngestAll(t, lim, events[..i]).Err? ==> IngestAll(t, lim, events) == IngestAll(t, lim, events[..i])
    ensures CheckTerminals(t, events[..i]).Err? ==> CheckTerminals(t, events) == CheckTerminals(t, events[..i])
    ensures WriteTerminals(t, lim, events[..i]).Err? ==> WriteTerminals(t, lim, events) == WriteTerminals(t, lim, events[..i])
  {
    if i == |events| {
      assert events[..i] == events;
    } else {
      var front := events[..|events| - 1];
      FailedPrefix(t, lim, front, i);
      assert front[..i] == events[..i];
    }
  }

  function PendingOf(rows: seq<OutRow>): (r: seq<Event>)
    ensures |r| == Unacked(rows)
  {
    if rows == [] then []
    else PendingOf(rows[..|rows| - 1]) + (if rows[|rows| - 1].acknowledged then [] else [rows[|rows| - 1].event])
  }

  class Store {
    const limits: Limits
    var associations: map<string, Snapshot>
    var events: seq<Event>
    var outbox: seq<OutRow>
    var cursors: seq<Cursor>
    ghost var run: seq<Op>

    ghost function View(): Tables
      reads this
    {
      Tables(associations, events, outbox, cursors)
    }

    ghost predicate Valid()
      reads this
    {
      View() == Run(limits, run)
    }

    ghost predicate Performed(before: seq<Op>, op: Op)
      reads this
    {
      run == before + [op] && Valid()
    }

    constructor (limits: Limits)
      ensures Valid() && run == [] && this.limits == limits
    {
      this.limits := limits;
      associations, events, outbox, cursors := map[], [], [], [];
      run := [];
    }

    ghost method Record(op: Op)
      requires View() == Step(Run(limits, run), limits, op)
      modifies this`run
      ensures Performed(old(run), op)
    {
      RunOne(limits, run, op);
      run := run + [op];
    }

    method Commit(t: Tables)
      modifies this`associations, this`events, this`outbox, this`cursors
      ensures View() == t
    {
      associations, events, outbox, cursors := t.associations, t.events, t.outbox, t.cursors;
    }

    /** The loop of a batch transaction over its events, working on the transaction's own tables. */
    method IngestRows(begun: Tables, batch: seq<Event>) returns (r: Result<Tables, Error>)
      ensures r == IngestAll(begun, limits, batch)
    {
      var work := begun;
      for i := 0 to |batch|
        invariant IngestAll(begun, limits, batch[..i]) == Ok(work)
      {
        var e := batch[i];
        assert batch[..i + 1][..i] == batch[..i];
        FailedPrefix(begun, limits, batch, i + 1);
        var known := BySequence(work.events, e.associationRef, e.sequence);
        if known.Some? && known.value != e { return Err(InvalidProvenance); }
        var row := ByKey(work.events, e.associationRef, e.epoch, e.sequence);
        if row.Some? {
          if row.value != e { return Err(InvalidProvenance); }
          continue;
        }
        if ById(work.events, e.eventId).Some? { return Err(InvalidProvenance); }
        var inserted := Insert(work, limits, e);
        if inserted.Err? { return inserted; }
        work := inserted.value;
      }
      assert batch[..|batch|] == batch;
      r := Ok(work);
    }

    /** All or nothing: on failure the tables are exactly what they were. */
    method IngestBatch(snapshot: Snapshot, batch: seq<Event>, cursor: Option<Cursor>) returns (r: Result<(), Error>)
      requires Valid()
      modifies this
      ensures Performed(old(run), OpIngest(snapshot, batch, cursor))
      ensures r.Ok? ==> Ingest(old(View()), limits, snapshot, batch, cursor) == Ok(View())
      ensures r.Err? ==> View() == old(View()) && Ingest(old(View()), limits, snapshot, batch, cursor) == Err(r.error)
    {
      if |batch| > MAX_REPLAY_BATCH {
        r := Err(InvalidEvent);
      } else {
        var begun := Associate(Tables(associations, events, outbox, cursors), snapshot);
        if begun.Err? {
          r := Err(begun.error);
        } else {
          var rows := IngestRows(begun.value, batch);
          if rows.Err? {
            r := Err(rows.error);
          } else {
            var work := rows.value;
            if cursor.Some? {
              var c := cursor.value;
              var prior := CursorFor(work.cursors, c.associationRef, c.subscriberRef);
              if prior.Some? && prior.value.lastSequence >= c.lastSequence { c := prior.value; }
              work := work.(cursors := Upsert(work.cursors, c));
            }
            Commit(work);
            r := Ok(());
          }
        }
      }
      Record(OpIngest(snapshot, batch, cursor));
    }

    method CheckRows(t: Tables, batch: seq<Event>) returns (r: Result<(), Error>)
      ensures r == CheckTerminals(t, batch)
    {
      for i := 0 to |batch|
        invariant CheckTerminals(t, batch[..i]) == Ok(())
      {
        assert batch[..i + 1][..i] == batch[..i];
        FailedPrefix(t, limits, batch, i + 1);
        var checked := CheckTerminal(t, batch[i]);
        if checked.Err? { return checked; }
      }
      assert batch[..|batch|] == batch;
      r := Ok(());
    }

    method WriteRows(t: Tables, batch: seq<Event>) returns (r: Result<Tables, Error>)
      ensures r == WriteTerminals(t, limits, batch)
    {
      var work := t;
      for i := 0 to |batch|
        invariant WriteTerminals(t, limits, batch[..i]) == Ok(work)
      {
        assert batch[..i + 1][..i] == batch[..i];
        FailedPrefix(t, limits, batch, i + 1);
        var written := WriteTerminal(work, limits, batch[i]);
        if written.Err? { return written; }
        work := written.value;
      }
      assert batch[..|batch|] == batch;
      r := Ok(work);
    }

    method IngestEvents(batch: seq<Event>) returns (r: Result<(), Error>)
      requires Valid()
      modifies this
      ensures Performed(old(run), OpTerminals(batch))
      ensures r.Ok? ==> IngestTerminals(old(View()), limits, batch) == Ok(View())
      ensures r.Err? ==> View() == old(View()) && IngestTerminals(old(View()), limits, batch) == Err(r.error)
    {
      if batch == [] {
        r := Err(AssociationStale);
      } else if |batch| > MAX_REPLAY_BATCH {
        r := Err(InvalidEvent);
      } else {
        var t := Tables(associations, events, outbox, cursors);
        r := CheckRows(t, batch);
        if r.Ok? {
          var written := WriteRows(t, batch);
          if written.Err? { r := Err(written.error); } else { Commit(written.value); }
        }
      }
      Record(OpTerminals(batch));
    }

    method Ack(id: EventId) returns (r: Result<(), Error>)
      requires Valid()
      modifies this
      ensures Performed(old(run), OpAck(id))
      ensures r.Ok? <==> AckEvent(old(View()), id).Ok?
    {
      if Queued(outbox, id).None? {
        r := Err(InvalidEvent);
      } else {
        outbox := Acknowledge(outbox, id);
        r := Ok(());
      }
      Record(OpAck(id));
    }

    /** Unacknowledged events, oldest first. */
    method Pending() returns (batch: seq<Event>)
      ensures batch == PendingOf(outbox)
    {
      batch := [];
      for i := 0 to |outbox|
        invariant batch == PendingOf(outbox[..i])
      {
        assert outbox[..i + 1][..i] == outbox[..i];
        if !outbox[i].acknowledged { batch := batch + [outbox[i].event]; }
      }
      assert outbox[..|outbox|] == outbox;
    }
  }
}
