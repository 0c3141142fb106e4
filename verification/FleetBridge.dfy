/**
  The bridge: what it asks of the gateway, what it checks about the answer, and what it journals.

  A system is a gateway and a journal.  An operation of the bridge runs against both; `Upstream` is anything
  that happens to the gateway behind the bridge's back.  Gateway time and the bridge's own clock are separate.
*/
module FleetBridge {
  import opened Wrappers
  import opened GatewayContracts
  import G = FakeGateway
  import J = Journal

  datatype Settings = Settings(observer: Observer, gateway: G.Config, limits: J.Limits)

  datatype System = System(gateway: G.Gateway, tables: J.Tables)

  const START := System(G.EMPTY, J.EMPTY)

  // ----- the bridge's own checks

  function CheckBinding(t: J.Tables, ref: string, snapshot: Snapshot, events: seq<Event>): Result<(), Error> {
    if ref !in t.associations then Err(InvalidProvenance)
    else
      var expected := t.associations[ref];
      if snapshot.associationRef != expected.associationRef || snapshot.sessionRef != expected.sessionRef
         || snapshot.ownership != expected.ownership then Err(InvalidProvenance)
      else if exists e | e in events :: e.associationRef != snapshot.associationRef || e.sessionRef != snapshot.sessionRef
                                        || e.ownership != snapshot.ownership then Err(InvalidProvenance)
      else Ok(())
  }

  function CheckCursor(cursor: Option<Cursor>, ref: string, epoch: Epoch, subscriber: string, wall: int): Result<(), Error> {
    match cursor
    case None => Ok(())
    case Some(c) =>
      if c.associationRef != ref || (epoch != NoEpoch && c.epoch != epoch) || c.subscriberRef != subscriber
      then Err(InvalidProvenance)
      else if c.expiresAt <= wall then Err(ResyncRequired)
      else Ok(())
  }

  /** Accept a delivery that should continue from `expected`, or refuse it without touching the journal. */
  function Deliver(t: J.Tables, s: Settings, ref: string, d: Delivery, expected: nat, wall: int): Result<J.Tables, Error> {
    match J.ValidateStream(d.snapshot, d.events, expected, Some(d.cursor))
    case Err(e) => Err(e)
    case Ok(_) =>
      match CheckBinding(t, ref, d.snapshot, d.events)
      case Err(e) => Err(e)
      case Ok(_) =>
        match CheckCursor(Some(d.cursor), d.snapshot.associationRef, d.snapshot.epoch, s.observer.observerRef, wall)
        case Err(e) => Err(e)
        case Ok(_) => J.Ingest(t, s.limits, d.snapshot, d.events, Some(d.cursor))
  }

  // ----- operations

  function Commit(sys: System, r: Result<J.Tables, Error>): System {
    match r
    case Ok(t) => sys.(tables := t)
    case Err(_) => sys
  }

  function DoAttach(sys: System, s: Settings, ticket: G.TicketRef, candidate: G.Binding, operation: string, now: int): System {
    var (g, r) := G.Consume(sys.gateway, s.gateway, s.observer, ticket, candidate, operation, UserOwnedSession, now);
    var next := sys.(gateway := g);
    match r
    case Err(_) => next
    case Ok(a) =>
      match G.TakeSnapshot(g, s.observer, a.associationRef)
      case Err(_) => next
      case Ok(snapshot) =>
        if a.associationRef != candidate.associationRef || a.sessionRef != candidate.sessionRef
           || snapshot.sessionRef != a.sessionRef || snapshot.ownership != a.ownership then next
        else Commit(next, J.Ingest(sys.tables, s.limits, snapshot, [], None))
  }

  function DoSnapshot(sys: System, s: Settings, ref: string, now: int): Result<J.Tables, Error> {
    match G.TakeSnapshot(sys.gateway, s.observer, ref)
    case Err(e) => Err(e)
    case Ok(snapshot) =>
      match J.ValidateStream(snapshot, [], 0, None)
      case Err(e) => Err(e)
      case Ok(_) =>
        match CheckBinding(sys.tables, ref, snapshot, [])
        case Err(e) => Err(e)
        case Ok(_) => J.Ingest(sys.tables, s.limits, snapshot, [], None)
  }

  function DoSubscribe(sys: System, s: Settings, ref: string, cursor: Option<Cursor>, limit: nat, now: int, wall: int)
    : Result<J.Tables, Error>
  {
    var known := ref in sys.tables.associations;
    if cursor.Some? && (!known || sys.tables.associations[ref].epoch == NoEpoch) then Err(InvalidProvenance)
    else
      match CheckCursor(cursor, ref, if known then sys.tables.associations[ref].epoch else NoEpoch, s.observer.observerRef, wall)
      case Err(e) => Err(e)
      case Ok(_) =>
        if !G.GoodLimit(limit) then Err(InvalidRequest)
        else
          match G.Subscribe(sys.gateway, s.gateway, s.observer, ref, cursor, limit, now)
          case Err(e) => Err(e)
          case Ok(d) => Deliver(sys.tables, s, ref, d, if cursor.Some? then cursor.value.lastSequence else 0, wall)
  }

  function DoReplay(sys: System, s: Settings, w: Window, cursor: Option<Cursor>, now: int, wall: int): Result<J.Tables, Error> {
    if !G.GoodLimit(w.limit) then Err(InvalidRequest)
    else
      match CheckCursor(cursor, w.associationRef, w.epoch, s.observer.observerRef, wall)
      case Err(e) => Err(e)
      case Ok(_) =>
        match G.Replay(sys.gateway, s.gateway, s.observer, w, cursor, now)
        case Err(e) => Err(e)
        case Ok(d) =>
          Deliver(sys.tables, s, w.associationRef, d, if cursor.Some? then cursor.value.lastSequence else w.after, wall)
  }

  function DoHeartbeat(sys: System, s: Settings, ref: string, now: int): System {
    var (g, r) := G.Beat(sys.gateway, s.gateway, s.observer, ref, now);
    var next := sys.(gateway := g);
    match r
    case Err(_) => next
    case Ok(beat) => Commit(next, JournalBeat(sys.tables, s, ref, beat.0, beat.1))
  }

  function JournalBeat(t: J.Tables, s: Settings, ref: string, snapshot: Snapshot, event: Event): Result<J.Tables, Error> {
    match J.ValidateStream(snapshot, [event], if snapshot.sequence == 0 then 0 else snapshot.sequence - 1, None)
    case Err(e) => Err(e)
    case Ok(_) =>
      match CheckBinding(t, ref, snapshot, [event])
      case Err(e) => Err(e)
      case Ok(_) => J.Ingest(t, s.limits, snapshot, [event], None)
  }

  /** Refresh the snapshot, then continue from the stored cursor. */
  function DoReconcile(sys: System, s: Settings, ref: string, now: int, wall: int): System {
    match DoSnapshot(sys, s, ref, now)
    case Err(_) => sys
    case Ok(t) =>
      var refreshed := sys.(tables := t);
      Commit(refreshed, DoSubscribe(refreshed, s, ref, J.CursorFor(t.cursors, ref, s.observer.observerRef), MAX_REPLAY_BATCH, now, wall))
  }

  function Detachments(events: seq<Event>): seq<Event> {
    if events == [] then []
    else (if events[0].body.SessionDetached? then [events[0]] else []) + Detachments(events[1..])
  }

  /** The revocation's own event, or failing that the detachments still retained. */
  function Terminals(g: G.Gateway, s: Settings, ref: string, r: Result<Option<Event>, Error>): Result<seq<Event>, Error> {
    match r
    case Err(e) => Err(e)
    case Ok(Some(event)) => Ok([event])
    case Ok(None) =>
      match G.RetainedView(g, s.observer, ref, MAX_REPLAY_BATCH)
      case Err(e) => Err(e)
      case Ok(events) => Ok(Detachments(events))
  }

  function DoDetach(sys: System, s: Settings, ref: string, now: int): System {
    var (g, r) := G.Revoke(sys.gateway, s.gateway, s.observer, ref, now);
    var next := sys.(gateway := g);
    match Terminals(g, s, ref, r)
    case Err(_) => next
    case Ok(events) => Commit(next, J.IngestTerminals(sys.tables, s.limits, events))
  }

  datatype Op =
    | OpAttach(ticket: G.TicketRef, candidate: G.Binding, operation: string, now: int)
    | OpSnapshot(ref: string, now: int)
    | OpSubscribe(ref: string, cursor: Option<Cursor>, limit: nat, now: int, wall: int)
    | OpReplay(window: Window, cursor: Option<Cursor>, now: int, wall: int)
    | OpHeartbeat(ref: string, now: int)
    | OpReconcile(ref: string, now: int, wall: int)
    | OpDetach(ref: string, now: int)
    | OpAck(id: EventId)
    | Upstream(op: G.Op)

  function Step(sys: System, s: Settings, op: Op): System {
    match op
    case OpAttach(t, c, key, now) => DoAttach(sys, s, t, c, key, now)
    case OpSnapshot(ref, now) => Commit(sys, DoSnapshot(sys, s, ref, now))
    case OpSubscribe(ref, cursor, limit, now, wall) => Commit(sys, DoSubscribe(sys, s, ref, cursor, limit, now, wall))
    case OpReplay(w, cursor, now, wall) => Commit(sys, DoReplay(sys, s, w, cursor, now, wall))
    case OpHeartbeat(ref, now) => DoHeartbeat(sys, s, ref, now)
    case OpReconcile(ref, now, wall) => DoReconcile(sys, s, ref, now, wall)
    case OpDetach(ref, now) => DoDetach(sys, s, ref, now)
    case OpAck(id) => Commit(sys, J.AckEvent(sys.tables, id))
    case Upstream(o) => sys.(gateway := G.Step(sys.gateway, s.gateway, o))
  }

  function Run(s: Settings, ops: seq<Op>): System {
    if ops == [] then START else Step(Run(s, ops[..|ops| - 1]), s, ops[|ops| - 1])
  }

  lemma RunOne(s: Settings, ops: seq<Op>, op: Op)
    ensures Run(s, ops + [op]) == Step(Run(s, ops), s, op)
  {
    assert (ops + [op])[..|ops|] == ops;
  }

  // ----- every journal row is what the gateway emitted

  ghost predicate Faithful(g: G.Gateway, rows: seq<Event>) { forall e | e in rows :: G.AsEmitted(g, e) }

  /** Rows belong to the epoch their association was first journalled with. */
  ghost predicate OneEpoch(t: J.Tables) {
    forall e | e in t.events :: e.associationRef in t.associations && e.epoch == t.associations[e.associationRef].epoch
  }

  ghost predicate Inv(sys: System, s: Settings) {
    && s.gateway.retention >= 1
    && G.Inv(sys.gateway, s.gateway) && J.Inv(sys.tables, s.limits)
    && Faithful(sys.gateway, sys.tables.events) && OneEpoch(sys.tables)
  }

  lemma FaithfulLater(g: G.Gateway, h: G.Gateway, rows: seq<Event>)
    requires Faithful(g, rows) && G.Extends(g, h)
    ensures Faithful(h, rows)
  {
    forall e | e in rows
      ensures G.AsEmitted(h, e)
    {
      assert G.AsEmitted(g, e);
    }
  }

  lemma LogFaithful(g: G.Gateway, epoch: Epoch)
    requires epoch in g.emitted && G.Proper(g.emitted[epoch], epoch)
    ensures Faithful(g, g.emitted[epoch])
  {
    var log := g.emitted[epoch];
    forall e | e in log
      ensures G.AsEmitted(g, e)
    {
      var i :| 0 <= i < |log| && log[i] == e;
      assert log[i].sequence == i + 1;
    }
  }

  lemma WindowFaithful(g: G.Gateway, cfg: G.Config, ref: string)
    requires G.Inv(g, cfg) && ref in g.associations
    ensures Faithful(g, g.associations[ref].events)
  {
    assert G.StreamInv(g, cfg, ref);
    LogFaithful(g, g.associations[ref].epoch);
  }

  lemma LaterSubset(events: seq<Event>, after: nat)
    ensures forall e | e in G.Later(events, after) :: e in events
  {
  }

  lemma DetachmentsSubset(events: seq<Event>)
    ensures forall e | e in Detachments(events) :: e in events
  {
  }

  lemma SubscribedFaithful(g: G.Gateway, s: Settings, ref: string, cursor: Option<Cursor>, limit: nat, now: int)
    requires G.Inv(g, s.gateway) && G.Subscribe(g, s.gateway, s.observer, ref, cursor, limit, now).Ok?
    ensures Faithful(g, G.Subscribe(g, s.gateway, s.observer, ref, cursor, limit, now).value.events)
  {
    WindowFaithful(g, s.gateway, ref);
    if cursor.Some? { LaterSubset(g.associations[ref].events, cursor.value.lastSequence); }
  }

  lemma ReplayedFaithful(g: G.Gateway, s: Settings, w: Window, cursor: Option<Cursor>, now: int)
    requires G.Inv(g, s.gateway) && G.Replay(g, s.gateway, s.observer, w, cursor, now).Ok?
    ensures Faithful(g, G.Replay(g, s.gateway, s.observer, w, cursor, now).value.events)
  {
    WindowFaithful(g, s.gateway, w.associationRef);
    LaterSubset(g.associations[w.associationRef].events, w.after);
  }

  /** Any accepted batch of faithful events leaves the system consistent. */
  lemma IngestKeepsInv(sys: System, s: Settings, snapshot: Snapshot, events: seq<Event>, cursor: Option<Cursor>)
    requires Inv(sys, s) && Faithful(sys.gateway, events)
    requires forall e | e in events :: e.associationRef == snapshot.associationRef && e.epoch == snapshot.epoch
    ensures Inv(Commit(sys, J.Ingest(sys.tables, s.limits, snapshot, events, cursor)), s)
  {
    var r := J.Ingest(sys.tables, s.limits, snapshot, events, cursor);
    if r.Ok? {
      J.IngestKeeps(sys.tables, s.limits, snapshot, events, cursor);
      forall e | e in r.value.events
        ensures e.associationRef in r.value.associations && e.epoch == r.value.associations[e.associationRef].epoch
      {
        if e in sys.tables.events { assert e.associationRef in sys.tables.associations; }
      }
    }
  }

  lemma DeliverKeepsInv(sys: System, s: Settings, ref: string, d: Delivery, expected: nat, wall: int)
    requires Inv(sys, s) && Faithful(sys.gateway, d.events)
    ensures Inv(Commit(sys, Deliver(sys.tables, s, ref, d, expected, wall)), s)
  {
    if Deliver(sys.tables, s, ref, d, expected, wall).Ok? {
      J.AcceptedStream(d.snapshot, d.events, expected, Some(d.cursor));
      IngestKeepsInv(sys, s, d.snapshot, d.events, Some(d.cursor));
    }
  }

  lemma TerminalsKeepInv(sys: System, s: Settings, events: seq<Event>)
    requires Inv(sys, s) && Faithful(sys.gateway, events)
    ensures Inv(Commit(sys, J.IngestTerminals(sys.tables, s.limits, events)), s)
  {
    var r := J.IngestTerminals(sys.tables, s.limits, events);
    if r.Ok? {
      J.WriteTerminalsKeeps(sys.tables, s.limits, events);
      forall e | e in r.value.events
        ensures e.associationRef in r.value.associations && e.epoch == r.value.associations[e.associationRef].epoch
      {
      }
    }
  }

  lemma GatewayMoves(sys: System, s: Settings, g: G.Gateway)
    requires Inv(sys, s) && G.Inv(g, s.gateway) && G.Extends(sys.gateway, g)
    ensures Inv(sys.(gateway := g), s)
  {
    FaithfulLater(sys.gateway, g, sys.tables.events);
  }

  lemma SubscribeKeepsInv(sys: System, s: Settings, ref: string, cursor: Option<Cursor>, limit: nat, now: int, wall: int)
    requires Inv(sys, s)
    ensures Inv(Commit(sys, DoSubscribe(sys, s, ref, cursor, limit, now, wall)), s)
  {
    var d := G.Subscribe(sys.gateway, s.gateway, s.observer, ref, cursor, limit, now);
    if d.Ok? {
      SubscribedFaithful(sys.gateway, s, ref, cursor, limit, now);
      DeliverKeepsInv(sys, s, ref, d.value, if cursor.Some? then cursor.value.lastSequence else 0, wall);
    }
  }

  lemma ReplayKeepsInv(sys: System, s: Settings, w: Window, cursor: Option<Cursor>, now: int, wall: int)
    requires Inv(sys, s)
    ensures Inv(Commit(sys, DoReplay(sys, s, w, cursor, now, wall)), s)
  {
    var d := G.Replay(sys.gateway, s.gateway, s.observer, w, cursor, now);
    if d.Ok? {
      ReplayedFaithful(sys.gateway, s, w, cursor, now);
      DeliverKeepsInv(sys, s, w.associationRef, d.value, if cursor.Some? then cursor.value.lastSequence else w.after, wall);
    }
  }

  lemma AttachKeepsInv(sys: System, s: Settings, ticket: G.TicketRef, candidate: G.Binding, operation: string, now: int)
    requires Inv(sys, s)
    ensures Inv(DoAttach(sys, s, ticket, candidate, operation, now), s)
  {
    var (g, r) := G.Consume(sys.gateway, s.gateway, s.observer, ticket, candidate, operation, UserOwnedSession, now);
    G.ConsumeKeeps(sys.gateway, s.gateway, s.observer, ticket, candidate, operation, UserOwnedSession, now);
    GatewayMoves(sys, s, g);
    if r.Ok? && G.TakeSnapshot(g, s.observer, r.value.associationRef).Ok? {
      IngestKeepsInv(sys.(gateway := g), s, G.TakeSnapshot(g, s.observer, r.value.associationRef).value, [], None);
    }
  }

  lemma SnapshotKeepsInv(sys: System, s: Settings, ref: string, now: int)
    requires Inv(sys, s)
    ensures Inv(Commit(sys, DoSnapshot(sys, s, ref, now)), s)
  {
    var r := G.TakeSnapshot(sys.gateway, s.observer, ref);
    if r.Ok? { IngestKeepsInv(sys, s, r.value, [], None); }
  }

  lemma JournalBeatKeepsInv(sys: System, s: Settings, ref: string, snapshot: Snapshot, event: Event)
    requires Inv(sys, s) && G.AsEmitted(sys.gateway, event)
    ensures Inv(Commit(sys, JournalBeat(sys.tables, s, ref, snapshot, event)), s)
  {
    var expected := if snapshot.sequence == 0 then 0 else snapshot.sequence - 1;
    if J.ValidateStream(snapshot, [event], expected, None).Ok? {
      J.AcceptedStream(snapshot, [event], expected, None);
      assert event in [event];
      IngestKeepsInv(sys, s, snapshot, [event], None);
    }
  }

  lemma HeartbeatKeepsInv(sys: System, s: Settings, ref: string, now: int)
    requires Inv(sys, s)
    ensures Inv(DoHeartbeat(sys, s, ref, now), s)
  {
    var (g, r) := G.Beat(sys.gateway, s.gateway, s.observer, ref, now);
    G.BeatKeeps(sys.gateway, s.gateway, s.observer, ref, now);
    GatewayMoves(sys, s, g);
    if r.Ok? { JournalBeatKeepsInv(sys.(gateway := g), s, ref, r.value.0, r.value.1); }
  }

  lemma TerminalsFaithful(g: G.Gateway, s: Settings, ref: string, r: Result<Option<Event>, Error>)
    requires G.Inv(g, s.gateway) && Terminals(g, s, ref, r).Ok?
    requires r.Ok? && r.value.Some? ==> G.AsEmitted(g, r.value.value)
    ensures Faithful(g, Terminals(g, s, ref, r).value)
  {
    if r == Ok(None) && ref in g.associations {
      WindowFaithful(g, s.gateway, ref);
      DetachmentsSubset(g.associations[ref].events);
    }
  }

  lemma DetachKeepsInv(sys: System, s: Settings, ref: string, now: int)
    requires Inv(sys, s)
    ensures Inv(DoDetach(sys, s, ref, now), s)
  {
    var (g, r) := G.Revoke(sys.gateway, s.gateway, s.observer, ref, now);
    G.RevokeKeeps(sys.gateway, s.gateway, s.observer, ref, now);
    GatewayMoves(sys, s, g);
    if Terminals(g, s, ref, r).Ok? {
      TerminalsFaithful(g, s, ref, r);
      TerminalsKeepInv(sys.(gateway := g), s, Terminals(g, s, ref, r).value);
    }
  }

  lemma AckKeepsInv(sys: System, s: Settings, id: EventId)
    requires Inv(sys, s)
    ensures Inv(Commit(sys, J.AckEvent(sys.tables, id)), s)
  {
    J.StepKeeps(sys.tables, s.limits, J.OpAck(id));
  }

  lemma StepKeepsInv(sys: System, s: Settings, op: Op)
    requires Inv(sys, s)
    ensures Inv(Step(sys, s, op), s)
  {
    match op
    case OpAttach(t, c, key, now) => AttachKeepsInv(sys, s, t, c, key, now);
    case OpSnapshot(ref, now) => SnapshotKeepsInv(sys, s, ref, now);
    case OpSubscribe(ref, cursor, limit, now, wall) => SubscribeKeepsInv(sys, s, ref, cursor, limit, now, wall);
    case OpReplay(w, cursor, now, wall) => ReplayKeepsInv(sys, s, w, cursor, now, wall);
    case OpHeartbeat(ref, now) => HeartbeatKeepsInv(sys, s, ref, now);
    case OpReconcile(ref, now, wall) =>
      SnapshotKeepsInv(sys, s, ref, now);
      var refreshed := Commit(sys, DoSnapshot(sys, s, ref, now));
      SubscribeKeepsInv(refreshed, s, ref, J.CursorFor(refreshed.tables.cursors, ref, s.observer.observerRef), MAX_REPLAY_BATCH, now, wall);
    case OpDetach(ref, now) => DetachKeepsInv(sys, s, ref, now);
    case OpAck(id) => AckKeepsInv(sys, s, id);
    case Upstream(o) =>
      G.StepKeeps(sys.gateway, s.gateway, o);
      GatewayMoves(sys, s, G.Step(sys.gateway, s.gateway, o));
  }

  lemma {:induction false} Reachable(s: Settings, ops: seq<Op>)
    requires s.gateway.retention >= 1
    ensures Inv(Run(s, ops), s)
  {
    if ops != [] {
      Reachable(s, ops[..|ops| - 1]);
      StepKeepsInv(Run(s, ops[..|ops| - 1]), s, ops[|ops| - 1]);
    }
  }

  /**
    Over every run - resets, expiry, foreign heartbeats, stale or skipping cursors included - a journal row is
    exactly the event the gateway emitted in that epoch at that sequence number.
  */
  lemma JournalIsFaithful(s: Settings, ops: seq<Op>, row: Event)
    requires s.gateway.retention >= 1 && row in Run(s, ops).tables.events
    ensures row.epoch in Run(s, ops).gateway.emitted
    ensures 1 <= row.sequence <= |Run(s, ops).gateway.emitted[row.epoch]|
    ensures Run(s, ops).gateway.emitted[row.epoch][row.sequence - 1] == row
  {
    Reachable(s, ops);
    assert G.AsEmitted(Run(s, ops).gateway, row);
  }

  // ----- completeness up to the stored cursor

  ghost predicate Recorded(rows: seq<Event>, a: string, epoch: Epoch, q: nat) {
    exists e :: e in rows && e.associationRef == a && e.epoch == epoch && e.sequence == q
  }

  ghost predicate RecordedUpTo(rows: seq<Event>, a: string, epoch: Epoch, n: nat) {
    forall q: nat | 1 <= q <= n :: Recorded(rows, a, epoch, q)
  }

  ghost predicate CompleteFor(t: J.Tables, a: string, subscriber: string) {
    var c := J.CursorFor(t.cursors, a, subscriber);
    c.Some? ==> RecordedUpTo(t.events, a, c.value.epoch, c.value.lastSequence)
  }

  /** Every stored cursor only claims what the journal holds. */
  ghost predicate Complete(t: J.Tables) { forall a, subscriber :: CompleteFor(t, a, subscriber) }

  lemma RecordedGrows(rows: seq<Event>, more: seq<Event>, a: string, epoch: Epoch, n: nat)
    requires rows <= more && RecordedUpTo(rows, a, epoch, n)
    ensures RecordedUpTo(more, a, epoch, n)
  {
    forall q: nat | 1 <= q <= n
      ensures Recorded(more, a, epoch, q)
    {
      assert Recorded(rows, a, epoch, q);
      var e :| e in rows && e.associationRef == a && e.epoch == epoch && e.sequence == q;
      assert e in more;
    }
  }

  lemma CompleteGrows(t: J.Tables, u: J.Tables)
    requires Complete(t) && t.events <= u.events && u.cursors == t.cursors
    ensures Complete(u)
  {
    forall a, subscriber
      ensures CompleteFor(u, a, subscriber)
    {
      assert CompleteFor(t, a, subscriber);
      var c := J.CursorFor(t.cursors, a, subscriber);
      if c.Some? { RecordedGrows(t.events, u.events, a, c.value.epoch, c.value.lastSequence); }
    }
  }

  /** A delivery from `expected` records exactly the stretch it carries. */
  lemma DeliveryRecords(t: J.Tables, s: Settings, ref: string, d: Delivery, expected: nat, wall: int)
    requires J.Inv(t, s.limits) && Deliver(t, s, ref, d, expected, wall).Ok? && d.events != []
    ensures var u := Deliver(t, s, ref, d, expected, wall).value;
            && t.events <= u.events && ref in u.associations
            && d.snapshot.associationRef == ref == d.cursor.associationRef && d.cursor.epoch == d.snapshot.epoch
            && d.cursor.subscriberRef == s.observer.observerRef && d.cursor.lastSequence == expected + |d.events|
            && u.cursors == J.KeepCursor(t, Some(d.cursor)).cursors
            && ref in t.associations && t.associations[ref].epoch == d.snapshot.epoch
            && (RecordedUpTo(u.events, ref, d.snapshot.epoch, d.cursor.lastSequence)
                <==> RecordedUpTo(t.events, ref, d.snapshot.epoch, expected))
  {
    J.AcceptedStream(d.snapshot, d.events, expected, Some(d.cursor));
    J.IngestKeeps(t, s.limits, d.snapshot, d.events, Some(d.cursor));
    var u := Deliver(t, s, ref, d, expected, wall).value;
    var epoch := d.snapshot.epoch;
    if RecordedUpTo(t.events, ref, epoch, expected) {
      RecordedGrows(t.events, u.events, ref, epoch, expected);
      forall q: nat | 1 <= q <= d.cursor.lastSequence
        ensures Recorded(u.events, ref, epoch, q)
      {
        if q > expected {
          var e := d.events[q - expected - 1];
          assert e in u.events && e.sequence == q;
        }
      }
    }
    if RecordedUpTo(u.events, ref, epoch, d.cursor.lastSequence) {
      forall q: nat | 1 <= q <= expected
        ensures Recorded(t.events, ref, epoch, q)
      {
        assert Recorded(u.events, ref, epoch, q);
        var e :| e in u.events && e.associationRef == ref && e.epoch == epoch && e.sequence == q;
        assert e !in d.events;
      }
    }
  }

  /**
    When a delivery may move the cursor: starting at a position the caller chose keeps the journal complete
    exactly if the stored cursor is already past the delivery or everything before that position is journalled.
  */
  lemma DeliveryCompleteness(t: J.Tables, s: Settings, ref: string, d: Delivery, expected: nat, wall: int)
    requires J.Inv(t, s.limits) && Complete(t) && Deliver(t, s, ref, d, expected, wall).Ok? && d.events != []
    ensures var prior := J.CursorFor(t.cursors, ref, s.observer.observerRef);
            Complete(Deliver(t, s, ref, d, expected, wall).value) <==>
              (prior.Some? && prior.value.lastSequence >= expected + |d.events|)
              || RecordedUpTo(t.events, ref, d.snapshot.epoch, expected)
  {
    DeliveryRecords(t, s, ref, d, expected, wall);
    var u := Deliver(t, s, ref, d, expected, wall).value;
    var subscriber := s.observer.observerRef;
    var prior := J.CursorFor(t.cursors, ref, subscriber);
    forall a, x | (a, x) != (ref, subscriber)
      ensures CompleteFor(u, a, x)
    {
      assert CompleteFor(t, a, x);
      var c := J.CursorFor(t.cursors, a, x);
      if c.Some? { RecordedGrows(t.events, u.events, a, c.value.epoch, c.value.lastSequence); }
    }
    assert CompleteFor(t, ref, subscriber);
    if prior.Some? && prior.value.lastSequence >= expected + |d.events| {
      RecordedGrows(t.events, u.events, ref, prior.value.epoch, prior.value.lastSequence);
      assert CompleteFor(u, ref, subscriber);
    } else {
      assert J.CursorFor(u.cursors, ref, subscriber) == Some(d.cursor);
      assert Complete(u) ==> CompleteFor(u, ref, subscriber);
    }
  }

  /** Operations that do not let the caller choose where the stream resumes. */
  predicate Disciplined(op: Op) { !op.OpReplay? && (op.OpSubscribe? ==> op.cursor.None?) }

  lemma SubscribeComplete(sys: System, s: Settings, ref: string, cursor: Option<Cursor>, limit: nat, now: int, wall: int)
    requires Inv(sys, s) && Complete(sys.tables)
    requires cursor.Some? ==> cursor == J.CursorFor(sys.tables.cursors, ref, s.observer.observerRef)
    ensures Complete(Commit(sys, DoSubscribe(sys, s, ref, cursor, limit, now, wall)).tables)
  {
    if DoSubscribe(sys, s, ref, cursor, limit, now, wall).Ok? {
      var d := G.Subscribe(sys.gateway, s.gateway, s.observer, ref, cursor, limit, now).value;
      var expected := if cursor.Some? then cursor.value.lastSequence else 0;
      assert G.StreamInv(sys.gateway, s.gateway, ref);
      DeliveryRecords(sys.tables, s, ref, d, expected, wall);
      if cursor.Some? {
        assert CompleteFor(sys.tables, ref, s.observer.observerRef);
        assert sys.tables.associations[ref].epoch != NoEpoch;
        assert cursor.value.epoch == d.snapshot.epoch;
      }
      DeliveryCompleteness(sys.tables, s, ref, d, expected, wall);
    }
  }

  lemma IngestQuietComplete(t: J.Tables, s: Settings, snapshot: Snapshot, events: seq<Event>)
    requires J.Inv(t, s.limits) && Complete(t) && J.Ingest(t, s.limits, snapshot, events, None).Ok?
    ensures Complete(J.Ingest(t, s.limits, snapshot, events, None).value)
  {
    J.IngestKeeps(t, s.limits, snapshot, events, None);
    CompleteGrows(t, J.Ingest(t, s.limits, snapshot, events, None).value);
  }

  lemma SnapshotComplete(sys: System, s: Settings, ref: string, now: int)
    requires Inv(sys, s) && Complete(sys.tables)
    ensures Complete(Commit(sys, DoSnapshot(sys, s, ref, now)).tables)
  {
    if DoSnapshot(sys, s, ref, now).Ok? {
      IngestQuietComplete(sys.tables, s, G.TakeSnapshot(sys.gateway, s.observer, ref).value, []);
    }
  }

  lemma AttachComplete(sys: System, s: Settings, ticket: G.TicketRef, candidate: G.Binding, operation: string, now: int)
    requires Inv(sys, s) && Complete(sys.tables)
    ensures Complete(DoAttach(sys, s, ticket, candidate, operation, now).tables)
  {
    var (g, r) := G.Consume(sys.gateway, s.gateway, s.observer, ticket, candidate, operation, UserOwnedSession, now);
    if r.Ok? && G.TakeSnapshot(g, s.observer, r.value.associationRef).Ok? {
      var snapshot := G.TakeSnapshot(g, s.observer, r.value.associationRef).value;
      if J.Ingest(sys.tables, s.limits, snapshot, [], None).Ok? { IngestQuietComplete(sys.tables, s, snapshot, []); }
    }
  }

  lemma HeartbeatComplete(sys: System, s: Settings, ref: string, now: int)
    requires Inv(sys, s) && Complete(sys.tables)
    ensures Complete(DoHeartbeat(sys, s, ref, now).tables)
  {
    var (g, r) := G.Beat(sys.gateway, s.gateway, s.observer, ref, now);
    if r.Ok? && JournalBeat(sys.tables, s, ref, r.value.0, r.value.1).Ok? {
      IngestQuietComplete(sys.tables, s, r.value.0, [r.value.1]);
    }
  }

  lemma DetachComplete(sys: System, s: Settings, ref: string, now: int)
    requires Inv(sys, s) && Complete(sys.tables)
    ensures Complete(DoDetach(sys, s, ref, now).tables)
  {
    var (g, r) := G.Revoke(sys.gateway, s.gateway, s.observer, ref, now);
    var events := Terminals(g, s, ref, r);
    if events.Ok? && J.IngestTerminals(sys.tables, s.limits, events.value).Ok? {
      J.WriteTerminalsKeeps(sys.tables, s.limits, events.value);
      CompleteGrows(sys.tables, J.IngestTerminals(sys.tables, s.limits, events.value).value);
    }
  }

  lemma DisciplinedStep(sys: System, s: Settings, op: Op)
    requires Inv(sys, s) && Complete(sys.tables) && Disciplined(op)
    ensures Complete(Step(sys, s, op).tables)
  {
    match op
    case OpAttach(t, c, key, now) => AttachComplete(sys, s, t, c, key, now);
    case OpSnapshot(ref, now) => SnapshotComplete(sys, s, ref, now);
    case OpSubscribe(ref, cursor, limit, now, wall) => SubscribeComplete(sys, s, ref, cursor, limit, now, wall);
    case OpHeartbeat(ref, now) => HeartbeatComplete(sys, s, ref, now);
    case OpReconcile(ref, now, wall) =>
      SnapshotComplete(sys, s, ref, now);
      SnapshotKeepsInv(sys, s, ref, now);
      var refreshed := Commit(sys, DoSnapshot(sys, s, ref, now));
      SubscribeComplete(refreshed, s, ref, J.CursorFor(refreshed.tables.cursors, ref, s.observer.observerRef),
                        MAX_REPLAY_BATCH, now, wall);
    case OpDetach(ref, now) => DetachComplete(sys, s, ref, now);
    case OpAck(id) =>
      if J.AckEvent(sys.tables, id).Ok? { CompleteGrows(sys.tables, J.AckEvent(sys.tables, id).value); }
    case Upstream(o) =>
  }

  /**
    Over every run that attaches, snapshots, beats, subscribes from the start, reconciles, detaches and acknowledges -
    with anything at all happening upstream - the journal holds every sequence number up to each stored cursor,
    although heartbeats are journalled ahead of the events before them and are delivered again later.
  */
  lemma {:induction false} JournalIsComplete(s: Settings, ops: seq<Op>)
    requires s.gateway.retention >= 1 && forall op | op in ops :: Disciplined(op)
    ensures Complete(Run(s, ops).tables)
  {
    if ops != [] {
      var past := ops[..|ops| - 1];
      JournalIsComplete(s, past);
      Reachable(s, past);
      DisciplinedStep(Run(s, past), s, ops[|ops| - 1]);
    }
  }

  // ----- progress: the journal never refuses what the gateway really emitted

  lemma EmittedIdsDistinct(g: G.Gateway, cfg: G.Config, x: Event, y: Event)
    requires G.Inv(g, cfg) && G.AsEmitted(g, x) && G.AsEmitted(g, y)
    requires x.eventId == y.eventId || (x.epoch == y.epoch && x.sequence == y.sequence)
    ensures x == y
  {
    assert G.Proper(g.emitted[x.epoch], x.epoch) && G.Proper(g.emitted[y.epoch], y.epoch);
  }

  ghost predicate Belongs(t: J.Tables, e: Event) {
    e.associationRef in t.associations && e.epoch == t.associations[e.associationRef].epoch
  }

  ghost predicate Room(t: J.Tables, lim: J.Limits, n: nat) {
    |t.events| + n <= lim.maxEvents && J.Unacked(t.outbox) + n <= lim.maxPending
  }

  lemma EmittedIsAccepted(g: G.Gateway, cfg: G.Config, t: J.Tables, lim: J.Limits, e: Event)
    requires G.Inv(g, cfg) && J.Inv(t, lim) && Faithful(g, t.events) && OneEpoch(t)
    requires G.AsEmitted(g, e) && Belongs(t, e) && Room(t, lim, 1)
    ensures J.IngestEvent(t, lim, e).Ok?
    ensures J.IngestEvent(t, lim, e).value.events == t.events ||
            J.IngestEvent(t, lim, e).value.events == t.events + [e]
    ensures J.Unacked(J.IngestEvent(t, lim, e).value.outbox) <= J.Unacked(t.outbox) + 1
  {
    var known := J.BySequence(t.events, e.associationRef, e.sequence);
    if known.Some? {
      assert G.AsEmitted(g, known.value);
      EmittedIdsDistinct(g, cfg, known.value, e);
    } else {
      var twin := J.ById(t.events, e.eventId);
      if twin.Some? {
        assert G.AsEmitted(g, twin.value);
        EmittedIdsDistinct(g, cfg, twin.value, e);
      }
      assert twin.None?;
      forall row | row in t.outbox ensures row.event.eventId != e.eventId {
        var i :| 0 <= i < |t.outbox| && t.outbox[i] == row;
        assert t.outbox[i].event == t.events[i];
      }
      J.UnackedAppend(t.outbox, J.OutRow(e, false));
    }
  }

  lemma {:induction false} EmittedAreAccepted(g: G.Gateway, cfg: G.Config, t: J.Tables, lim: J.Limits, events: seq<Event>)
    requires G.Inv(g, cfg) && J.Inv(t, lim) && Faithful(g, t.events) && OneEpoch(t)
    requires Faithful(g, events) && (forall e | e in events :: Belongs(t, e)) && Room(t, lim, |events|)
    ensures J.IngestAll(t, lim, events).Ok?
    ensures var u := J.IngestAll(t, lim, events).value;
            |u.events| <= |t.events| + |events| && J.Unacked(u.outbox) <= J.Unacked(t.outbox) + |events|
  {
    if events != [] {
      var front, e := events[..|events| - 1], events[|events| - 1];
      assert e in events && forall x | x in front :: x in events;
      EmittedAreAccepted(g, cfg, t, lim, front);
      J.IngestAllKeeps(t, lim, front);
      var u := J.IngestAll(t, lim, front).value;
      assert Faithful(g, u.events) && OneEpoch(u) && Belongs(u, e) && Room(u, lim, 1);
      EmittedIsAccepted(g, cfg, u, lim, e);
    }
  }

  /** The journal's record of `ref` is about the stream the gateway is serving now. */
  ghost predicate SameStream(t: J.Tables, a: G.Association) {
    && a.ref.associationRef in t.associations
    && var r := t.associations[a.ref.associationRef];
       r.epoch == a.epoch && r.sessionRef == a.ref.sessionRef && r.ownership == a.ref.ownership
  }

  /** A page of the stream passes the checks the bridge makes before it touches the journal. */
  lemma PageIsValid(g: G.Gateway, t: J.Tables, s: Settings, a: G.Association, log: seq<Event>, p: nat, now: int)
    requires J.Inv(t, s.limits) && SameStream(t, a) && G.Streams(a, log, s.gateway.retention) && G.Proper(log, a.epoch) && p < |log|
    requires a.ref.ownership == UserOwnedSession && a.epoch != NoEpoch
    requires forall e | e in log :: e.associationRef == a.ref.associationRef && e.sessionRef == a.ref.sessionRef
    ensures var d := G.NextPage(s.gateway, a, log, p, MAX_REPLAY_BATCH, now);
            && d.events != []
            && J.ValidateStream(d.snapshot, d.events, p, Some(d.cursor)).Ok?
            && CheckBinding(t, a.ref.associationRef, d.snapshot, d.events).Ok?
  {
    var d := G.NextPage(s.gateway, a, log, p, MAX_REPLAY_BATCH, now);
    forall e | e in d.events ensures e in log {}
    assert d.events[|d.events| - 1] == log[p + |d.events| - 1];
    J.CheckEventsSpec(d.snapshot, d.events, p);
  }

  lemma DeliverySucceeds(sys: System, s: Settings, a: G.Association, log: seq<Event>, p: nat, now: int, wall: int)
    requires Inv(sys, s) && SameStream(sys.tables, a) && a.epoch in sys.gateway.emitted && sys.gateway.emitted[a.epoch] == log
    requires G.Streams(a, log, s.gateway.retention) && p < |log| && a.ref.ownership == UserOwnedSession && a.epoch != NoEpoch
    requires forall e | e in log :: e.associationRef == a.ref.associationRef && e.sessionRef == a.ref.sessionRef
    requires a.binding.observerRef == s.observer.observerRef && wall < now + s.gateway.activationTtl
    requires Room(sys.tables, s.limits, MAX_REPLAY_BATCH)
    ensures var d := G.NextPage(s.gateway, a, log, p, MAX_REPLAY_BATCH, now);
            d.events != [] && Deliver(sys.tables, s, a.ref.associationRef, d, p, wall).Ok?
  {
    var d := G.NextPage(s.gateway, a, log, p, MAX_REPLAY_BATCH, now);
    assert G.Proper(log, a.epoch);
    PageIsValid(sys.gateway, sys.tables, s, a, log, p, now);
    LogFaithful(sys.gateway, a.epoch);
    forall e | e in d.events ensures e in log {}
    J.AssociateKeeps(sys.tables, s.limits, d.snapshot);
    var t1 := J.Associate(sys.tables, d.snapshot).value;
    forall e | e in t1.events
      ensures e.associationRef in t1.associations && e.epoch == t1.associations[e.associationRef].epoch
    {
      assert e in sys.tables.events;
    }
    EmittedAreAccepted(sys.gateway, s.gateway, t1, s.limits, d.events);
  }

  /** What a reconcile needs: an open association the journal knows, a usable cursor inside the window, and room. */
  ghost predicate CanReconcile(sys: System, s: Settings, ref: string, now: int, wall: int) {
    var access := G.Access(sys.gateway.associations, s.observer, ref);
    var stored := J.CursorFor(sys.tables.cursors, ref, s.observer.observerRef);
    && access.Ok? && SameStream(sys.tables, access.value) && access.value.ref.associationRef == ref
    && stored.Some? && stored.value.epoch == access.value.epoch
    && stored.value.issuedAt <= now < stored.value.expiresAt && wall < stored.value.expiresAt
    && wall < now + s.gateway.activationTtl
    && G.Floor(access.value) <= stored.value.lastSequence < access.value.sequence
    && Room(sys.tables, s.limits, MAX_REPLAY_BATCH)
  }

  lemma RefreshSucceeds(sys: System, s: Settings, ref: string, now: int, wall: int)
    requires Inv(sys, s) && CanReconcile(sys, s, ref, now, wall)
    ensures DoSnapshot(sys, s, ref, now).Ok?
    ensures var t := DoSnapshot(sys, s, ref, now).value;
            && t.events == sys.tables.events && t.outbox == sys.tables.outbox && t.cursors == sys.tables.cursors
            && SameStream(t, sys.gateway.associations[ref])
            && Inv(sys.(tables := t), s)
  {
    var a := sys.gateway.associations[ref];
    assert G.StreamInv(sys.gateway, s.gateway, ref);
    SnapshotIsTaken(sys, s, ref, now, G.SnapshotOf(a));
    SnapshotKeepsInv(sys, s, ref, now);
  }

  /** A snapshot of a known stream passes every check, and journalling it touches the association only. */
  lemma SnapshotIsTaken(sys: System, s: Settings, ref: string, now: int, snapshot: Snapshot)
    requires G.TakeSnapshot(sys.gateway, s.observer, ref) == Ok(snapshot) && ref in sys.tables.associations
    requires snapshot.associationRef == ref && snapshot.ownership == UserOwnedSession && snapshot.epoch != NoEpoch
    requires var r := sys.tables.associations[ref];
             r.associationRef == ref && r.sessionRef == snapshot.sessionRef && r.ownership == snapshot.ownership && r.epoch == snapshot.epoch
    ensures DoSnapshot(sys, s, ref, now).Ok?
    ensures var t := DoSnapshot(sys, s, ref, now).value;
            && t.events == sys.tables.events && t.outbox == sys.tables.outbox && t.cursors == sys.tables.cursors
            && ref in t.associations
            && t.associations[ref].epoch == snapshot.epoch && t.associations[ref].sessionRef == snapshot.sessionRef
            && t.associations[ref].ownership == snapshot.ownership
  {
  }

  /**
    Reconciling never stalls: whenever the stored cursor lags inside the retained window and the journal has room,
    it commits and the stored cursor moves to the next page boundary - no delivered event is mistaken for a conflict.
  */
  lemma ReconcileCatchesUp(sys: System, s: Settings, ref: string, now: int, wall: int)
    requires Inv(sys, s) && CanReconcile(sys, s, ref, now, wall)
    ensures var before := J.CursorFor(sys.tables.cursors, ref, s.observer.observerRef).value.lastSequence;
            var after := J.CursorFor(DoReconcile(sys, s, ref, now, wall).tables.cursors, ref, s.observer.observerRef);
            after.Some? &&
            after.value.lastSequence ==
              (if before + MAX_REPLAY_BATCH <= sys.gateway.associations[ref].sequence then before + MAX_REPLAY_BATCH
               else sys.gateway.associations[ref].sequence)
  {
    RefreshSucceeds(sys, s, ref, now, wall);
    var t := DoSnapshot(sys, s, ref, now).value;
    var refreshed := sys.(tables := t);
    G.StreamsOf(sys.gateway, s.gateway, ref);
    var a := sys.gateway.associations[ref];
    var log := sys.gateway.emitted[a.epoch];
    var c := J.CursorFor(t.cursors, ref, s.observer.observerRef).value;
    var p := c.lastSequence;
    var d := G.NextPage(s.gateway, a, log, p, MAX_REPLAY_BATCH, now);
    G.SubscribeServes(sys.gateway, s.gateway, s.observer, ref, a, log, c, MAX_REPLAY_BATCH, now);
    assert G.Proper(log, a.epoch);
    DeliverySucceeds(refreshed, s, a, log, p, now, wall);
    assert DoSubscribe(refreshed, s, ref, Some(c), MAX_REPLAY_BATCH, now, wall) == Deliver(t, s, ref, d, p, wall);
    DeliveryRecords(t, s, ref, d, p, wall);
  }

  // ----- why the discipline matters: a caller-chosen window can jump over the registration

  const OBSERVER := Observer("o", None, None)
  const BINDING := G.Binding("o", None, None, None, "s", "a", G.PURPOSE)
  const SETTINGS := Settings(OBSERVER, G.Config(100, 100, 8), J.Limits(8, 8))
  const FIRST := Event(EventId("a", Epoch(2), 1, 0, Registered(0)), 0, "s", "a", UserOwnedSession, Epoch(2), 1, Registered(0))
  const SECOND := Event(EventId("a", Epoch(2), 2, 0, Body.Heartbeat(1, 0, 100)), 0, "s", "a", UserOwnedSession, Epoch(2), 2,
                        Body.Heartbeat(1, 0, 100))

  function Attached(): seq<Op> {
    [Upstream(G.OpIssue(BINDING, 0)), OpAttach(G.TicketRef(1, 0), BINDING, "k", 0)]
  }

  lemma AttachedState()
    ensures var sys := Run(SETTINGS, Attached());
            && sys.tables == J.Tables(map["a" := Snapshot("s", "a", UserOwnedSession, Observing, Epoch(2), 1, 0)], [], [], [])
            && "a" in sys.gateway.associations
            && sys.gateway.associations["a"] ==
                 G.Association(AssociationRef("a", "s", None, None, None, UserOwnedSession), BINDING, Epoch(2), Observing, 1, 0,
                               None, 0, 0, [FIRST], false)
  {
    var issued := [Upstream(G.OpIssue(BINDING, 0))];
    assert issued[..0] == [] && Attached()[..1] == issued;
    assert |G.PURPOSE| == 14;
    assert Run(SETTINGS, []) == START;
    assert Run(SETTINGS, issued) == Step(START, SETTINGS, Upstream(G.OpIssue(BINDING, 0)));
    var g := Run(SETTINGS, issued).gateway;
    assert g == G.Issue(G.EMPTY, SETTINGS.gateway, BINDING, 0).0;
    assert g.tickets == map[G.TicketRef(1, 0) := G.Ticket(BINDING, 0, 100, None, None)];
    var (h, r) := G.Consume(g, SETTINGS.gateway, OBSERVER, G.TicketRef(1, 0), BINDING, "k", UserOwnedSession, 0);
    assert r == Ok(AssociationRef("a", "s", None, None, None, UserOwnedSession));
    assert h.associations["a"].events == [FIRST];
    assert G.TakeSnapshot(h, OBSERVER, "a") == Ok(Snapshot("s", "a", UserOwnedSession, Observing, Epoch(2), 1, 0));
  }

  lemma BeatenState()
    ensures var sys := Run(SETTINGS, Attached() + [Upstream(G.OpBeat(OBSERVER, "a", 0))]);
            && sys.tables == Run(SETTINGS, Attached()).tables
            && "a" in sys.gateway.associations
            && sys.gateway.associations["a"] ==
                 G.Association(AssociationRef("a", "s", None, None, None, UserOwnedSession), BINDING, Epoch(2), Observing, 2, 0,
                               Some(0), 0, 1, [FIRST, SECOND], false)
  {
    AttachedState();
    var ops := Attached() + [Upstream(G.OpBeat(OBSERVER, "a", 0))];
    assert ops[..2] == Attached();
    assert [FIRST] + [SECOND] == [FIRST, SECOND];
  }

  const SKIPPING := Window("a", Epoch(2), 1, 10)

  const SKIPPED := Delivery(Snapshot("s", "a", UserOwnedSession, Observing, Epoch(2), 2, 0), [SECOND],
                            Cursor("a", "o", Epoch(2), 2, 0, 100))

  lemma SkippingPage()
    ensures var g := Run(SETTINGS, Attached() + [Upstream(G.OpBeat(OBSERVER, "a", 0))]).gateway;
            G.Replay(g, SETTINGS.gateway, OBSERVER, SKIPPING, None, 0) == Ok(SKIPPED)
  {
    BeatenState();
    var both := [FIRST, SECOND];
    var a := Run(SETTINGS, Attached() + [Upstream(G.OpBeat(OBSERVER, "a", 0))]).gateway.associations["a"];
    G.ServeExact(SETTINGS.gateway, a, both, 1, 10, None, 0);
    assert both[1..2] == [SECOND];
  }

  lemma SkippingDelivery()
    ensures var t := Run(SETTINGS, Attached()).tables;
            Deliver(t, SETTINGS, "a", SKIPPED, 1, 0).Ok? && t.events == [] && t.cursors == []
  {
    AttachedState();
    var t := Run(SETTINGS, Attached()).tables;
    J.CheckEventsSpec(SKIPPED.snapshot, [SECOND], 1);
    var t1 := J.Associate(t, SKIPPED.snapshot).value;
    assert [SECOND][..0] == [];
    assert J.IngestAll(t1, SETTINGS.limits, [SECOND]) == J.IngestEvent(t1, SETTINGS.limits, SECOND);
  }

  /** The stored cursor says 2 while sequence 1 was never journalled. */
  lemma SkippingWindowExample()
    ensures var ops := Attached() + [Upstream(G.OpBeat(OBSERVER, "a", 0))] + [OpReplay(SKIPPING, None, 0, 0)];
            !Complete(Run(SETTINGS, ops).tables)
  {
    var past := Attached() + [Upstream(G.OpBeat(OBSERVER, "a", 0))];
    var ops := past + [OpReplay(SKIPPING, None, 0, 0)];
    assert ops[..|ops| - 1] == past;
    SkippingPage();
    SkippingDelivery();
    BeatenState();
    var sys := Run(SETTINGS, past);
    Reachable(SETTINGS, past);
    assert Run(SETTINGS, ops).tables == Deliver(sys.tables, SETTINGS, "a", SKIPPED, 1, 0).value;
    DeliveryCompleteness(sys.tables, SETTINGS, "a", SKIPPED, 1, 0);
    assert !Recorded(sys.tables.events, "a", Epoch(2), 1);
  }

  // ----- the bridge itself

  // ----- which calls report success

  predicate Reconciles(sys: System, s: Settings, ref: string, now: int, wall: int) {
    var refreshed := DoSnapshot(sys, s, ref, now);
    && refreshed.Ok?
    && var t := refreshed.value;
       DoSubscribe(sys.(tables := t), s, ref, J.CursorFor(t.cursors, ref, s.observer.observerRef), MAX_REPLAY_BATCH, now, wall).Ok?
  }

  predicate Beats(sys: System, s: Settings, ref: string, now: int) {
    var r := G.Beat(sys.gateway, s.gateway, s.observer, ref, now).1;
    r.Ok? && JournalBeat(sys.tables, s, ref, r.value.0, r.value.1).Ok?
  }

  predicate Detaches(sys: System, s: Settings, ref: string, now: int) {
    var (g, r) := G.Revoke(sys.gateway, s.gateway, s.observer, ref, now);
    Terminals(g, s, ref, r).Ok? && J.IngestTerminals(sys.tables, s.limits, Terminals(g, s, ref, r).value).Ok?
  }

  class FleetGatewayBridge {
    const settings: Settings
    const gateway: G.FakeGateway
    const store: J.Store
    ghost var run: seq<Op>

    ghost function View(): System
      reads gateway, store
    {
      System(gateway.View(), store.View())
    }

    ghost predicate Valid()
      reads this, gateway, store
    {
      && gateway.Valid() && store.Valid()
      && gateway.cfg == settings.gateway && store.limits == settings.limits
      && View() == Run(settings, run)
    }

    ghost predicate Performed(before: seq<Op>, op: Op)
      reads this, gateway, store
    {
      run == before + [op] && Valid()
    }

    constructor (settings: Settings, gateway: G.FakeGateway, store: J.Store)
      requires gateway.Valid() && gateway.run == [] && gateway.cfg == settings.gateway
      requires store.Valid() && store.run == [] && store.limits == settings.limits
      ensures Valid() && run == [] && this.settings == settings && this.gateway == gateway && this.store == store
    {
      this.settings, this.gateway, this.store := settings, gateway, store;
      run := [];
    }

    ghost method Record(op: Op)
      requires gateway.Valid() && store.Valid() && gateway.cfg == settings.gateway && store.limits == settings.limits
      requires View() == Step(Run(settings, run), settings, op)
      modifies this`run
      ensures Performed(old(run), op)
    {
      RunOne(settings, run, op);
      run := run + [op];
    }

    /** The check of a delivered batch: one pass over the events, remembering the previous sequence number. */
    static method ValidateStream(snapshot: Snapshot, events: seq<Event>, expected: nat, cursor: Option<Cursor>)
      returns (r: Result<(), Error>)
      ensures r == J.ValidateStream(snapshot, events, expected, cursor)
    {
      if |events| > MAX_REPLAY_BATCH { return Err(InvalidEvent); }
      if snapshot.ownership == FleetOwnedTask || snapshot.epoch == NoEpoch { return Err(ResyncRequired); }
      if snapshot.sequence < expected { return Err(ResyncRequired); }
      var previous := expected;
      var i := 0;
      while i < |events|
        invariant 0 <= i <= |events|
        invariant J.CheckEvents(snapshot, events, expected) == J.CheckEvents(snapshot, events[i..], previous)
      {
        var e := events[i];
        assert events[i..][0] == e && events[i..][1..] == events[i + 1..];
        if e.associationRef != snapshot.associationRef || e.epoch != snapshot.epoch || e.sequence == 0 { return Err(InvalidEvent); }
        if e.ownership == FleetOwnedTask { return Err(CapabilityDenied); }
        if e.sequence != previous + 1 { return Err(ReplayGap); }
        previous := e.sequence;
        i := i + 1;
      }
      if events != [] && snapshot.sequence < previous { return Err(ResyncRequired); }
      if cursor.Some? {
        var c := cursor.value;
        if c.associationRef != snapshot.associationRef || c.epoch != snapshot.epoch { return Err(ResyncRequired); }
        if events != [] && c.lastSequence != events[|events| - 1].sequence { return Err(CursorStale); }
        if events == [] && c.lastSequence > expected { return Err(CursorStale); }
      }
      r := Ok(());
    }

    method ValidateBinding(ref: string, snapshot: Snapshot, events: seq<Event>) returns (r: Result<(), Error>)
      ensures r == CheckBinding(store.View(), ref, snapshot, events)
    {
      if ref !in store.associations { return Err(InvalidProvenance); }
      var expected := store.associations[ref];
      if snapshot.associationRef != expected.associationRef || snapshot.sessionRef != expected.sessionRef
         || snapshot.ownership != expected.ownership { return Err(InvalidProvenance); }
      for i := 0 to |events|
        invariant forall k | 0 <= k < i :: events[k].associationRef == snapshot.associationRef
                    && events[k].sessionRef == snapshot.sessionRef && events[k].ownership == snapshot.ownership
      {
        if events[i].associationRef != snapshot.associationRef || events[i].sessionRef != snapshot.sessionRef
           || events[i].ownership != snapshot.ownership {
          assert events[i] in events;
          return Err(InvalidProvenance);
        }
      }
      r := Ok(());
    }

    method Accept(ref: string, d: Delivery, expected: nat, wall: int) returns (r: Result<(), Error>)
      requires store.Valid() && store.limits == settings.limits
      modifies store
      ensures store.Valid()
      ensures r.Ok? ==> Deliver(old(store.View()), settings, ref, d, expected, wall) == Ok(store.View())
      ensures r.Err? ==> store.View() == old(store.View())
                         && Deliver(old(store.View()), settings, ref, d, expected, wall) == Err(r.error)
    {
      r := ValidateStream(d.snapshot, d.events, expected, Some(d.cursor));
      if r.Ok? { r := ValidateBinding(ref, d.snapshot, d.events); }
      if r.Ok? {
        r := CheckCursor(Some(d.cursor), d.snapshot.associationRef, d.snapshot.epoch, settings.observer.observerRef, wall);
      }
      if r.Ok? { r := store.IngestBatch(d.snapshot, d.events, Some(d.cursor)); }
    }

    method Fetch(ref: string, cursor: Option<Cursor>, limit: nat, now: int, wall: int) returns (r: Result<(), Error>)
      requires gateway.Valid() && store.Valid() && gateway.cfg == settings.gateway && store.limits == settings.limits
      modifies store
      ensures store.Valid()
      ensures r.Ok? ==> DoSubscribe(old(View()), settings, ref, cursor, limit, now, wall) == Ok(store.View())
      ensures r.Err? ==> store.View() == old(store.View())
                         && DoSubscribe(old(View()), settings, ref, cursor, limit, now, wall) == Err(r.error)
    {
      var known := ref in store.associations;
      if cursor.Some? && (!known || store.associations[ref].epoch == NoEpoch) { return Err(InvalidProvenance); }
      r := CheckCursor(cursor, ref, if known then store.associations[ref].epoch else NoEpoch, settings.observer.observerRef, wall);
      if r.Err? { return; }
      if !G.GoodLimit(limit) { return Err(InvalidRequest); }
      var d := gateway.SubscribeFrom(settings.observer, ref, cursor, limit, now);
      if d.Err? { return Err(d.error); }
      r := Accept(ref, d.value, if cursor.Some? then cursor.value.lastSequence else 0, wall);
    }

    method Subscribe(ref: string, cursor: Option<Cursor>, limit: nat, now: int, wall: int) returns (r: Result<(), Error>)
      requires Valid()
      modifies this`run, store
      ensures Performed(old(run), OpSubscribe(ref, cursor, limit, now, wall))
      ensures r.Ok? == DoSubscribe(old(View()), settings, ref, cursor, limit, now, wall).Ok?
    {
      r := Fetch(ref, cursor, limit, now, wall);
      Record(OpSubscribe(ref, cursor, limit, now, wall));
    }

    method Replay(w: Window, cursor: Option<Cursor>, now: int, wall: int) returns (r: Result<(), Error>)
      requires Valid()
      modifies this`run, store
      ensures Performed(old(run), OpReplay(w, cursor, now, wall))
      ensures r.Ok? == DoReplay(old(View()), settings, w, cursor, now, wall).Ok?
    {
      r := Err(InvalidRequest);
      if G.GoodLimit(w.limit) {
        r := CheckCursor(cursor, w.associationRef, w.epoch, settings.observer.observerRef, wall);
        if r.Ok? {
          var d := gateway.ReplayWindow(settings.observer, w, cursor, now);
          if d.Err? {
            r := Err(d.error);
          } else {
            r := Accept(w.associationRef, d.value, if cursor.Some? then cursor.value.lastSequence else w.after, wall);
          }
        }
      }
      Record(OpReplay(w, cursor, now, wall));
    }

    method Attach(ticket: G.TicketRef, candidate: G.Binding, operation: string, now: int) returns (r: Result<AssociationRef, Error>)
      requires Valid()
      modifies this`run, gateway, store
      ensures Performed(old(run), OpAttach(ticket, candidate, operation, now))
      ensures r.Ok? ==>
                r == G.Consume(old(gateway.View()), settings.gateway, settings.observer, ticket, candidate, operation, UserOwnedSession, now).1
      ensures r.Err? ==> store.View() == old(store.View())
    {
      r := gateway.ConsumeActivation(settings.observer, ticket, candidate, operation, UserOwnedSession, now);
      if r.Ok? {
        var a := r.value;
        var snapshot := gateway.Snapshot(settings.observer, a.associationRef);
        if snapshot.Err? {
          r := Err(snapshot.error);
        } else if a.associationRef != candidate.associationRef || a.sessionRef != candidate.sessionRef
                  || snapshot.value.sessionRef != a.sessionRef || snapshot.value.ownership != a.ownership {
          r := Err(InvalidProvenance);
        } else {
          var stored := store.IngestBatch(snapshot.value, [], None);
          if stored.Err? { r := Err(stored.error); }
        }
      }
      Record(OpAttach(ticket, candidate, operation, now));
    }

    method Ack(id: EventId) returns (r: Result<(), Error>)
      requires Valid()
      modifies this`run, store
      ensures Performed(old(run), OpAck(id))
      ensures r.Ok? <==> J.AckEvent(old(store.View()), id).Ok?
    {
      r := store.Ack(id);
      Record(OpAck(id));
    }

    method Refresh(ref: string, now: int) returns (r: Result<(), Error>)
      requires gateway.Valid() && store.Valid() && gateway.cfg == settings.gateway && store.limits == settings.limits
      modifies store
      ensures store.Valid()
      ensures r.Ok? ==> DoSnapshot(old(View()), settings, ref, now) == Ok(store.View())
      ensures r.Err? ==> store.View() == old(store.View()) && DoSnapshot(old(View()), settings, ref, now) == Err(r.error)
    {
      var snapshot := gateway.Snapshot(settings.observer, ref);
      if snapshot.Err? { return Err(snapshot.error); }
      r := ValidateStream(snapshot.value, [], 0, None);
      if r.Ok? { r := ValidateBinding(ref, snapshot.value, []); }
      if r.Ok? { r := store.IngestBatch(snapshot.value, [], None); }
    }

    method Reconcile(ref: string, now: int, wall: int) returns (r: Result<(), Error>)
      requires Valid()
      modifies this`run, store
      ensures Performed(old(run), OpReconcile(ref, now, wall))
      ensures r.Ok? <==> Reconciles(old(View()), settings, ref, now, wall)
    {
      r := Refresh(ref, now);
      if r.Ok? {
        r := Fetch(ref, J.CursorFor(store.cursors, ref, settings.observer.observerRef), MAX_REPLAY_BATCH, now, wall);
      }
      Record(OpReconcile(ref, now, wall));
    }

    method Heartbeat(ref: string, now: int) returns (r: Result<(), Error>)
      requires Valid()
      modifies this`run, gateway, store
      ensures Performed(old(run), OpHeartbeat(ref, now))
      ensures r.Ok? <==> Beats(old(View()), settings, ref, now)
      ensures r.Err? ==> store.View() == old(store.View())
    {
      var beat := gateway.Heartbeat(settings.observer, ref, now);
      if beat.Err? {
        r := Err(beat.error);
      } else {
        var (snapshot, event) := beat.value;
        r := ValidateStream(snapshot, [event], if snapshot.sequence == 0 then 0 else snapshot.sequence - 1, None);
        if r.Ok? { r := ValidateBinding(ref, snapshot, [event]); }
        if r.Ok? { r := store.IngestBatch(snapshot, [event], None); }
      }
      Record(OpHeartbeat(ref, now));
    }

    method Detach(ref: string, now: int) returns (r: Result<(), Error>)
      requires Valid()
      modifies this`run, gateway, store
      ensures Performed(old(run), OpDetach(ref, now))
      ensures r.Ok? <==> Detaches(old(View()), settings, ref, now)
      ensures r.Err? ==> store.View() == old(store.View())
    {
      var revoked := gateway.RevokeAssociation(settings.observer, ref, now);
      r := Ok(());
      var detached: seq<Event> := [];
      if revoked.Err? {
        r := Err(revoked.error);
      } else if revoked.value.Some? {
        detached := [revoked.value.value];
      } else {
        var retained := gateway.Events(settings.observer, ref, MAX_REPLAY_BATCH);
        if retained.Err? { r := Err(retained.error); } else { detached := Detachments(retained.value); }
      }
      if r.Ok? { r := store.IngestEvents(detached); }
      Record(OpDetach(ref, now));
    }
  }
}
