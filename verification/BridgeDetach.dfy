/**
  When a detach can be journalled.

  The gateway ends the association first; the bridge then journals the terminal event, but only if it is the next one
  after everything the journal knows of the association.
*/
module BridgeDetach {
  import opened Wrappers
  import opened GatewayContracts
  import G = FakeGateway
  import J = Journal
  import opened FleetBridge

  // ----- one terminal event and the journal

  /** The last position the journal knows of an association: its snapshot, its rows and its cursors. */
  function Frontier(t: J.Tables, ref: string): nat
    requires ref in t.associations
  {
    J.Expected(t, t.associations[ref]) - 1
  }

  /** The journal's record of the association is about this stream. */
  predicate Matches(t: J.Tables, ref: string, session: string, epoch: Epoch) {
    && ref in t.associations
    && var r := t.associations[ref];
       r.sessionRef == session && r.epoch == epoch && r.ownership == UserOwnedSession
  }

  ghost predicate Unknown(t: J.Tables, e: Event) {
    forall r | r in t.events :: r.eventId != e.eventId && !(r.associationRef == e.associationRef && r.sequence == e.sequence)
  }

  /** An event with an unknown id is journalled only for its own stream. */
  lemma TerminalNeedsMatch(t: J.Tables, lim: J.Limits, e: Event)
    requires (forall r | r in t.events :: r.eventId != e.eventId) && J.IngestTerminals(t, lim, [e]).Ok?
    ensures Matches(t, e.associationRef, e.sessionRef, e.epoch) && e.epoch != NoEpoch
  {
    OneTerminal(t, lim, e);
  }

  lemma OneTerminal(t: J.Tables, lim: J.Limits, e: Event)
    ensures J.IngestTerminals(t, lim, [e]).Ok? <==> J.CheckTerminal(t, e).Ok? && J.WriteTerminal(t, lim, e).Ok?
    ensures J.CheckTerminal(t, e).Ok? ==> J.IngestTerminals(t, lim, [e]) == J.WriteTerminal(t, lim, e)
  {
    assert [e][..0] == [];
    assert J.CheckTerminals(t, []) == Ok(()) && J.WriteTerminals(t, lim, []) == Ok(t);
  }

  /** A new terminal event of a matching stream is journalled exactly when it is the next one and there is room. */
  lemma TerminalExactly(t: J.Tables, lim: J.Limits, e: Event)
    requires J.Inv(t, lim) && Unknown(t, e) && Matches(t, e.associationRef, e.sessionRef, e.epoch)
    requires e.body.SessionDetached? && e.ownership == UserOwnedSession && e.epoch != NoEpoch
    ensures J.IngestTerminals(t, lim, [e]).Ok? <==> e.sequence == Frontier(t, e.associationRef) + 1 && Room(t, lim, 1)
  {
    OneTerminal(t, lim, e);
    StreamOfOne(t.associations[e.associationRef].(status := Detached, sequence := e.sequence), e, Frontier(t, e.associationRef));
    NotQueued(t, lim, e);
  }

  lemma StreamOfOne(snapshot: Snapshot, e: Event, expected: nat)
    requires snapshot.associationRef == e.associationRef && snapshot.epoch == e.epoch != NoEpoch && snapshot.sequence == e.sequence
    requires snapshot.ownership == e.ownership == UserOwnedSession
    ensures J.ValidateStream(snapshot, [e], expected, None).Ok? <==> e.sequence == expected + 1
  {
    J.CheckEventsSpec(snapshot, [e], expected);
    assert Follows([e], expected) <==> e.sequence == expected + 1;
  }

  lemma NotQueued(t: J.Tables, lim: J.Limits, e: Event)
    requires J.Inv(t, lim) && Unknown(t, e)
    ensures J.Queued(t.outbox, e.eventId).None?
  {
    forall row | row in t.outbox
      ensures row.event.eventId != e.eventId
    {
      var i :| 0 <= i < |t.outbox| && t.outbox[i] == row;
      assert t.outbox[i].event == t.events[i];
    }
  }

  /** A terminal event that is journalled already is accepted again, room or not. */
  lemma KnownTerminal(t: J.Tables, lim: J.Limits, e: Event)
    requires J.Inv(t, lim) && OneEpoch(t) && e in t.events
    ensures J.IngestTerminals(t, lim, [e]).Ok?
  {
    OneTerminal(t, lim, e);
    var i :| 0 <= i < |t.events| && t.events[i] == e;
    var row := J.ById(t.events, e.eventId);
    var j :| 0 <= j < |t.events| && t.events[j] == row.value;
    assert i == j;
    assert J.BySequence(t.events, e.associationRef, e.sequence).Some?;
    var key := J.ByKey(t.events, e.associationRef, e.epoch, e.sequence);
    var k :| 0 <= k < |t.events| && t.events[k] == key.value;
    assert i == k;
  }

  // ----- the first attempt

  ghost predicate Active(sys: System, s: Settings, ref: string) {
    && ref in sys.gateway.associations && G.Owns(s.observer, sys.gateway.associations[ref].binding)
    && !sys.gateway.associations[ref].revoked
  }

  /** The event the gateway ends an active association with. */
  function Ending(g: G.Gateway, ref: string, now: int): Event
    requires ref in g.associations
  {
    var a := g.associations[ref];
    G.NewEvent(a, SessionDetached(a.metadataVersion), now)
  }

  lemma FreshEventIsUnknown(sys: System, s: Settings, ref: string, now: int)
    requires Inv(sys, s) && ref in sys.gateway.associations
    ensures var a, e := sys.gateway.associations[ref], Ending(sys.gateway, ref, now);
            && (forall r | r in sys.tables.events :: r.eventId != e.eventId)
            && (Matches(sys.tables, ref, a.ref.sessionRef, a.epoch) ==> Unknown(sys.tables, e))
            && e.associationRef == ref && e.sessionRef == a.ref.sessionRef && e.epoch == a.epoch != NoEpoch
            && e.sequence == a.sequence + 1 && e.ownership == UserOwnedSession && e.body.SessionDetached?
  {
    var a, e := sys.gateway.associations[ref], Ending(sys.gateway, ref, now);
    assert G.StreamInv(sys.gateway, s.gateway, ref);
    forall r | r in sys.tables.events
      ensures r.epoch == e.epoch ==> r.sequence < e.sequence
      ensures r.eventId.epoch == r.epoch && r.eventId.sequence == r.sequence
    {
      assert G.AsEmitted(sys.gateway, r);
      assert G.Proper(sys.gateway.emitted[r.epoch], r.epoch);
    }
  }

  lemma FirstTerminals(sys: System, s: Settings, ref: string, now: int)
    requires Active(sys, s, ref)
    ensures Detaches(sys, s, ref, now) <==> J.IngestTerminals(sys.tables, s.limits, [Ending(sys.gateway, ref, now)]).Ok?
  {
  }

  /**
    The first detach of an active association is journalled exactly when the journal knows the stream up to the
    gateway's own position and has room.
  */
  lemma FirstDetachExactly(sys: System, s: Settings, ref: string, now: int)
    requires Inv(sys, s) && Active(sys, s, ref)
    ensures var a := sys.gateway.associations[ref];
            Detaches(sys, s, ref, now) <==>
              Matches(sys.tables, ref, a.ref.sessionRef, a.epoch) && Frontier(sys.tables, ref) == a.sequence && Room(sys.tables, s.limits, 1)
  {
    var a, e := sys.gateway.associations[ref], Ending(sys.gateway, ref, now);
    FirstTerminals(sys, s, ref, now);
    FreshEventIsUnknown(sys, s, ref, now);
    if Matches(sys.tables, ref, a.ref.sessionRef, a.epoch) {
      TerminalExactly(sys.tables, s.limits, e);
    } else if J.IngestTerminals(sys.tables, s.limits, [e]).Ok? {
      TerminalNeedsMatch(sys.tables, s.limits, e);
    }
  }

  // ----- a stream has at most one detachment, its last event

  ghost predicate EndsOnce(g: G.Gateway, ref: string)
    requires ref in g.associations
  {
    var a := g.associations[ref];
    && a.epoch in g.emitted
    && forall i | 0 <= i < |g.emitted[a.epoch]| ::
         g.emitted[a.epoch][i].body.SessionDetached? ==> a.revoked && i == |g.emitted[a.epoch]| - 1
  }

  ghost predicate Tidy(g: G.Gateway) {
    forall ref | ref in g.associations :: EndsOnce(g, ref)
  }

  lemma EmitTidy(g: G.Gateway, cfg: G.Config, ref: string, a: G.Association, body: Body, now: int)
    requires G.Inv(g, cfg) && Tidy(g) && ref in g.associations && !g.associations[ref].revoked
    requires a.epoch == g.associations[ref].epoch && (body.SessionDetached? ==> a.revoked)
    ensures Tidy(G.Emit(g, cfg, ref, a, body, now).0)
  {
    var t := G.Emit(g, cfg, ref, a, body, now).0;
    assert EndsOnce(g, ref);
    forall r | r in t.associations
      ensures EndsOnce(t, r)
    {
      if r != ref { assert EndsOnce(g, r) && G.StreamInv(g, cfg, r); }
    }
  }

  lemma BeatTidy(g: G.Gateway, cfg: G.Config, o: Observer, ref: string, now: int)
    requires G.Inv(g, cfg) && Tidy(g)
    ensures Tidy(G.Beat(g, cfg, o, ref, now).0)
  {
    if G.Access(g.associations, o, ref).Ok? {
      var a := g.associations[ref];
      var beaten := a.(heartbeatAt := Some(now), heartbeatSequence := a.heartbeatSequence + 1);
      EmitTidy(g, cfg, ref, beaten, Heartbeat(beaten.heartbeatSequence, now, cfg.heartbeatTtl), now);
    }
  }

  lemma RevokeTidy(g: G.Gateway, cfg: G.Config, o: Observer, ref: string, now: int)
    requires G.Inv(g, cfg) && Tidy(g)
    ensures Tidy(G.Revoke(g, cfg, o, ref, now).0)
  {
    if ref in g.associations && !g.associations[ref].revoked {
      var a := g.associations[ref];
      EmitTidy(g, cfg, ref, a.(revoked := true, status := Detached), SessionDetached(a.metadataVersion), now);
    }
  }

  lemma ConsumeTidy(g: G.Gateway, cfg: G.Config, o: Observer, t: G.TicketRef, c: G.Binding, key: string, mode: Ownership, now: int)
    requires G.Inv(g, cfg) && Tidy(g)
    ensures Tidy(G.Consume(g, cfg, o, t, c, key, mode, now).0)
  {
    var after := G.Consume(g, cfg, o, t, c, key, mode, now).0;
    G.ConsumeShape(g, cfg, o, t, c, key, mode, now);
    forall r | r in after.associations
      ensures EndsOnce(after, r)
    {
      if r in g.associations { assert EndsOnce(g, r) && G.StreamInv(g, cfg, r); }
    }
  }

  lemma GatewayTidy(g: G.Gateway, cfg: G.Config, op: G.Op)
    requires G.Inv(g, cfg) && Tidy(g)
    ensures Tidy(G.Step(g, cfg, op))
  {
    match op
    case OpIssue(b, now) =>
      var t := G.Issue(g, cfg, b, now).0;
      forall r | r in t.associations ensures EndsOnce(t, r) { assert EndsOnce(g, r); }
    case OpConsume(o, t, c, key, mode, now) => ConsumeTidy(g, cfg, o, t, c, key, mode, now);
    case OpBeat(o, r, now) => BeatTidy(g, cfg, o, r, now);
    case OpRevoke(o, r, now) => RevokeTidy(g, cfg, o, r, now);
    case OpExpire(r, now) =>
      if r in g.associations && G.IsStale(cfg, g.associations[r], now) {
        EmitTidy(g, cfg, r, G.Ending(g.associations[r]), SessionEnded(g.associations[r].metadataVersion), now);
      }
    case OpReset =>
  }

  /** What an operation of the bridge does to the gateway, if anything. */
  function AtGateway(s: Settings, op: Op): Option<G.Op> {
    match op
    case OpAttach(t, c, key, now) => Some(G.OpConsume(s.observer, t, c, key, UserOwnedSession, now))
    case OpHeartbeat(r, now) => Some(G.OpBeat(s.observer, r, now))
    case OpDetach(r, now) => Some(G.OpRevoke(s.observer, r, now))
    case Upstream(o) => Some(o)
    case _ => None
  }

  lemma GatewayOf(sys: System, s: Settings, op: Op)
    ensures Step(sys, s, op).gateway ==
              if AtGateway(s, op).Some? then G.Step(sys.gateway, s.gateway, AtGateway(s, op).value) else sys.gateway
  {
  }

  lemma StepTidy(sys: System, s: Settings, op: Op)
    requires Inv(sys, s) && Tidy(sys.gateway)
    ensures Tidy(Step(sys, s, op).gateway)
  {
    GatewayOf(sys, s, op);
    if AtGateway(s, op).Some? { GatewayTidy(sys.gateway, s.gateway, AtGateway(s, op).value); }
  }

  lemma {:induction false} ReachableIsTidy(s: Settings, ops: seq<Op>)
    requires s.gateway.retention >= 1
    ensures Inv(Run(s, ops), s) && Tidy(Run(s, ops).gateway)
  {
    Reachable(s, ops);
    if ops != [] {
      ReachableIsTidy(s, ops[..|ops| - 1]);
      StepTidy(Run(s, ops[..|ops| - 1]), s, ops[|ops| - 1]);
    }
  }

  // ----- every later attempt

  ghost predicate Revoked(sys: System, s: Settings, ref: string) {
    && ref in sys.gateway.associations && G.Owns(s.observer, sys.gateway.associations[ref].binding)
    && sys.gateway.associations[ref].revoked && ref != ""
  }

  lemma {:induction false} NoDetachments(events: seq<Event>)
    requires forall e | e in events :: !e.body.SessionDetached?
    ensures Detachments(events) == []
  {
    if events != [] { NoDetachments(events[1..]); }
  }

  lemma {:induction false} OnlyLastDetaches(events: seq<Event>)
    requires events != [] && forall i | 0 <= i < |events| - 1 :: !events[i].body.SessionDetached?
    ensures var last := events[|events| - 1]; Detachments(events) == if last.body.SessionDetached? then [last] else []
  {
    if |events| == 1 {
      assert events[1..] == [];
    } else {
      OnlyLastDetaches(events[1..]);
    }
  }

  lemma WindowDetachments(log: seq<Event>, retention: nat)
    requires retention >= 1 && log != [] && forall i | 0 <= i < |log| - 1 :: !log[i].body.SessionDetached?
    ensures var events, last := G.Retained(log, retention), log[|log| - 1];
            && events != [] && events[|events| - 1] == last
            && Detachments(events) == if last.body.SessionDetached? then [last] else []
  {
    OnlyLastDetaches(G.Retained(log, retention));
  }

  /** What the bridge finds when it looks for the terminal event in the retained window. */
  lemma RetainedDetachments(g: G.Gateway, cfg: G.Config, ref: string)
    requires G.Inv(g, cfg) && cfg.retention >= 1 && ref in g.associations && EndsOnce(g, ref)
    ensures var a := g.associations[ref];
            && a.events != []
            && var last := a.events[|a.events| - 1];
               && last == g.emitted[a.epoch][|g.emitted[a.epoch]| - 1] && G.AsEmitted(g, last) && last.sequence == a.sequence
               && Detachments(a.events) == if last.body.SessionDetached? then [last] else []
  {
    var a := g.associations[ref];
    assert G.StreamInv(g, cfg, ref);
    var log := g.emitted[a.epoch];
    assert G.Proper(log, a.epoch);
    WindowDetachments(log, cfg.retention);
  }

  lemma EmittedIsUnknown(sys: System, s: Settings, e: Event)
    requires Inv(sys, s) && G.AsEmitted(sys.gateway, e) && e !in sys.tables.events
    ensures forall r | r in sys.tables.events :: r.eventId != e.eventId
    ensures Matches(sys.tables, e.associationRef, e.sessionRef, e.epoch) ==> Unknown(sys.tables, e)
  {
    forall r | r in sys.tables.events
      ensures r.eventId != e.eventId && !(r.epoch == e.epoch && r.sequence == e.sequence)
    {
      assert G.AsEmitted(sys.gateway, r);
      if r.eventId == e.eventId || (r.epoch == e.epoch && r.sequence == e.sequence) {
        EmittedIdsDistinct(sys.gateway, s.gateway, r, e);
      }
    }
  }

  /** The journal holds the event, or it is the next one of a stream the journal knows and there is room. */
  ghost predicate KnownOrNext(sys: System, s: Settings, ref: string, e: Event)
    requires ref in sys.gateway.associations
  {
    var a := sys.gateway.associations[ref];
    || e in sys.tables.events
    || (&& Matches(sys.tables, ref, a.ref.sessionRef, a.epoch) && Frontier(sys.tables, ref) + 1 == e.sequence
        && Room(sys.tables, s.limits, 1))
  }

  /**
    A detach of an association that has ended is journalled exactly when its window can still be listed and ends with
    the detachment, and either that is journalled already or it is the next thing the journal expects and there is room.
  */
  lemma LaterDetachExactly(sys: System, s: Settings, ref: string, now: int)
    requires Inv(sys, s) && Tidy(sys.gateway) && Revoked(sys, s, ref)
    ensures sys.gateway.associations[ref].events != []
    ensures Detaches(sys, s, ref, now) <==>
              && |sys.gateway.associations[ref].events| <= MAX_REPLAY_BATCH
              && Last(sys.gateway.associations[ref].events).body.SessionDetached?
              && KnownOrNext(sys, s, ref, Last(sys.gateway.associations[ref].events))
  {
    LastIsOfStream(sys, s, ref);
    LaterDetachOf(sys, s, ref, now, Last(sys.gateway.associations[ref].events));
  }

  function Last(events: seq<Event>): Event
    requires events != []
  {
    events[|events| - 1]
  }

  lemma LaterDetachOf(sys: System, s: Settings, ref: string, now: int, last: Event)
    requires Inv(sys, s) && Revoked(sys, s, ref) && G.AsEmitted(sys.gateway, last) && last.epoch == sys.gateway.associations[ref].epoch
    requires Detachments(sys.gateway.associations[ref].events) == if last.body.SessionDetached? then [last] else []
    ensures Detaches(sys, s, ref, now) <==>
              |sys.gateway.associations[ref].events| <= MAX_REPLAY_BATCH && last.body.SessionDetached? && KnownOrNext(sys, s, ref, last)
  {
    LaterTerminals(sys, s, ref, now);
    if last.body.SessionDetached? { LaterTerminalExactly(sys, s, ref, last); }
  }

  lemma LastIsOfStream(sys: System, s: Settings, ref: string)
    requires Inv(sys, s) && Tidy(sys.gateway) && ref in sys.gateway.associations
    ensures var a := sys.gateway.associations[ref];
            && a.events != [] && G.AsEmitted(sys.gateway, Last(a.events)) && Last(a.events).epoch == a.epoch
            && Detachments(a.events) == if Last(a.events).body.SessionDetached? then [Last(a.events)] else []
  {
    RetainedDetachments(sys.gateway, s.gateway, ref);
    var a := sys.gateway.associations[ref];
    assert G.StreamInv(sys.gateway, s.gateway, ref) && G.Proper(sys.gateway.emitted[a.epoch], a.epoch);
  }

  lemma LaterTerminals(sys: System, s: Settings, ref: string, now: int)
    requires Revoked(sys, s, ref)
    ensures var a := sys.gateway.associations[ref];
            Detaches(sys, s, ref, now) <==>
              |a.events| <= MAX_REPLAY_BATCH && J.IngestTerminals(sys.tables, s.limits, Detachments(a.events)).Ok?
  {
  }

  lemma LaterTerminalExactly(sys: System, s: Settings, ref: string, e: Event)
    requires Inv(sys, s) && ref in sys.gateway.associations && G.AsEmitted(sys.gateway, e) && e.body.SessionDetached?
    requires e.epoch == sys.gateway.associations[ref].epoch
    ensures J.IngestTerminals(sys.tables, s.limits, [e]).Ok? <==> KnownOrNext(sys, s, ref, e)
  {
    var a := sys.gateway.associations[ref];
    assert G.StreamInv(sys.gateway, s.gateway, ref);
    assert G.Proper(sys.gateway.emitted[e.epoch], e.epoch);
    if e in sys.tables.events {
      KnownTerminal(sys.tables, s.limits, e);
    } else {
      EmittedIsUnknown(sys, s, e);
      if Matches(sys.tables, ref, a.ref.sessionRef, a.epoch) {
        TerminalExactly(sys.tables, s.limits, e);
      } else if J.IngestTerminals(sys.tables, s.limits, [e]).Ok? {
        TerminalNeedsMatch(sys.tables, s.limits, e);
      }
    }
  }

  // ----- a gap that is never filled

  /**
    The stream the journal knows can never be continued: the gateway has dropped it, or ended it past the next position
    the journal expects.
  */
  ghost predicate Lost(sys: System, ref: string) {
    && ref in sys.tables.associations
    && var epoch := sys.tables.associations[ref].epoch;
       && epoch.Epoch? && epoch.serial <= sys.gateway.counter
       && (ref in sys.gateway.associations && sys.gateway.associations[ref].epoch == epoch ==>
             sys.gateway.associations[ref].revoked && Frontier(sys.tables, ref) + 1 < sys.gateway.associations[ref].sequence)
  }

  /** Nothing the journal knows of an association has changed. */
  ghost predicate SameRecord(t: J.Tables, u: J.Tables, ref: string)
    requires ref in t.associations
  {
    ref in u.associations && u.associations[ref] == t.associations[ref] && Frontier(u, ref) == Frontier(t, ref)
  }

  lemma LostIsRefused(sys: System, s: Settings, ref: string, now: int)
    requires Inv(sys, s) && Tidy(sys.gateway) && Lost(sys, ref)
    ensures !Detaches(sys, s, ref, now)
  {
    if ref in sys.gateway.associations && G.Owns(s.observer, sys.gateway.associations[ref].binding) {
      var a := sys.gateway.associations[ref];
      if !a.revoked {
        FirstDetachExactly(sys, s, ref, now);
      } else if ref != "" {
        LaterDetachExactly(sys, s, ref, now);
        LastIsNotJournalled(sys, s, ref);
      }
    }
  }

  /** The journal holds no row past its own frontier, nor of a stream it does not know. */
  lemma LastIsNotJournalled(sys: System, s: Settings, ref: string)
    requires Inv(sys, s) && Tidy(sys.gateway) && Lost(sys, ref) && ref in sys.gateway.associations
    ensures var a := sys.gateway.associations[ref]; a.events != [] && a.events[|a.events| - 1] !in sys.tables.events
  {
    RetainedDetachments(sys.gateway, s.gateway, ref);
    var a := sys.gateway.associations[ref];
    var last := a.events[|a.events| - 1];
    assert G.StreamInv(sys.gateway, s.gateway, ref) && G.Proper(sys.gateway.emitted[a.epoch], a.epoch);
    RowsWithinFrontier(sys.tables, ref, last);
  }

  lemma RowsWithinFrontier(t: J.Tables, ref: string, e: Event)
    requires OneEpoch(t) && ref in t.associations && t.associations[ref].associationRef == ref && e.associationRef == ref
    ensures e in t.events ==> e.epoch == t.associations[ref].epoch && e.sequence <= Frontier(t, ref)
  {
  }

  // ----- what other operations do to the record of an association

  lemma {:induction false} MaxSequenceAppend(rows: seq<Event>, e: Event, a: string, epoch: Epoch)
    requires e.associationRef != a
    ensures J.MaxSequence(rows + [e], a, epoch) == J.MaxSequence(rows, a, epoch)
  {
    if rows == [] {
      assert [e][1..] == [];
    } else {
      assert (rows + [e])[1..] == rows[1..] + [e];
      MaxSequenceAppend(rows[1..], e, a, epoch);
    }
  }

  lemma {:induction false} MaxCursorUpsert(rows: seq<Cursor>, c: Cursor, a: string)
    requires c.associationRef != a
    ensures J.MaxCursor(J.Upsert(rows, c), a) == J.MaxCursor(rows, a)
  {
    if rows == [] {
      assert [c][1..] == [];
    } else if rows[0].associationRef == c.associationRef && rows[0].subscriberRef == c.subscriberRef {
      assert ([c] + rows[1..])[1..] == rows[1..];
    } else {
      MaxCursorUpsert(rows[1..], c, a);
      var rest := J.Upsert(rows[1..], c);
      assert ([rows[0]] + rest)[1..] == rest;
    }
  }

  lemma IngestOneElsewhere(t: J.Tables, lim: J.Limits, e: Event, ref: string)
    requires ref in t.associations && t.associations[ref].associationRef == ref && e.associationRef != ref
    requires J.IngestEvent(t, lim, e).Ok?
    ensures SameRecord(t, J.IngestEvent(t, lim, e).value, ref)
  {
    MaxSequenceAppend(t.events, e, ref, t.associations[ref].epoch);
  }

  lemma {:induction false} IngestAllElsewhere(t: J.Tables, lim: J.Limits, events: seq<Event>, ref: string)
    requires ref in t.associations && t.associations[ref].associationRef == ref
    requires (forall e | e in events :: e.associationRef != ref) && J.IngestAll(t, lim, events).Ok?
    ensures SameRecord(t, J.IngestAll(t, lim, events).value, ref)
  {
    if events != [] {
      var front, e := events[..|events| - 1], events[|events| - 1];
      IngestAllElsewhere(t, lim, front, ref);
      IngestOneElsewhere(J.IngestAll(t, lim, front).value, lim, e, ref);
    }
  }

  lemma IngestElsewhere(t: J.Tables, lim: J.Limits, snapshot: Snapshot, events: seq<Event>, cursor: Option<Cursor>, ref: string)
    requires ref in t.associations && t.associations[ref].associationRef == ref && snapshot.associationRef != ref
    requires (forall e | e in events :: e.associationRef != ref) && (cursor.Some? ==> cursor.value.associationRef != ref)
    requires J.Ingest(t, lim, snapshot, events, cursor).Ok?
    ensures SameRecord(t, J.Ingest(t, lim, snapshot, events, cursor).value, ref)
  {
    J.IngestIs(t, lim, snapshot, events, cursor);
    var t1 := J.Associate(t, snapshot).value;
    var t2 := J.IngestAll(t1, lim, events).value;
    IngestAllElsewhere(t1, lim, events, ref);
    KeepElsewhere(t2, cursor, ref);
  }

  lemma KeepElsewhere(t: J.Tables, cursor: Option<Cursor>, ref: string)
    requires ref in t.associations && t.associations[ref].associationRef == ref
    requires cursor.Some? ==> cursor.value.associationRef != ref
    ensures SameRecord(t, J.KeepCursor(t, cursor), ref)
  {
    if cursor.Some? {
      var c := cursor.value;
      var prior := J.CursorFor(t.cursors, c.associationRef, c.subscriberRef);
      MaxCursorUpsert(t.cursors, if prior.Some? && prior.value.lastSequence >= c.lastSequence then prior.value else c, ref);
    }
  }

  lemma WriteElsewhere(t: J.Tables, lim: J.Limits, e: Event, ref: string)
    requires ref in t.associations && t.associations[ref].associationRef == ref && e.associationRef != ref
    requires J.WriteTerminal(t, lim, e).Ok?
    ensures SameRecord(t, J.WriteTerminal(t, lim, e).value, ref)
  {
    MaxSequenceAppend(t.events, e, ref, t.associations[ref].epoch);
  }

  lemma {:induction false} WritesElsewhere(t: J.Tables, lim: J.Limits, events: seq<Event>, ref: string)
    requires ref in t.associations && t.associations[ref].associationRef == ref
    requires (forall e | e in events :: e.associationRef != ref) && J.WriteTerminals(t, lim, events).Ok?
    ensures SameRecord(t, J.WriteTerminals(t, lim, events).value, ref)
  {
    if events != [] {
      WritesElsewhere(t, lim, events[..|events| - 1], ref);
      WriteElsewhere(J.WriteTerminals(t, lim, events[..|events| - 1]).value, lim, events[|events| - 1], ref);
    }
  }

  /** An ingest about another stream, or about one the journal refuses, leaves the record alone. */
  lemma IngestKeepsRecord(t: J.Tables, lim: J.Limits, snapshot: Snapshot, events: seq<Event>, cursor: Option<Cursor>, ref: string)
    requires ref in t.associations && t.associations[ref].associationRef == ref
    requires snapshot.associationRef == ref ==> snapshot.epoch != t.associations[ref].epoch
    requires forall e | e in events :: e.associationRef == snapshot.associationRef
    requires cursor.Some? ==> cursor.value.associationRef == snapshot.associationRef
    ensures J.Ingest(t, lim, snapshot, events, cursor).Ok? ==> SameRecord(t, J.Ingest(t, lim, snapshot, events, cursor).value, ref)
  {
    if J.Ingest(t, lim, snapshot, events, cursor).Ok? {
      assert snapshot.associationRef != ref;
      IngestElsewhere(t, lim, snapshot, events, cursor, ref);
    }
  }

  ghost predicate Cut(g: G.Gateway, ref: string, epoch: Epoch, frontier: nat) {
    && epoch.Epoch? && epoch.serial <= g.counter
    && (ref in g.associations && g.associations[ref].epoch == epoch ==>
          g.associations[ref].revoked && frontier + 1 < g.associations[ref].sequence)
  }

  lemma CutStays(g: G.Gateway, cfg: G.Config, op: G.Op, ref: string, epoch: Epoch, frontier: nat)
    requires Cut(g, ref, epoch, frontier)
    ensures Cut(G.Step(g, cfg, op), ref, epoch, frontier)
  {
    match op
    case OpIssue(b, now) =>
    case OpConsume(o, t, c, key, mode, now) => G.ConsumeShape(g, cfg, o, t, c, key, mode, now);
    case OpBeat(o, r, now) =>
    case OpRevoke(o, r, now) =>
    case OpExpire(r, now) =>
    case OpReset =>
  }

  /** What the gateway shows of an association it still serves is not the stream that was cut. */
  ghost predicate Served(g: G.Gateway, ref: string, snapshot: Snapshot) {
    && ref in g.associations && !g.associations[ref].revoked
    && snapshot.associationRef == ref && snapshot.epoch == g.associations[ref].epoch
  }

  lemma DeliverKeepsRecord(sys: System, s: Settings, r: string, d: Delivery, expected: nat, wall: int, ref: string)
    requires Inv(sys, s) && Lost(sys, ref) && Served(sys.gateway, r, d.snapshot)
    ensures SameRecord(sys.tables, Commit(sys, Deliver(sys.tables, s, r, d, expected, wall)).tables, ref)
  {
    if Deliver(sys.tables, s, r, d, expected, wall).Ok? {
      J.AcceptedStream(d.snapshot, d.events, expected, Some(d.cursor));
      IngestKeepsRecord(sys.tables, s.limits, d.snapshot, d.events, Some(d.cursor), ref);
    }
  }

  lemma SubscribeKeepsRecord(sys: System, s: Settings, r: string, cursor: Option<Cursor>, limit: nat, now: int, wall: int, ref: string)
    requires Inv(sys, s) && Lost(sys, ref)
    ensures SameRecord(sys.tables, Commit(sys, DoSubscribe(sys, s, r, cursor, limit, now, wall)).tables, ref)
  {
    var d := G.Subscribe(sys.gateway, s.gateway, s.observer, r, cursor, limit, now);
    if d.Ok? {
      assert G.StreamInv(sys.gateway, s.gateway, r);
      DeliverKeepsRecord(sys, s, r, d.value, if cursor.Some? then cursor.value.lastSequence else 0, wall, ref);
    }
  }

  lemma ReplayKeepsRecord(sys: System, s: Settings, w: Window, cursor: Option<Cursor>, now: int, wall: int, ref: string)
    requires Inv(sys, s) && Lost(sys, ref)
    ensures SameRecord(sys.tables, Commit(sys, DoReplay(sys, s, w, cursor, now, wall)).tables, ref)
  {
    var d := G.Replay(sys.gateway, s.gateway, s.observer, w, cursor, now);
    if d.Ok? {
      assert G.StreamInv(sys.gateway, s.gateway, w.associationRef);
      DeliverKeepsRecord(sys, s, w.associationRef, d.value, if cursor.Some? then cursor.value.lastSequence else w.after, wall, ref);
    }
  }

  lemma SnapshotKeepsRecord(sys: System, s: Settings, r: string, now: int, ref: string)
    requires Inv(sys, s) && Lost(sys, ref)
    ensures SameRecord(sys.tables, Commit(sys, DoSnapshot(sys, s, r, now)).tables, ref)
  {
    var snapshot := G.TakeSnapshot(sys.gateway, s.observer, r);
    if snapshot.Ok? {
      assert G.StreamInv(sys.gateway, s.gateway, r);
      IngestKeepsRecord(sys.tables, s.limits, snapshot.value, [], None, ref);
    }
  }

  lemma HeartbeatKeepsRecord(sys: System, s: Settings, r: string, now: int, ref: string)
    requires Inv(sys, s) && Lost(sys, ref)
    ensures SameRecord(sys.tables, DoHeartbeat(sys, s, r, now).tables, ref)
  {
    var (g, beat) := G.Beat(sys.gateway, s.gateway, s.observer, r, now);
    if beat.Ok? {
      assert G.StreamInv(sys.gateway, s.gateway, r);
      var (snapshot, event) := beat.value;
      IngestKeepsRecord(sys.tables, s.limits, snapshot, [event], None, ref);
    }
  }

  lemma AttachKeepsRecord(sys: System, s: Settings, t: G.TicketRef, c: G.Binding, key: string, now: int, ref: string)
    requires Inv(sys, s) && Lost(sys, ref)
    ensures SameRecord(sys.tables, DoAttach(sys, s, t, c, key, now).tables, ref)
  {
    var (g, r) := G.Consume(sys.gateway, s.gateway, s.observer, t, c, key, UserOwnedSession, now);
    G.ConsumeKeeps(sys.gateway, s.gateway, s.observer, t, c, key, UserOwnedSession, now);
    CutStays(sys.gateway, s.gateway, G.OpConsume(s.observer, t, c, key, UserOwnedSession, now), ref,
             sys.tables.associations[ref].epoch, Frontier(sys.tables, ref));
    if r.Ok? && G.TakeSnapshot(g, s.observer, r.value.associationRef).Ok? {
      assert G.StreamInv(g, s.gateway, r.value.associationRef);
      IngestKeepsRecord(sys.tables, s.limits, G.TakeSnapshot(g, s.observer, r.value.associationRef).value, [], None, ref);
    }
  }

  lemma DetachKeepsRecord(sys: System, s: Settings, r: string, now: int, ref: string)
    requires Inv(sys, s) && Tidy(sys.gateway) && Lost(sys, ref)
    ensures SameRecord(sys.tables, DoDetach(sys, s, r, now).tables, ref)
  {
    if r == ref {
      LostIsRefused(sys, s, ref, now);
    } else if Detaches(sys, s, r, now) {
      TerminalsElsewhere(sys, s, r, now);
      var (g, revoked) := G.Revoke(sys.gateway, s.gateway, s.observer, r, now);
      WritesElsewhere(sys.tables, s.limits, Terminals(g, s, r, revoked).value, ref);
    }
  }

  lemma TerminalsElsewhere(sys: System, s: Settings, r: string, now: int)
    requires Inv(sys, s) && Tidy(sys.gateway)
    ensures var (g, revoked) := G.Revoke(sys.gateway, s.gateway, s.observer, r, now);
            Terminals(g, s, r, revoked).Ok? ==> forall e | e in Terminals(g, s, r, revoked).value :: e.associationRef == r
  {
    var (g, revoked) := G.Revoke(sys.gateway, s.gateway, s.observer, r, now);
    if r in sys.gateway.associations {
      if revoked.Ok? && revoked.value.Some? {
        assert G.StreamInv(sys.gateway, s.gateway, r);
      } else {
        DetachmentsElsewhere(sys.gateway, s, r);
      }
    }
  }

  lemma DetachmentsElsewhere(g: G.Gateway, s: Settings, r: string)
    requires G.Inv(g, s.gateway) && s.gateway.retention >= 1 && r in g.associations && EndsOnce(g, r)
    ensures forall e | e in Detachments(g.associations[r].events) :: e.associationRef == r
  {
    assert G.StreamInv(g, s.gateway, r);
    RetainedDetachments(g, s.gateway, r);
    assert G.Proper(g.emitted[g.associations[r].epoch], g.associations[r].epoch);
  }

  lemma ReconcileKeepsRecord(sys: System, s: Settings, r: string, now: int, wall: int, ref: string)
    requires Inv(sys, s) && Lost(sys, ref)
    ensures SameRecord(sys.tables, DoReconcile(sys, s, r, now, wall).tables, ref)
  {
    SnapshotKeepsRecord(sys, s, r, now, ref);
    SnapshotKeepsInv(sys, s, r, now);
    var refreshed := Commit(sys, DoSnapshot(sys, s, r, now));
    SubscribeKeepsRecord(refreshed, s, r, J.CursorFor(refreshed.tables.cursors, r, s.observer.observerRef), MAX_REPLAY_BATCH, now, wall, ref);
  }

  lemma RecordStays(sys: System, s: Settings, op: Op, ref: string)
    requires Inv(sys, s) && Tidy(sys.gateway) && Lost(sys, ref)
    ensures SameRecord(sys.tables, Step(sys, s, op).tables, ref)
  {
    match op
    case OpAttach(t, c, key, now) => AttachKeepsRecord(sys, s, t, c, key, now, ref);
    case OpSnapshot(r, now) => SnapshotKeepsRecord(sys, s, r, now, ref);
    case OpSubscribe(r, cursor, limit, now, wall) => SubscribeKeepsRecord(sys, s, r, cursor, limit, now, wall, ref);
    case OpReplay(w, cursor, now, wall) => ReplayKeepsRecord(sys, s, w, cursor, now, wall, ref);
    case OpHeartbeat(r, now) => HeartbeatKeepsRecord(sys, s, r, now, ref);
    case OpReconcile(r, now, wall) => ReconcileKeepsRecord(sys, s, r, now, wall, ref);
    case OpDetach(r, now) => DetachKeepsRecord(sys, s, r, now, ref);
    case OpAck(id) =>
    case Upstream(o) =>
  }

  lemma LostStays(sys: System, s: Settings, op: Op, ref: string)
    requires Inv(sys, s) && Tidy(sys.gateway) && Lost(sys, ref)
    ensures Lost(Step(sys, s, op), ref)
  {
    RecordStays(sys, s, op, ref);
    GatewayOf(sys, s, op);
    if AtGateway(s, op).Some? {
      CutStays(sys.gateway, s.gateway, AtGateway(s, op).value, ref, sys.tables.associations[ref].epoch, Frontier(sys.tables, ref));
    }
  }

  lemma {:induction false} LostForever(s: Settings, ops: seq<Op>, more: seq<Op>, ref: string)
    requires s.gateway.retention >= 1 && Lost(Run(s, ops), ref)
    ensures Lost(Run(s, ops + more), ref)
    decreases |more|
  {
    if more == [] {
      assert ops + more == ops;
    } else {
      var front := more[..|more| - 1];
      assert (ops + more)[..|ops + more| - 1] == ops + front;
      LostForever(s, ops, front, ref);
      ReachableIsTidy(s, ops + front);
      LostStays(Run(s, ops + front), s, more[|more| - 1], ref);
    }
  }

  /**
    A detach that comes when the gateway has moved past what the journal knows is never journalled: the association ends
    at the gateway, and every later detach fails as well, whatever happens in between.
  */
  lemma GapIsForever(s: Settings, ops: seq<Op>, ref: string, now: int, more: seq<Op>, later: int)
    requires s.gateway.retention >= 1 && Active(Run(s, ops), s, ref)
    requires var sys := Run(s, ops); var a := sys.gateway.associations[ref];
             Matches(sys.tables, ref, a.ref.sessionRef, a.epoch) && Frontier(sys.tables, ref) < a.sequence
    ensures !Detaches(Run(s, ops), s, ref, now)
    ensures !Detaches(Run(s, ops + [OpDetach(ref, now)] + more), s, ref, later)
  {
    ReachableIsTidy(s, ops);
    RunOne(s, ops, OpDetach(ref, now));
    FirstDetachExactly(Run(s, ops), s, ref, now);
    GapIsLost(Run(s, ops), s, ref, now);
    LostForever(s, ops + [OpDetach(ref, now)], more, ref);
    ReachableIsTidy(s, ops + [OpDetach(ref, now)] + more);
    LostIsRefused(Run(s, ops + [OpDetach(ref, now)] + more), s, ref, later);
  }

  lemma GapIsLost(sys: System, s: Settings, ref: string, now: int)
    requires Inv(sys, s) && Active(sys, s, ref) && !Detaches(sys, s, ref, now)
    requires var a := sys.gateway.associations[ref];
             Matches(sys.tables, ref, a.ref.sessionRef, a.epoch) && Frontier(sys.tables, ref) < a.sequence
    ensures Lost(Step(sys, s, OpDetach(ref, now)), ref)
  {
    assert G.StreamInv(sys.gateway, s.gateway, ref);
    var a := sys.gateway.associations[ref];
    assert a.epoch in sys.gateway.emitted;
  }

  /** One heartbeat that reaches the gateway but not the bridge is enough. */
  lemma GapExample(now: int, more: seq<Op>, later: int)
    ensures var ops := Attached() + [Upstream(G.OpBeat(OBSERVER, "a", 0))];
            !Detaches(Run(SETTINGS, ops + [OpDetach("a", now)] + more), SETTINGS, "a", later)
  {
    var ops := Attached() + [Upstream(G.OpBeat(OBSERVER, "a", 0))];
    AttachedState();
    BeatenState();
    GapIsForever(SETTINGS, ops, "a", now, more, later);
  }
}
