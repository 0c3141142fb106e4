/**
  The gateway: one-use activation tickets, associations, and for every association a numbered event
  stream of which only a bounded window is retained.

  `emitted` is not part of the gateway: it is the full log of what each stream has ever produced, the
  reference that the retained window, the pages served from it and every journal fed by it are compared with.
*/
module FakeGateway {
  import opened Wrappers
  import opened GatewayContracts

  datatype Config = Config(activationTtl: int, heartbeatTtl: int, retention: nat)

  datatype Binding = Binding(
    observerRef: string, ownerRef: Option<string>, profileRef: Option<string>, workspaceRef: Option<string>,
    sessionRef: string, associationRef: string, purpose: string)

  datatype Ticket = Ticket(
    binding: Binding, issuedAt: int, expiresAt: int,
    consumedOperation: Option<string>, association: Option<AssociationRef>)

  datatype Association = Association(
    ref: AssociationRef, binding: Binding, epoch: Epoch, status: Status, sequence: nat, metadataVersion: nat,
    heartbeatAt: Option<int>, associatedAt: int, heartbeatSequence: nat, events: seq<Event>, revoked: bool)

  datatype TicketRef = TicketRef(serial: nat, generation: nat)

  datatype Gateway = Gateway(
    counter: nat, tickets: map<TicketRef, Ticket>, associations: map<string, Association>,
    resetGeneration: nat, emitted: map<Epoch, seq<Event>>)

  const EMPTY := Gateway(0, map[], map[], 0, map[])

  const PURPOSE := "pd_observation"

  // ----- tickets

  function Issue(g: Gateway, cfg: Config, b: Binding, now: int): (Gateway, Result<TicketRef, Error>) {
    if b.purpose != PURPOSE then (g, Err(if b.purpose == "" then InvalidRequest else CapabilityDenied))
    else
      var requested := AssociationRef(b.associationRef, b.sessionRef, b.ownerRef, b.profileRef, b.workspaceRef, UserOwnedSession);
      if b.associationRef in g.associations &&
         (g.associations[b.associationRef].ref != requested || g.associations[b.associationRef].binding != b)
      then (g, Err(ActivationInvalid))
      else
        var opaque_ := TicketRef(g.counter + 1, g.resetGeneration);
        (g.(counter := g.counter + 1, tickets := g.tickets[opaque_ := Ticket(b, now, now + cfg.activationTtl, None, None)]),
         Ok(opaque_))
  }

  predicate Owns(observer: Observer, b: Binding) {
    observer.observerRef == b.observerRef && observer.ownerRef == b.ownerRef && observer.profileRef == b.profileRef
  }

  /** The candidate binding is the caller's claim; its observer is whoever is connected. */
  function Consume(g: Gateway, cfg: Config, observer: Observer, t: TicketRef, candidate: Binding, operation: string,
                   ownership: Ownership, now: int): (Gateway, Result<AssociationRef, Error>)
  {
    if operation == "" then (g, Err(InvalidRequest))
    else if candidate.purpose != PURPOSE then (g, Err(CapabilityDenied))
    else if t !in g.tickets then (g, Err(ActivationInvalid))
    else
      var item := g.tickets[t];
      if !Owns(observer, item.binding) || candidate.(observerRef := observer.observerRef) != item.binding || now >= item.expiresAt then (g, Err(ActivationInvalid))
      else if item.consumedOperation.Some? then
        if item.consumedOperation.value == operation && item.association.Some? then (g, Ok(item.association.value))
        else (g, Err(ActivationInvalid))
      else
        var a := AssociationRef(candidate.associationRef, candidate.sessionRef, candidate.ownerRef, candidate.profileRef,
                                candidate.workspaceRef, ownership);
        if ownership == FleetOwnedTask then (g, Err(CapabilityDenied))
        else if a.associationRef in g.associations then
          var existing := g.associations[a.associationRef];
          if existing.ref != a || existing.binding != item.binding then (g, Err(ActivationInvalid))
          else (g.(tickets := g.tickets[t := item.(consumedOperation := Some(operation), association := Some(existing.ref))]),
                Ok(existing.ref))
        else
          var used := g.(tickets := g.tickets[t := item.(consumedOperation := Some(operation), association := Some(a))]);
          (Create(used, cfg, a, item.binding, now), Ok(a))
  }

  /** A new association starts its own stream, whose first event is its registration. */
  function Create(g: Gateway, cfg: Config, a: AssociationRef, b: Binding, now: int): Gateway {
    var epoch := Epoch(g.counter + 1);
    var (registered, event) :=
      AppendEvent(cfg, Association(a, b, epoch, Observing, 0, 0, None, now, 0, [], false), Registered(0), now);
    g.(counter := g.counter + 1, associations := g.associations[a.associationRef := registered],
       emitted := g.emitted[epoch := [event]])
  }

  // ----- streams

  function NewEvent(a: Association, body: Body, now: int): Event {
    Event(EventId(a.ref.associationRef, a.epoch, a.sequence + 1, now, body), now, a.ref.sessionRef,
          a.ref.associationRef, a.ref.ownership, a.epoch, a.sequence + 1, body)
  }

  function Retained(log: seq<Event>, retention: nat): seq<Event> {
    if |log| <= retention then log else log[|log| - retention..]
  }

  function AppendEvent(cfg: Config, a: Association, body: Body, now: int): (Association, Event) {
    var event := NewEvent(a, body, now);
    (a.(sequence := a.sequence + 1, events := Retained(a.events + [event], cfg.retention)), event)
  }

  /** The association `observer` may use under that name, or why it may not. */
  function Access(associations: map<string, Association>, observer: Observer, ref: string): Result<Association, Error> {
    if ref == "" then Err(InvalidRequest)
    else if ref !in associations then Err(AssociationRequired)
    else if !Owns(observer, associations[ref].binding) then Err(ForeignOwner)
    else if associations[ref].revoked then Err(AssociationStale)
    else Ok(associations[ref])
  }

  function SnapshotOf(a: Association): Snapshot {
    Snapshot(a.ref.sessionRef, a.ref.associationRef, a.ref.ownership, a.status, a.epoch, a.sequence, a.metadataVersion)
  }

  function TakeSnapshot(g: Gateway, observer: Observer, ref: string): Result<Snapshot, Error> {
    match Access(g.associations, observer, ref)
    case Err(e) => Err(e)
    case Ok(a) => Ok(SnapshotOf(a))
  }

  function CursorAt(cfg: Config, a: Association, last: nat, now: int): Cursor {
    Cursor(a.ref.associationRef, a.binding.observerRef, a.epoch, last, now, now + cfg.activationTtl)
  }

  function Later(events: seq<Event>, after: nat): seq<Event> {
    if events == [] then []
    else (if events[0].sequence > after then [events[0]] else []) + Later(events[1..], after)
  }

  function Take(events: seq<Event>, limit: nat): seq<Event> {
    if |events| <= limit then events else events[..limit]
  }

  function Page(a: Association, w: Window, cursor: Option<Cursor>, now: int): Result<seq<Event>, Error> {
    if cursor.Some? && (w.associationRef != cursor.value.associationRef || w.epoch != cursor.value.epoch
                        || w.after != cursor.value.lastSequence) then Err(ActivationInvalid)
    else if w.epoch != a.epoch then Err(ResyncRequired)
    else if cursor.Some? && (cursor.value.associationRef != a.ref.associationRef
                             || cursor.value.subscriberRef != a.binding.observerRef) then Err(ActivationInvalid)
    else if cursor.Some? && cursor.value.issuedAt > now then Err(CursorStale)
    else if cursor.Some? && now >= cursor.value.expiresAt then Err(CursorExpired)
    else if cursor.Some? && cursor.value.lastSequence > a.sequence then Err(CursorStale)
    else if a.events != [] && w.after < a.events[0].sequence - 1 then Err(ReplayGap)
    else
      var page := Take(Later(a.events, w.after), w.limit);
      if page == [] then Err(NoNewEvents) else Ok(page)
  }

  predicate GoodLimit(limit: nat) { 1 <= limit <= MAX_REPLAY_BATCH }

  function Subscribe(g: Gateway, cfg: Config, observer: Observer, ref: string, cursor: Option<Cursor>, limit: nat, now: int)
    : Result<Delivery, Error>
  {
    match Access(g.associations, observer, ref)
    case Err(e) => Err(e)
    case Ok(a) =>
      if !GoodLimit(limit) then Err(InvalidRequest)
      else
        var found := if cursor.None? then Ok(a.events)
                     else Page(a, Window(ref, a.epoch, cursor.value.lastSequence, limit), cursor, now);
        match found
        case Err(e) => Err(e)
        case Ok(all) =>
          var events := Take(all, limit);
          var last := if events != [] then events[|events| - 1].sequence
                      else if cursor.Some? then cursor.value.lastSequence else a.sequence;
          Ok(Delivery(SnapshotOf(a), events, CursorAt(cfg, a, last, now)))
  }

  function Replay(g: Gateway, cfg: Config, observer: Observer, w: Window, cursor: Option<Cursor>, now: int): Result<Delivery, Error> {
    if !GoodLimit(w.limit) then Err(InvalidRequest)
    else
      match Access(g.associations, observer, w.associationRef)
      case Err(e) => Err(e)
      case Ok(a) => Serve(cfg, a, w, cursor, now)
  }

  function Serve(cfg: Config, a: Association, w: Window, cursor: Option<Cursor>, now: int): Result<Delivery, Error> {
    match Page(a, w, cursor, now)
    case Err(e) => Err(e)
    case Ok(events) =>
      if events == [] then Err(NoNewEvents)
      else Ok(Delivery(SnapshotOf(a), events, CursorAt(cfg, a, events[|events| - 1].sequence, now)))
  }

  function Emit(g: Gateway, cfg: Config, ref: string, a: Association, body: Body, now: int): (Gateway, Association, Event) {
    var (next, event) := AppendEvent(cfg, a, body, now);
    var log := if a.epoch in g.emitted then g.emitted[a.epoch] else [];
    (g.(associations := g.associations[ref := next], emitted := g.emitted[a.epoch := log + [event]]), next, event)
  }

  function Beat(g: Gateway, cfg: Config, observer: Observer, ref: string, now: int)
    : (Gateway, Result<(Snapshot, Event), Error>)
  {
    match Access(g.associations, observer, ref)
    case Err(e) => (g, Err(e))
    case Ok(a) =>
      var beaten := a.(heartbeatAt := Some(now), heartbeatSequence := a.heartbeatSequence + 1);
      var (t, next, event) := Emit(g, cfg, ref, beaten, Heartbeat(beaten.heartbeatSequence, now, cfg.heartbeatTtl), now);
      (t, Ok((SnapshotOf(next), event)))
  }

  function Revoke(g: Gateway, cfg: Config, observer: Observer, ref: string, now: int): (Gateway, Result<Option<Event>, Error>) {
    if ref !in g.associations then (g, Err(AssociationRequired))
    else if !Owns(observer, g.associations[ref].binding) then (g, Err(ForeignOwner))
    else if g.associations[ref].revoked then (g, Ok(None))
    else
      var a := g.associations[ref];
      var (t, _, event) := Emit(g, cfg, ref, a.(revoked := true, status := Detached), SessionDetached(a.metadataVersion), now);
      (t, Ok(Some(event)))
  }

  predicate IsStale(cfg: Config, a: Association, now: int) {
    !a.revoked && now - (if a.heartbeatAt.Some? then a.heartbeatAt.value else a.associatedAt) >= cfg.heartbeatTtl
  }

  function Ending(a: Association): Association { a.(revoked := true, status := Ended) }

  function Expired(cfg: Config, a: Association, now: int): Association {
    if IsStale(cfg, a, now) then AppendEvent(cfg, Ending(a), SessionEnded(a.metadataVersion), now).0 else a
  }

  function Expire(g: Gateway, cfg: Config, ref: string, now: int): Gateway {
    if ref in g.associations && IsStale(cfg, g.associations[ref], now) then
      var a := g.associations[ref];
      Emit(g, cfg, ref, Ending(a), SessionEnded(a.metadataVersion), now).0
    else g
  }

  function Reset(g: Gateway): Gateway {
    g.(resetGeneration := g.resetGeneration + 1, tickets := map[], associations := map[])
  }

  function RetainedView(g: Gateway, observer: Observer, ref: string, limit: nat): Result<seq<Event>, Error> {
    if !GoodLimit(limit) then Err(InvalidRequest)
    else if ref == "" then Err(InvalidRequest)
    else if ref !in g.associations then Ok([])
    else if !Owns(observer, g.associations[ref].binding) then Err(ForeignOwner)
    else if |g.associations[ref].events| > limit then Err(InvalidEvent)
    else Ok(g.associations[ref].events)
  }

  // ----- invariant

  ghost predicate Proper(log: seq<Event>, epoch: Epoch) {
    && Follows(log, 0)
    && forall i | 0 <= i < |log| ::
         && log[i].epoch == epoch && log[i].ownership == UserOwnedSession
         && log[i].eventId == EventId(log[i].associationRef, epoch, log[i].sequence, log[i].occurredAt, log[i].body)
         && log[i].associationRef == log[0].associationRef && log[i].sessionRef == log[0].sessionRef
  }

  /** An association's stream: its counter is the log's length and its window is the log's tail. */
  ghost predicate StreamInv(g: Gateway, cfg: Config, ref: string) {
    ref in g.associations &&
    var a := g.associations[ref];
    && a.ref.associationRef == ref && a.ref.ownership == UserOwnedSession && a.binding.associationRef == ref
    && a.epoch in g.emitted && a.epoch.Epoch?
    && var log := g.emitted[a.epoch];
       && a.sequence == |log| >= 1
       && a.events == Retained(log, cfg.retention)
       && log[0].associationRef == ref && log[0].sessionRef == a.ref.sessionRef
  }

  ghost predicate Inv(g: Gateway, cfg: Config) {
    && (forall e | e in g.emitted :: e.Epoch? && e.serial <= g.counter && Proper(g.emitted[e], e))
    && (forall r | r in g.associations :: StreamInv(g, cfg, r))
    && (forall r1, r2 | r1 in g.associations && r2 in g.associations && r1 != r2 ::
          g.associations[r1].epoch != g.associations[r2].epoch)
  }

  /** Logs only grow: what was emitted stays emitted. */
  ghost predicate Extends(g: Gateway, t: Gateway) {
    forall e | e in g.emitted :: e in t.emitted && g.emitted[e] <= t.emitted[e]
  }

  /** The event is the one its stream produced at its sequence number. */
  ghost predicate AsEmitted(g: Gateway, e: Event) {
    e.epoch in g.emitted && 1 <= e.sequence <= |g.emitted[e.epoch]| && g.emitted[e.epoch][e.sequence - 1] == e
  }

  ghost predicate InStream(g: Gateway, ref: string, e: Event) {
    ref in g.associations && e.epoch == g.associations[ref].epoch && e.associationRef == ref
  }

  lemma RetainedAppend(log: seq<Event>, e: Event, retention: nat)
    requires retention >= 1
    ensures Retained(Retained(log, retention) + [e], retention) == Retained(log + [e], retention)
  {
  }

  lemma EmitKeeps(g: Gateway, cfg: Config, ref: string, a: Association, body: Body, now: int)
    requires Inv(g, cfg) && ref in g.associations && cfg.retention >= 1
    requires var old_ := g.associations[ref];
             a.ref == old_.ref && a.binding == old_.binding && a.epoch == old_.epoch && a.sequence == old_.sequence
             && a.events == old_.events
    ensures var (t, next, event) := Emit(g, cfg, ref, a, body, now);
            && Inv(t, cfg) && Extends(g, t)
            && t.emitted[a.epoch] == g.emitted[a.epoch] + [event]
            && event.sequence == |t.emitted[a.epoch]|
  {
    var (t, next, event) := Emit(g, cfg, ref, a, body, now);
    assert StreamInv(g, cfg, ref);
    var log := g.emitted[a.epoch];
    RetainedAppend(log, event, cfg.retention);
    assert Proper(log, a.epoch);
    assert Proper(log + [event], a.epoch);
    assert StreamInv(t, cfg, ref);
    forall r | r in t.associations
      ensures StreamInv(t, cfg, r)
    {
      if r != ref { assert StreamInv(g, cfg, r); }
    }
  }

  // ----- operations as one step relation

  datatype Op =
    | OpIssue(binding: Binding, now: int)
    | OpConsume(observer: Observer, ticket: TicketRef, candidate: Binding, operation: string, ownership: Ownership, now: int)
    | OpBeat(observer: Observer, ref: string, now: int)
    | OpRevoke(observer: Observer, ref: string, now: int)
    | OpExpire(ref: string, now: int)
    | OpReset

  function Step(g: Gateway, cfg: Config, op: Op): Gateway {
    match op
    case OpIssue(b, now) => Issue(g, cfg, b, now).0
    case OpConsume(o, t, c, key, mode, now) => Consume(g, cfg, o, t, c, key, mode, now).0
    case OpBeat(o, r, now) => Beat(g, cfg, o, r, now).0
    case OpRevoke(o, r, now) => Revoke(g, cfg, o, r, now).0
    case OpExpire(r, now) => Expire(g, cfg, r, now)
    case OpReset => Reset(g)
  }

  lemma QuietKeeps(g: Gateway, cfg: Config, t: Gateway)
    requires Inv(g, cfg) && g.counter <= t.counter && t.associations == g.associations && t.emitted == g.emitted
    ensures Inv(t, cfg) && Extends(g, t)
  {
    forall r | r in t.associations
      ensures StreamInv(t, cfg, r)
    {
      assert StreamInv(g, cfg, r);
    }
  }

  lemma CreateKeeps(g: Gateway, cfg: Config, a: AssociationRef, b: Binding, now: int)
    requires Inv(g, cfg) && cfg.retention >= 1 && a.associationRef !in g.associations
    requires a.ownership == UserOwnedSession && b.associationRef == a.associationRef
    ensures Inv(Create(g, cfg, a, b, now), cfg) && Extends(g, Create(g, cfg, a, b, now))
  {
    var t := Create(g, cfg, a, b, now);
    var epoch := Epoch(g.counter + 1);
    assert epoch !in g.emitted;
    assert Proper(t.emitted[epoch], epoch);
    forall r | r in t.associations
      ensures StreamInv(t, cfg, r)
    {
      if r != a.associationRef { assert StreamInv(g, cfg, r); }
    }
    forall r | r in g.associations
      ensures g.associations[r].epoch != epoch
    {
      assert StreamInv(g, cfg, r);
    }
  }

  lemma ConsumeKeeps(g: Gateway, cfg: Config, o: Observer, t: TicketRef, c: Binding, key: string, mode: Ownership, now: int)
    requires Inv(g, cfg) && cfg.retention >= 1
    ensures var after := Consume(g, cfg, o, t, c, key, mode, now).0; Inv(after, cfg) && Extends(g, after)
  {
    var after := Consume(g, cfg, o, t, c, key, mode, now).0;
    ConsumeShape(g, cfg, o, t, c, key, mode, now);
    if after.associations == g.associations {
      QuietKeeps(g, cfg, after);
    } else {
      var item := g.tickets[t];
      var a := AssociationRef(c.associationRef, c.sessionRef, c.ownerRef, c.profileRef, c.workspaceRef, mode);
      var used := g.(tickets := g.tickets[t := item.(consumedOperation := Some(key), association := Some(a))]);
      QuietKeeps(g, cfg, used);
      CreateKeeps(used, cfg, a, item.binding, now);
      ExtendsFrom(g, used, after);
    }
  }

  /** Consuming changes at most the ticket, or creates the association the ticket is for. */
  lemma ConsumeShape(g: Gateway, cfg: Config, o: Observer, t: TicketRef, c: Binding, key: string, mode: Ownership, now: int)
    ensures var after := Consume(g, cfg, o, t, c, key, mode, now).0;
            var a := AssociationRef(c.associationRef, c.sessionRef, c.ownerRef, c.profileRef, c.workspaceRef, mode);
            || (after.associations == g.associations && after.emitted == g.emitted && after.counter == g.counter)
            || (t in g.tickets && a.associationRef !in g.associations && a.ownership == UserOwnedSession
                && var item := g.tickets[t];
                && item.binding.associationRef == a.associationRef
                && after == Create(g.(tickets := g.tickets[t := item.(consumedOperation := Some(key), association := Some(a))]),
                                   cfg, a, item.binding, now))
  {
  }

  lemma ExtendsFrom(g: Gateway, used: Gateway, after: Gateway)
    requires used.associations == g.associations && used.emitted == g.emitted && used.counter == g.counter
    requires Extends(used, after)
    ensures Extends(g, after)
  {
  }

  lemma BeatKeeps(g: Gateway, cfg: Config, o: Observer, r: string, now: int)
    requires Inv(g, cfg) && cfg.retention >= 1
    ensures var (t, result) := Beat(g, cfg, o, r, now);
            && Inv(t, cfg) && Extends(g, t)
            && (result.Ok? ==> AsEmitted(t, result.value.1) && InStream(t, r, result.value.1))
  {
    if Access(g.associations, o, r).Ok? {
      var a := Access(g.associations, o, r).value;
      assert StreamInv(g, cfg, r);
      var beaten := a.(heartbeatAt := Some(now), heartbeatSequence := a.heartbeatSequence + 1);
      EmitKeeps(g, cfg, r, beaten, Heartbeat(beaten.heartbeatSequence, now, cfg.heartbeatTtl), now);
    }
  }

  lemma RevokeKeeps(g: Gateway, cfg: Config, o: Observer, r: string, now: int)
    requires Inv(g, cfg) && cfg.retention >= 1
    ensures var (t, result) := Revoke(g, cfg, o, r, now);
            && Inv(t, cfg) && Extends(g, t)
            && (result.Ok? && result.value.Some? ==> AsEmitted(t, result.value.value) && InStream(t, r, result.value.value))
  {
    if r in g.associations {
      var a := g.associations[r];
      assert StreamInv(g, cfg, r);
      EmitKeeps(g, cfg, r, a.(revoked := true, status := Detached), SessionDetached(a.metadataVersion), now);
    }
  }

  lemma ExpireKeeps(g: Gateway, cfg: Config, r: string, now: int)
    requires Inv(g, cfg) && cfg.retention >= 1
    ensures Inv(Expire(g, cfg, r, now), cfg) && Extends(g, Expire(g, cfg, r, now))
  {
    if r in g.associations {
      assert StreamInv(g, cfg, r);
      EmitKeeps(g, cfg, r, Ending(g.associations[r]), SessionEnded(g.associations[r].metadataVersion), now);
    }
  }

  lemma StepKeeps(g: Gateway, cfg: Config, op: Op)
    requires Inv(g, cfg) && cfg.retention >= 1
    ensures Inv(Step(g, cfg, op), cfg) && Extends(g, Step(g, cfg, op))
  {
    match op
    case OpIssue(b, now) => QuietKeeps(g, cfg, Issue(g, cfg, b, now).0);
    case OpConsume(o, t, c, key, mode, now) => ConsumeKeeps(g, cfg, o, t, c, key, mode, now);
    case OpBeat(o, r, now) => BeatKeeps(g, cfg, o, r, now);
    case OpRevoke(o, r, now) => RevokeKeeps(g, cfg, o, r, now);
    case OpExpire(r, now) => ExpireKeeps(g, cfg, r, now);
    case OpReset =>
  }

  function Run(cfg: Config, ops: seq<Op>): Gateway {
    if ops == [] then EMPTY else Step(Run(cfg, ops[..|ops| - 1]), cfg, ops[|ops| - 1])
  }

  lemma RunOne(cfg: Config, ops: seq<Op>, op: Op)
    ensures Run(cfg, ops + [op]) == Step(Run(cfg, ops), cfg, op)
  {
    assert (ops + [op])[..|ops|] == ops;
  }

  lemma {:induction false} Reachable(cfg: Config, ops: seq<Op>)
    requires cfg.retention >= 1
    ensures Inv(Run(cfg, ops), cfg)
  {
    if ops != [] {
      Reachable(cfg, ops[..|ops| - 1]);
      StepKeeps(Run(cfg, ops[..|ops| - 1]), cfg, ops[|ops| - 1]);
    }
  }

  /** Over every run: retained events are contiguous, end at the current sequence, and number min(sequence, retention). */
  lemma WindowIsTail(cfg: Config, ops: seq<Op>, r: string)
    requires cfg.retention >= 1 && r in Run(cfg, ops).associations
    ensures var a := Run(cfg, ops).associations[r];
            && |a.events| == (if a.sequence <= cfg.retention then a.sequence else cfg.retention)
            && |a.events| <= a.sequence
            && Follows(a.events, a.sequence - |a.events|)
  {
    Reachable(cfg, ops);
    assert StreamInv(Run(cfg, ops), cfg, r);
  }

  // ----- paged replay

  lemma {:induction false} LaterIsDrop(events: seq<Event>, low: nat, after: nat)
    requires Follows(events, low)
    ensures after <= low ==> Later(events, after) == events
    ensures low <= after <= low + |events| ==> Later(events, after) == events[after - low..]
    ensures low + |events| <= after ==> Later(events, after) == []
  {
    if events != [] {
      assert events == [events[0]] + events[1..];
      LaterIsDrop(events[1..], low + 1, after);
      if low < after <= low + |events| {
        assert events[1..][after - low - 1..] == events[after - low..];
      }
    }
  }

  /** The first sequence number no longer retained. */
  function Floor(a: Association): int { a.sequence - |a.events| }

  predicate CursorFits(a: Association, cursor: Option<Cursor>, after: nat, now: int) {
    cursor.Some? ==>
      && cursor.value.associationRef == a.ref.associationRef && cursor.value.subscriberRef == a.binding.observerRef
      && cursor.value.epoch == a.epoch && cursor.value.lastSequence == after
      && cursor.value.issuedAt <= now < cursor.value.expiresAt
  }

  function NextStop(log: seq<Event>, after: nat, limit: nat): nat {
    if after + limit <= |log| then after + limit else |log|
  }

  ghost predicate Streams(a: Association, log: seq<Event>, retention: nat) {
    retention >= 1 && Follows(log, 0) && a.sequence == |log| >= 1 && a.events == Retained(log, retention)
  }

  lemma LaterOfWindow(a: Association, log: seq<Event>, retention: nat, after: nat)
    requires Streams(a, log, retention) && Floor(a) <= after <= |log|
    ensures Later(a.events, after) == log[after..]
  {
    LaterIsDrop(a.events, |log| - |a.events|, after);
    assert a.events == log[Floor(a)..];
  }

  /** A page is the next stretch of the log; asking below the window is an explicit gap, never a skip. */
  lemma PageExact(a: Association, log: seq<Event>, retention: nat, after: nat, limit: nat, cursor: Option<Cursor>, now: int)
    requires Streams(a, log, retention) && CursorFits(a, cursor, after, now) && after <= |log| && limit >= 1
    ensures Page(a, Window(a.ref.associationRef, a.epoch, after, limit), cursor, now) ==
              if after < Floor(a) then Err(ReplayGap)
              else if after == |log| then Err(NoNewEvents)
              else Ok(log[after..NextStop(log, after, limit)])
  {
    if Floor(a) <= after {
      LaterOfWindow(a, log, retention, after);
      assert Take(log[after..], limit) == log[after..NextStop(log, after, limit)];
    }
  }

  function NextPage(cfg: Config, a: Association, log: seq<Event>, after: nat, limit: nat, now: int): Delivery
    requires after <= |log|
  {
    var stop := NextStop(log, after, limit);
    Delivery(SnapshotOf(a), log[after..stop], CursorAt(cfg, a, stop, now))
  }

  lemma ServeExact(cfg: Config, a: Association, log: seq<Event>, after: nat, limit: nat, cursor: Option<Cursor>, now: int)
    requires Streams(a, log, cfg.retention) && Floor(a) <= after <= |log| && limit >= 1
    requires CursorFits(a, cursor, after, now)
    ensures Serve(cfg, a, Window(a.ref.associationRef, a.epoch, after, limit), cursor, now) ==
              if after == |log| then Err(NoNewEvents) else Ok(NextPage(cfg, a, log, after, limit, now))
  {
    PageExact(a, log, cfg.retention, after, limit, cursor, now);
    if after < |log| {
      var stop := NextStop(log, after, limit);
      assert log[after..stop][stop - after - 1] == log[stop - 1];
    }
  }

  /** A subscriber whose cursor fits gets the next page after it. */
  lemma SubscribeServes(g: Gateway, cfg: Config, o: Observer, ref: string, a: Association, log: seq<Event>, c: Cursor, limit: nat, now: int)
    requires Access(g.associations, o, ref) == Ok(a) && a.ref.associationRef == ref && Streams(a, log, cfg.retention)
    requires CursorFits(a, Some(c), c.lastSequence, now) && Floor(a) <= c.lastSequence < |log| && GoodLimit(limit)
    ensures Subscribe(g, cfg, o, ref, Some(c), limit, now) == Ok(NextPage(cfg, a, log, c.lastSequence, limit, now))
  {
    PageExact(a, log, cfg.retention, c.lastSequence, limit, Some(c), now);
    var page := log[c.lastSequence..NextStop(log, c.lastSequence, limit)];
    assert page[|page| - 1] == log[c.lastSequence + |page| - 1];
    assert Take(page, limit) == page;
  }

  lemma StreamsOf(g: Gateway, cfg: Config, ref: string)
    requires Inv(g, cfg) && cfg.retention >= 1 && ref in g.associations
    ensures StreamInv(g, cfg, ref)
    ensures Streams(g.associations[ref], g.emitted[g.associations[ref].epoch], cfg.retention)
  {
    assert StreamInv(g, cfg, ref);
    var a := g.associations[ref];
    assert Proper(g.emitted[a.epoch], a.epoch);
  }

  /** Keep asking for the next page with the cursor of the last one, until something other than a page comes back. */
  function Drain(g: Gateway, cfg: Config, o: Observer, ref: string, epoch: Epoch, after: nat, cursor: Option<Cursor>,
                 limit: nat -> nat, time: nat -> int, k: nat, calls: nat): (seq<Event>, Option<Error>)
    decreases calls
  {
    if calls == 0 then ([], None)
    else
      match Replay(g, cfg, o, Window(ref, epoch, after, limit(k)), cursor, time(k))
      case Err(e) => ([], Some(e))
      case Ok(page) =>
        var (rest, stopped) := Drain(g, cfg, o, ref, epoch, page.cursor.lastSequence, Some(page.cursor), limit, time, k + 1, calls - 1);
        (page.events + rest, stopped)
  }

  ghost predicate Tick(time: nat -> int, ttl: int, i: nat) { time(i) <= time(i + 1) < time(i) + ttl }

  /** Pages are requested in order of time, each before the previous page's cursor expires. */
  ghost predicate Clocked(time: nat -> int, ttl: int) { forall i: nat :: Tick(time, ttl, i) }

  lemma {:induction false} DrainExact(
    g: Gateway, cfg: Config, o: Observer, a: Association, log: seq<Event>, after: nat, cursor: Option<Cursor>,
    limit: nat -> nat, time: nat -> int, k: nat, calls: nat)
    requires Access(g.associations, o, a.ref.associationRef) == Ok(a) && Streams(a, log, cfg.retention)
    requires Floor(a) <= after <= |log| < after + calls
    requires Clocked(time, cfg.activationTtl) && forall i: nat :: GoodLimit(limit(i))
    requires CursorFits(a, cursor, after, time(k))
    ensures Drain(g, cfg, o, a.ref.associationRef, a.epoch, after, cursor, limit, time, k, calls)
              == (log[after..], Some(NoNewEvents))
    decreases calls
  {
    assert GoodLimit(limit(k));
    ServeExact(cfg, a, log, after, limit(k), cursor, time(k));
    if after < |log| {
      var page := NextPage(cfg, a, log, after, limit(k), time(k));
      assert Tick(time, cfg.activationTtl, k);
      DrainExact(g, cfg, o, a, log, page.cursor.lastSequence, Some(page.cursor), limit, time, k + 1, calls - 1);
      PageThenRest(log, after, limit(k));
    } else {
      assert log[after..] == [];
    }
  }

  lemma PageThenRest(log: seq<Event>, after: nat, limit: nat)
    requires after <= |log|
    ensures log[after..NextStop(log, after, limit)] + log[NextStop(log, after, limit)..] == log[after..]
  {
  }

  /** From any position inside the window, for any page sizes, paging delivers every later event once and in order. */
  lemma PagedReplayComplete(
    g: Gateway, cfg: Config, o: Observer, ref: string, after: nat, cursor: Option<Cursor>,
    limit: nat -> nat, time: nat -> int, k: nat, calls: nat)
    requires Inv(g, cfg) && cfg.retention >= 1 && Access(g.associations, o, ref).Ok?
    requires Floor(g.associations[ref]) <= after <= g.associations[ref].sequence
    requires Clocked(time, cfg.activationTtl) && forall i: nat :: GoodLimit(limit(i))
    requires CursorFits(g.associations[ref], cursor, after, time(k))
    requires calls > g.associations[ref].sequence - after
    ensures StreamInv(g, cfg, ref)
    ensures var a := g.associations[ref];
            Drain(g, cfg, o, ref, a.epoch, after, cursor, limit, time, k, calls)
              == (g.emitted[a.epoch][after..], Some(NoNewEvents))
  {
    StreamsOf(g, cfg, ref);
    var a := g.associations[ref];
    DrainExact(g, cfg, o, a, g.emitted[a.epoch], after, cursor, limit, time, k, calls);
  }

  // ----- the gateway itself

  class FakeGateway {
    const cfg: Config
    var counter: nat
    var tickets: map<TicketRef, Ticket>
    var associations: map<string, Association>
    var resetGeneration: nat
    ghost var emitted: map<Epoch, seq<Event>>
    ghost var run: seq<Op>

    ghost function View(): Gateway
      reads this
    {
      Gateway(counter, tickets, associations, resetGeneration, emitted)
    }

    ghost predicate Valid()
      reads this
    {
      cfg.retention >= 1 && View() == Run(cfg, run)
    }

    ghost predicate Performed(before: seq<Op>, op: Op)
      reads this
    {
      run == before + [op] && Valid()
    }

    constructor (cfg: Config)
      requires cfg.retention >= 1
      ensures Valid() && run == [] && this.cfg == cfg
    {
      this.cfg := cfg;
      counter, tickets, associations, resetGeneration := 0, map[], map[], 0;
      emitted, run := map[], [];
    }

    ghost method Record(op: Op)
      requires cfg.retention >= 1 && View() == Step(Run(cfg, run), cfg, op)
      modifies this`run
      ensures Performed(old(run), op)
    {
      RunOne(cfg, run, op);
      run := run + [op];
    }

    method IssueActivation(b: Binding, now: int) returns (r: Result<TicketRef, Error>)
      requires Valid()
      modifies this
      ensures Performed(old(run), OpIssue(b, now)) && r == Issue(old(View()), cfg, b, now).1
    {
      if b.purpose == "" {
        r := Err(InvalidRequest);
      } else if b.purpose != PURPOSE {
        r := Err(CapabilityDenied);
      } else {
        var requested := AssociationRef(b.associationRef, b.sessionRef, b.ownerRef, b.profileRef, b.workspaceRef, UserOwnedSession);
        if b.associationRef in associations &&
           (associations[b.associationRef].ref != requested || associations[b.associationRef].binding != b) {
          r := Err(ActivationInvalid);
        } else {
          counter := counter + 1;
          var t := TicketRef(counter, resetGeneration);
          tickets := tickets[t := Ticket(b, now, now + cfg.activationTtl, None, None)];
          r := Ok(t);
        }
      }
      Record(OpIssue(b, now));
    }

    method ConsumeActivation(o: Observer, t: TicketRef, candidate: Binding, operation: string, ownership: Ownership, now: int)
      returns (r: Result<AssociationRef, Error>)
      requires Valid()
      modifies this
      ensures Performed(old(run), OpConsume(o, t, candidate, operation, ownership, now))
      ensures r == Consume(old(View()), cfg, o, t, candidate, operation, ownership, now).1
    {
      ghost var g := View();
      if operation == "" {
        r := Err(InvalidRequest);
      } else if candidate.purpose != PURPOSE {
        r := Err(CapabilityDenied);
      } else if t !in tickets {
        r := Err(ActivationInvalid);
      } else {
        var item := tickets[t];
        if !Owns(o, item.binding) || candidate.(observerRef := o.observerRef) != item.binding || now >= item.expiresAt {
          r := Err(ActivationInvalid);
        } else if item.consumedOperation.Some? {
          if item.consumedOperation.value == operation && item.association.Some? {
            r := Ok(item.association.value);
          } else {
            r := Err(ActivationInvalid);
          }
        } else if ownership == FleetOwnedTask {
          r := Err(CapabilityDenied);
        } else {
          var a := AssociationRef(candidate.associationRef, candidate.sessionRef, candidate.ownerRef,
                                  candidate.profileRef, candidate.workspaceRef, ownership);
          if a.associationRef in associations &&
             (associations[a.associationRef].ref != a || associations[a.associationRef].binding != item.binding) {
            r := Err(ActivationInvalid);
          } else {
            tickets := tickets[t := item.(consumedOperation := Some(operation), association := Some(a))];
            if a.associationRef !in associations {
              counter := counter + 1;
              var epoch := Epoch(counter);
              emitted := emitted[epoch := []];
              var event := Append(a.associationRef, Association(a, item.binding, epoch, Observing, 0, 0, None, now, 0, [], false),
                                  Registered(0), now);
              assert emitted[epoch] == [event];
              assert emitted == g.emitted[epoch := [event]];
            }
            r := Ok(a);
          }
        }
      }
      assert (View(), r) == Consume(g, cfg, o, t, candidate, operation, ownership, now);
      Record(OpConsume(o, t, candidate, operation, ownership, now));
    }

    /** Number and retain one more event; everything older than the retention bound is dropped. */
    method Append(ref: string, a: Association, body: Body, now: int) returns (event: Event)
      requires a.epoch in emitted
      modifies this`associations, this`emitted
      ensures event == AppendEvent(cfg, a, body, now).1
      ensures associations == old(associations)[ref := AppendEvent(cfg, a, body, now).0]
      ensures emitted == old(emitted)[a.epoch := old(emitted)[a.epoch] + [event]]
    {
      event := NewEvent(a, body, now);
      var events := a.events + [event];
      if |events| > cfg.retention { events := events[|events| - cfg.retention..]; }
      associations := associations[ref := a.(sequence := a.sequence + 1, events := events)];
      emitted := emitted[a.epoch := emitted[a.epoch] + [event]];
    }

    method Heartbeat(o: Observer, ref: string, now: int) returns (r: Result<(Snapshot, Event), Error>)
      requires Valid()
      modifies this
      ensures Performed(old(run), OpBeat(o, ref, now)) && r == Beat(old(View()), cfg, o, ref, now).1
    {
      ghost var g := View();
      Reachable(cfg, run);
      var access := Access(associations, o, ref);
      if access.Err? {
        r := Err(access.error);
      } else {
        assert StreamInv(g, cfg, ref);
        var a := access.value;
        var beaten := a.(heartbeatAt := Some(now), heartbeatSequence := a.heartbeatSequence + 1);
        var event := Append(ref, beaten, Body.Heartbeat(beaten.heartbeatSequence, now, cfg.heartbeatTtl), now);
        r := Ok((SnapshotOf(associations[ref]), event));
      }
      assert (View(), r) == Beat(g, cfg, o, ref, now);
      Record(OpBeat(o, ref, now));
    }

    method RevokeAssociation(o: Observer, ref: string, now: int) returns (r: Result<Option<Event>, Error>)
      requires Valid()
      modifies this
      ensures Performed(old(run), OpRevoke(o, ref, now)) && r == Revoke(old(View()), cfg, o, ref, now).1
    {
      Reachable(cfg, run);
      if ref !in associations {
        r := Err(AssociationRequired);
      } else if !Owns(o, associations[ref].binding) {
        r := Err(ForeignOwner);
      } else if associations[ref].revoked {
        r := Ok(None);
      } else {
        assert StreamInv(View(), cfg, ref);
        var a := associations[ref];
        var event := Append(ref, a.(revoked := true, status := Detached), SessionDetached(a.metadataVersion), now);
        r := Ok(Some(event));
      }
      Record(OpRevoke(o, ref, now));
    }

    /** End one association if its heartbeat is overdue. */
    method ExpireOne(ref: string, now: int) returns (ended: bool)
      requires Valid() && ref in associations
      modifies this
      ensures Performed(old(run), OpExpire(ref, now))
      ensures ended == IsStale(cfg, old(associations)[ref], now)
      ensures associations == if ended then old(associations)[ref := Expired(cfg, old(associations)[ref], now)] else old(associations)
    {
      Reachable(cfg, run);
      assert StreamInv(View(), cfg, ref);
      var a := associations[ref];
      ended := IsStale(cfg, a, now);
      if ended {
        var _ := Append(ref, Ending(a), SessionEnded(a.metadataVersion), now);
      }
      Record(OpExpire(ref, now));
    }

    /** End every association whose heartbeat is overdue; nothing else changes. */
    method ExpireStale(now: int) returns (changed: nat)
      requires Valid()
      modifies this
      ensures Valid() && old(run) <= run
      ensures associations.Keys == old(associations).Keys && changed <= |associations|
      ensures forall r | r in associations :: associations[r] == Expired(cfg, old(associations)[r], now)
    {
      var todo := associations.Keys;
      changed := 0;
      while todo != {}
        invariant Valid() && old(run) <= run
        invariant associations.Keys == old(associations).Keys && todo <= associations.Keys
        invariant changed + |todo| <= |associations.Keys|
        invariant forall r | r in associations ::
                    associations[r] == if r in todo then old(associations)[r] else Expired(cfg, old(associations)[r], now)
      {
        var r :| r in todo;
        var ended := ExpireOne(r, now);
        if ended { changed := changed + 1; }
        todo := todo - {r};
      }
    }

    method ResetAll()
      requires Valid()
      modifies this
      ensures Performed(old(run), OpReset)
    {
      resetGeneration := resetGeneration + 1;
      tickets, associations := map[], map[];
      Record(OpReset);
    }

    method Snapshot(o: Observer, ref: string) returns (r: Result<Snapshot, Error>)
      ensures r == TakeSnapshot(View(), o, ref)
    {
      var access := Access(associations, o, ref);
      if access.Err? { return Err(access.error); }
      r := Ok(SnapshotOf(access.value));
    }

    method SubscribeFrom(o: Observer, ref: string, cursor: Option<Cursor>, limit: nat, now: int) returns (r: Result<Delivery, Error>)
      ensures r == Subscribe(View(), cfg, o, ref, cursor, limit, now)
    {
      var access := Access(associations, o, ref);
      if access.Err? { return Err(access.error); }
      var a := access.value;
      if !GoodLimit(limit) { return Err(InvalidRequest); }
      var events, fallback := a.events, a.sequence;
      if cursor.Some? {
        fallback := cursor.value.lastSequence;
        var page := Page(a, Window(ref, a.epoch, cursor.value.lastSequence, limit), cursor, now);
        if page.Err? { return Err(page.error); }
        events := page.value;
      }
      if |events| > limit { events := events[..limit]; }
      var last := if events != [] then events[|events| - 1].sequence else fallback;
      r := Ok(Delivery(SnapshotOf(a), events, CursorAt(cfg, a, last, now)));
    }

    method ReplayWindow(o: Observer, w: Window, cursor: Option<Cursor>, now: int) returns (r: Result<Delivery, Error>)
      ensures r == Replay(View(), cfg, o, w, cursor, now)
    {
      if !GoodLimit(w.limit) { return Err(InvalidRequest); }
      var access := Access(associations, o, w.associationRef);
      if access.Err? { return Err(access.error); }
      var page := Page(access.value, w, cursor, now);
      if page.Err? { return Err(page.error); }
      var events := page.value;
      if events == [] { return Err(NoNewEvents); }
      r := Ok(Delivery(SnapshotOf(access.value), events, CursorAt(cfg, access.value, events[|events| - 1].sequence, now)));
    }

    method Events(o: Observer, ref: string, limit: nat) returns (r: Result<seq<Event>, Error>)
      ensures r == RetainedView(View(), o, ref, limit)
    {
      if !GoodLimit(limit) || ref == "" { return Err(InvalidRequest); }
      if ref !in associations { return Ok([]); }
      if !Owns(o, associations[ref].binding) { return Err(ForeignOwner); }
      if |associations[ref].events| > limit { return Err(InvalidEvent); }
      r := Ok(associations[ref].events);
    }
  }
}
