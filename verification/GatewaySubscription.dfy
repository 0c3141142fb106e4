/**
  The subscription store: ingestion of a contiguous history, per-subscriber outbox,
  retriable acknowledgements and a delivery cursor.

  The store's operations are total functions on a value (`Step`); a run is a sequence of
  operations applied to the empty store.  The class at the end performs the same operations in
  place and keeps the run it has performed in a ghost field.
*/
module GatewaySubscription {
  import opened Wrappers

  const IDLE_TTL: real := 90.0
  const GRACE: real := 60.0
  const CURSOR_TTL: real := 900.0

  datatype EventRecord = EventRecord(sequence: int, eventId: string)

  datatype Code =
    | Delivered | NoNewEvents | InvalidRequest | InvalidProvenance
    | AssociationRequired | AssociationStale | CursorStale | CursorExpired | ReplayGap

  datatype Liveness = Observing | Reconnecting | Stale | Detached

  datatype Subscription = Subscription(
    associationRef: string, streamEpoch: string, boundaryRef: string,
    snapshotSequence: int, cursorSeq: int, cursorIssuedAt: real,
    lastHeartbeatAt: real, lastHeartbeatSeq: int, deliveredUpto: int, state: Liveness)

  datatype ReadResult = ReadResult(outcome: Code, events: seq<EventRecord>, resyncRequired: bool)

  datatype Store = Store(
    history: seq<EventRecord>, eventIds: map<string, int>, ingestionCursor: int, retentionFloor: int,
    subscriptions: map<string, Subscription>, outbox: map<string, seq<int>>,
    tombstones: set<string>, audit: seq<(string, Code)>)

  const EMPTY := Store([], map[], 0, 0, map[], map[], {}, [])

  // ----- helpers the operations are written with

  function After(history: seq<EventRecord>, cursor: int): seq<EventRecord> {
    if history == [] then []
    else (if history[0].sequence > cursor then [history[0]] else []) + After(history[1..], cursor)
  }

  function AppendMissing(outbox: seq<int>, events: seq<EventRecord>): seq<int> {
    if events == [] then outbox
    else
      var sofar := AppendMissing(outbox, events[..|events| - 1]);
      var q := events[|events| - 1].sequence;
      if q in sofar then sofar else sofar + [q]
  }

  function RemoveFirst(outbox: seq<int>, q: int): seq<int> {
    if outbox == [] then []
    else if outbox[0] == q then outbox[1..]
    else [outbox[0]] + RemoveFirst(outbox[1..], q)
  }

  function Advance(cursor: int, deliveredUpto: int, outbox: seq<int>): int
    decreases deliveredUpto - cursor
  {
    if cursor < deliveredUpto && cursor + 1 !in outbox then Advance(cursor + 1, deliveredUpto, outbox) else cursor
  }

  function Derive(sub: Subscription, now: real): Subscription {
    var idle := now - sub.lastHeartbeatAt;
    var s1 := if sub.state == Observing && idle > IDLE_TTL then sub.(state := Reconnecting) else sub;
    if s1.state == Reconnecting && idle > IDLE_TTL + GRACE then s1.(state := Stale) else s1
  }

  function Max(a: int, b: int): int { if a < b then b else a }

  // ----- the operations

  datatype Op =
    | Subscribe(ref: string, associationRef: string, epoch: string, boundary: string, snapshot: int, now: real)
    | Append(sequence: int, eventId: string)
    | Prune(upTo: int)
    | Heartbeat(ref: string, heartbeat: int, now: real)
    | Evaluate(ref: string, now: real)
    | Read(ref: string, epoch: string, now: real)
    | Ack(ref: string, sequence: int)
    | Detach(ref: string)

  datatype Reply = Answer(accepted: bool) | Live(state: Option<Liveness>) | Batch(result: ReadResult)

  function Audited(s: Store, who: string, code: Code): Store { s.(audit := s.audit + [(who, code)]) }

  function Denied(s: Store, ref: string, code: Code, resync: bool): (Store, Reply) {
    (Audited(s, ref, code), Batch(ReadResult(code, [], resync)))
  }

  function DoSubscribe(s: Store, ref: string, associationRef: string, epoch: string, boundary: string,
                       snapshot: int, now: real): (Store, Reply)
  {
    if ref == "" || associationRef == "" || epoch == "" || boundary == "" || ref in s.tombstones then (s, Answer(false))
    else
      var sub := Subscription(associationRef, epoch, boundary, snapshot, snapshot, now, now, 0, 0, Observing);
      (s.(subscriptions := s.subscriptions[ref := sub], outbox := s.outbox[ref := []]), Answer(true))
  }

  function DoAppend(s: Store, sequence: int, eventId: string): (Store, Reply) {
    if sequence != s.ingestionCursor + 1 || sequence <= s.retentionFloor then (s, Answer(false))
    else if eventId in s.eventIds then (Audited(s, eventId, InvalidProvenance), Answer(false))
    else (s.(history := s.history + [EventRecord(sequence, eventId)],
             eventIds := s.eventIds[eventId := sequence], ingestionCursor := sequence), Answer(true))
  }

  function DoPrune(s: Store, upTo: int): (Store, Reply) {
    var floor := Max(s.retentionFloor, upTo);
    (s.(retentionFloor := floor, history := After(s.history, floor)), Answer(true))
  }

  function DoHeartbeat(s: Store, ref: string, heartbeat: int, now: real): (Store, Reply) {
    if ref !in s.subscriptions || ref in s.tombstones then (Audited(s, ref, AssociationRequired), Answer(false))
    else
      var sub := Derive(s.subscriptions[ref], now);
      var t := s.(subscriptions := s.subscriptions[ref := sub]);
      if sub.state != Observing && sub.state != Reconnecting then (Audited(t, ref, AssociationStale), Answer(false))
      else if heartbeat <= sub.lastHeartbeatSeq then (Audited(t, ref, InvalidRequest), Answer(false))
      else
        var beaten := sub.(lastHeartbeatSeq := heartbeat, lastHeartbeatAt := now, state := Observing);
        (s.(subscriptions := s.subscriptions[ref := beaten]), Answer(true))
  }

  function DoEvaluate(s: Store, ref: string, now: real): (Store, Reply) {
    if ref !in s.subscriptions then (s, Live(None))
    else
      var sub := Derive(s.subscriptions[ref], now);
      (s.(subscriptions := s.subscriptions[ref := sub]), Live(Some(sub.state)))
  }

  function DoRead(s: Store, ref: string, epoch: string, now: real): (Store, Reply) {
    if ref !in s.subscriptions || ref in s.tombstones then Denied(s, ref, AssociationRequired, false)
    else if epoch != s.subscriptions[ref].streamEpoch then Denied(s, ref, CursorStale, true)
    else
      var sub := Derive(s.subscriptions[ref], now);
      var t := s.(subscriptions := s.subscriptions[ref := sub]);
      if sub.state == Stale then Denied(t, ref, AssociationStale, false)
      else if now - sub.cursorIssuedAt > CURSOR_TTL then Denied(t, ref, CursorExpired, true)
      else if sub.cursorSeq < s.retentionFloor then Denied(t, ref, ReplayGap, true)
      else
        var events := After(s.history, sub.cursorSeq);
        if events == [] then (t, Batch(ReadResult(NoNewEvents, [], false)))
        else
          var ob := AppendMissing(if ref in s.outbox then s.outbox[ref] else [], events);
          var read := sub.(deliveredUpto := Max(sub.deliveredUpto, events[|events| - 1].sequence));
          (t.(subscriptions := t.subscriptions[ref := read], outbox := s.outbox[ref := ob]),
           Batch(ReadResult(Delivered, events, false)))
  }

  function DoAck(s: Store, ref: string, sequence: int): (Store, Reply) {
    if ref !in s.subscriptions || ref in s.tombstones || ref !in s.outbox then
      (Audited(s, ref, AssociationRequired), Answer(false))
    else if sequence !in s.outbox[ref] then (Audited(s, ref, InvalidRequest), Answer(false))
    else
      var ob := RemoveFirst(s.outbox[ref], sequence);
      var sub := s.subscriptions[ref];
      var acked := sub.(cursorSeq := Advance(sub.cursorSeq, sub.deliveredUpto, ob));
      (s.(subscriptions := s.subscriptions[ref := acked], outbox := s.outbox[ref := ob]), Answer(true))
  }

  function DoDetach(s: Store, ref: string): (Store, Reply) {
    if ref !in s.subscriptions then (s, Answer(false))
    else (s.(tombstones := s.tombstones + {ref},
             subscriptions := s.subscriptions[ref := s.subscriptions[ref].(state := Detached)],
             outbox := s.outbox[ref := []]), Answer(true))
  }

  function Step(s: Store, op: Op): (Store, Reply) {
    match op
    case Subscribe(ref, a, e, b, snapshot, now) => DoSubscribe(s, ref, a, e, b, snapshot, now)
    case Append(q, id) => DoAppend(s, q, id)
    case Prune(n) => DoPrune(s, n)
    case Heartbeat(ref, h, now) => DoHeartbeat(s, ref, h, now)
    case Evaluate(ref, now) => DoEvaluate(s, ref, now)
    case Read(ref, e, now) => DoRead(s, ref, e, now)
    case Ack(ref, q) => DoAck(s, ref, q)
    case Detach(ref) => DoDetach(s, ref)
  }

  // ----- runs

  function State(run: seq<Op>): Store {
    if run == [] then EMPTY else Step(State(run[..|run| - 1]), run[|run| - 1]).0
  }

  function ReplyAt(run: seq<Op>): Reply
    requires run != []
  {
    Step(State(run[..|run| - 1]), run[|run| - 1]).1
  }

  function Sequences(events: seq<EventRecord>): set<int> { set e | e in events :: e.sequence }

  function NowDelivered(before: set<int>, op: Op, reply: Reply, ref: string): set<int> {
    match (op, reply)
    case (Subscribe(r, _, _, _, _, _), Answer(true)) => if r == ref then {} else before
    case (Read(r, _, _), Batch(result)) => if r == ref then before + Sequences(result.events) else before
    case _ => before
  }

  function NowAcked(before: set<int>, op: Op, reply: Reply, ref: string): set<int> {
    match (op, reply)
    case (Subscribe(r, _, _, _, _, _), Answer(true)) => if r == ref then {} else before
    case (Ack(r, q), Answer(true)) => if r == ref then before + {q} else before
    case _ => before
  }

  /** What reads have handed to a subscriber since its last accepted subscribe. */
  function DeliveredTo(run: seq<Op>, ref: string): set<int> {
    if run == [] then {} else NowDelivered(DeliveredTo(run[..|run| - 1], ref), run[|run| - 1], ReplyAt(run), ref)
  }

  /** What the subscriber has successfully acknowledged since its last accepted subscribe. */
  function AckedBy(run: seq<Op>, ref: string): set<int> {
    if run == [] then {} else NowAcked(AckedBy(run[..|run| - 1], ref), run[|run| - 1], ReplyAt(run), ref)
  }

  lemma Extend(run: seq<Op>, op: Op)
    ensures State(run + [op]) == Step(State(run), op).0
    ensures ReplyAt(run + [op]) == Step(State(run), op).1
    ensures forall ref :: DeliveredTo(run + [op], ref) == NowDelivered(DeliveredTo(run, ref), op, ReplyAt(run + [op]), ref)
    ensures forall ref :: AckedBy(run + [op], ref) == NowAcked(AckedBy(run, ref), op, ReplyAt(run + [op]), ref)
  {
    assert (run + [op])[..|run|] == run;
  }

  lemma StepOn(run: seq<Op>, op: Op)
    ensures State(run + [op]) == Step(State(run), op).0 && ReplyAt(run + [op]) == Step(State(run), op).1
  {
    assert (run + [op])[..|run|] == run;
  }

  // ----- invariants

  ghost predicate Contiguous(history: seq<EventRecord>, low: int, high: int) {
    && |history| == (if low < high then high - low else 0)
    && forall i | 0 <= i < |history| :: history[i].sequence == low + 1 + i
  }

  ghost predicate HasId(ids: map<string, int>, q: int) { exists id :: id in ids && ids[id] == q }

  /** History is exactly (floor, ingestion]; ids and sequences 1..ingestion are in bijection. */
  ghost predicate LogInv(s: Store) {
    && 0 <= s.ingestionCursor && 0 <= s.retentionFloor
    && Contiguous(s.history, s.retentionFloor, s.ingestionCursor)
    && (forall id | id in s.eventIds :: 1 <= s.eventIds[id] <= s.ingestionCursor)
    && (forall a, b | a in s.eventIds && b in s.eventIds && s.eventIds[a] == s.eventIds[b] :: a == b)
    && (forall q | 1 <= q <= s.ingestionCursor :: HasId(s.eventIds, q))
    && (forall e | e in s.history :: e.eventId in s.eventIds && s.eventIds[e.eventId] == e.sequence)
  }

  ghost predicate NoDuplicates(xs: seq<int>) { forall i, j | 0 <= i < j < |xs| :: xs[i] != xs[j] }

  ghost predicate CursorInv(sub: Subscription, ob: seq<int>, live: bool, delivered: set<int>, acked: set<int>) {
    && sub.snapshotSequence <= sub.cursorSeq
    && (forall q | sub.snapshotSequence < q <= sub.cursorSeq :: q in delivered && q in acked)
    && (!live ==> ob == [] && sub.state == Detached)
    && (live ==>
          && NoDuplicates(ob)
          && (forall q | q in ob :: sub.cursorSeq < q <= sub.deliveredUpto)
          && (sub.cursorSeq < 0 ==> ob == [] && sub.cursorSeq == sub.snapshotSequence)
          && (sub.cursorSeq >= 0 ==>
                && (forall q | sub.cursorSeq < q <= sub.deliveredUpto :: q in delivered && (q in ob || q in acked))
                && (sub.cursorSeq < sub.deliveredUpto ==> sub.cursorSeq + 1 in ob)))
  }

  ghost predicate SubsInv(s: Store) {
    && s.outbox.Keys == s.subscriptions.Keys
    && s.tombstones <= s.subscriptions.Keys
    && (forall ref | ref in s.subscriptions :: s.subscriptions[ref].deliveredUpto <= s.ingestionCursor)
  }

  // ----- lemmas about the helpers

  lemma {:induction false} AfterIsDrop(h: seq<EventRecord>, low: int, high: int, cursor: int)
    requires Contiguous(h, low, high)
    ensures low <= cursor <= high ==> After(h, cursor) == h[cursor - low..]
    ensures cursor <= low ==> After(h, cursor) == h
    ensures high <= cursor ==> After(h, cursor) == []
  {
    if h != [] {
      assert h[0].sequence == low + 1;
      assert h == [h[0]] + h[1..];
      AfterIsDrop(h[1..], low + 1, high, cursor);
      if low < cursor <= high {
        assert h[1..][cursor - low - 1..] == h[cursor - low..];
      }
    }
  }

  lemma AfterKeeps(h: seq<EventRecord>, cursor: int)
    ensures forall e | e in After(h, cursor) :: e in h
  {
  }

  lemma AppendMissingSpec(ob: seq<int>, events: seq<EventRecord>)
    ensures forall q :: q in AppendMissing(ob, events) <==> q in ob || q in Sequences(events)
    ensures NoDuplicates(ob) ==> NoDuplicates(AppendMissing(ob, events))
  {
    if events != [] {
      var front, last := events[..|events| - 1], events[|events| - 1];
      AppendMissingSpec(ob, front);
      assert events == front + [last];
      assert Sequences(events) == Sequences(front) + {last.sequence};
    }
  }

  lemma RemoveFirstSpec(ob: seq<int>, q: int)
    requires NoDuplicates(ob)
    ensures NoDuplicates(RemoveFirst(ob, q))
    ensures forall x :: x in RemoveFirst(ob, q) <==> x in ob && x != q
  {
    if ob != [] {
      RemoveFirstSpec(ob[1..], q);
      assert ob == [ob[0]] + ob[1..];
      assert ob[0] !in ob[1..];
    }
  }

  lemma AdvanceSpec(cursor: int, upTo: int, ob: seq<int>)
    ensures var c := Advance(cursor, upTo, ob);
            && cursor <= c && (c <= upTo || c == cursor)
            && (forall q | cursor < q <= c :: q !in ob)
            && (c < upTo ==> c + 1 in ob)
    decreases upTo - cursor
  {
    if cursor < upTo && cursor + 1 !in ob {
      AdvanceSpec(cursor + 1, upTo, ob);
    }
  }

  // ----- every step keeps the invariants

  lemma AppendKeepsLog(s: Store, q: int, id: string)
    requires LogInv(s)
    ensures LogInv(DoAppend(s, q, id).0)
  {
    var t := DoAppend(s, q, id).0;
    if t.ingestionCursor != s.ingestionCursor {
      forall k | 1 <= k <= q
        ensures HasId(t.eventIds, k)
      {
        if k < q {
          assert HasId(s.eventIds, k);
          var known :| known in s.eventIds && s.eventIds[known] == k;
          assert known in t.eventIds && t.eventIds[known] == k;
        } else {
          assert id in t.eventIds && t.eventIds[id] == k;
        }
      }
    }
  }

  lemma PruneKeepsLog(s: Store, upTo: int)
    requires LogInv(s)
    ensures LogInv(DoPrune(s, upTo).0)
  {
    var floor := Max(s.retentionFloor, upTo);
    AfterIsDrop(s.history, s.retentionFloor, s.ingestionCursor, floor);
    AfterKeeps(s.history, floor);
  }

  lemma OthersKeepLog(s: Store, op: Op)
    requires !op.Append? && !op.Prune?
    ensures var t := Step(s, op).0;
            && t.history == s.history && t.eventIds == s.eventIds
            && t.ingestionCursor == s.ingestionCursor && t.retentionFloor == s.retentionFloor
  {
  }

  lemma LogStep(s: Store, op: Op)
    requires LogInv(s)
    ensures LogInv(Step(s, op).0)
  {
    match op
    case Append(q, id) => AppendKeepsLog(s, q, id);
    case Prune(n) => PruneKeepsLog(s, n);
    case _ => OthersKeepLog(s, op);
  }

  /** A read that returns events returns exactly cursor+1 .. ingestion, in order. */
  lemma ReadExact(s: Store, ref: string, epoch: string, now: real)
    requires LogInv(s)
    requires DoRead(s, ref, epoch, now).1.result.outcome == Delivered
    ensures ref in s.subscriptions && ref !in s.tombstones
    ensures var events := DoRead(s, ref, epoch, now).1.result.events;
            && events != []
            && Contiguous(events, s.subscriptions[ref].cursorSeq, s.ingestionCursor)
  {
    AfterIsDrop(s.history, s.retentionFloor, s.ingestionCursor, s.subscriptions[ref].cursorSeq);
  }

  lemma ContiguousSequences(events: seq<EventRecord>, low: int, high: int)
    requires Contiguous(events, low, high)
    ensures forall q :: q in Sequences(events) <==> low < q <= high
  {
    forall q | low < q <= high
      ensures q in Sequences(events)
    {
      assert events[q - low - 1].sequence == q;
    }
  }

  lemma ReadKeepsSubs(s: Store, ref: string, epoch: string, now: real)
    requires LogInv(s) && SubsInv(s)
    ensures SubsInv(DoRead(s, ref, epoch, now).0)
  {
    if DoRead(s, ref, epoch, now).1.result.outcome == Delivered { ReadExact(s, ref, epoch, now); }
  }

  lemma OthersKeepSubs(s: Store, op: Op)
    requires !op.Read?
    requires LogInv(s) && SubsInv(s)
    ensures SubsInv(Step(s, op).0)
  {
  }

  lemma SubsStep(s: Store, op: Op)
    requires LogInv(s) && SubsInv(s)
    ensures SubsInv(Step(s, op).0)
  {
    if op.Read? { ReadKeepsSubs(s, op.ref, op.epoch, op.now); } else { OthersKeepSubs(s, op); }
  }

  ghost predicate CursorOk(s: Store, ref: string, delivered: set<int>, acked: set<int>) {
    && ref in s.subscriptions && ref in s.outbox
    && CursorInv(s.subscriptions[ref], s.outbox[ref], ref !in s.tombstones, delivered, acked)
  }

  ghost predicate StepKeepsCursor(s: Store, op: Op, ref: string, d: set<int>, a: set<int>) {
    var (t, reply) := Step(s, op);
    CursorOk(t, ref, NowDelivered(d, op, reply, ref), NowAcked(a, op, reply, ref))
  }

  /** What a delivering read does to the record: only the delivery frontier and the outbox move. */
  lemma ReadEffect(s: Store, ref: string, epoch: string, now: real)
    requires LogInv(s) && SubsInv(s) && DoRead(s, ref, epoch, now).1.result.outcome == Delivered
    ensures var (t, reply) := DoRead(s, ref, epoch, now);
            && ref in s.subscriptions && ref in t.subscriptions && t.tombstones == s.tombstones && ref in t.outbox
            && var (before, after) := (s.subscriptions[ref], t.subscriptions[ref]);
            && after.snapshotSequence == before.snapshotSequence && after.cursorSeq == before.cursorSeq
            && 0 <= before.cursorSeq
            && after.deliveredUpto == s.ingestionCursor
            && t.outbox[ref] == AppendMissing(s.outbox[ref], reply.result.events)
            && (forall q :: q in Sequences(reply.result.events) <==> before.cursorSeq < q <= s.ingestionCursor)
  {
    ReadExact(s, ref, epoch, now);
    ContiguousSequences(DoRead(s, ref, epoch, now).1.result.events, s.subscriptions[ref].cursorSeq, s.ingestionCursor);
  }

  /** A record whose frontier moved to `upto` with everything above its cursor delivered and queued. */
  lemma CursorAfterRead(before: Subscription, after: Subscription, ob: seq<int>, events: seq<EventRecord>, upto: int,
                        d: set<int>, a: set<int>)
    requires CursorInv(before, ob, true, d, a) && 0 <= before.cursorSeq && before.deliveredUpto <= upto
    requires after.snapshotSequence == before.snapshotSequence && after.cursorSeq == before.cursorSeq && after.deliveredUpto == upto
    requires forall q :: q in Sequences(events) <==> before.cursorSeq < q <= upto
    ensures CursorInv(after, AppendMissing(ob, events), true, d + Sequences(events), a)
  {
    AppendMissingSpec(ob, events);
  }

  lemma ReadMovesForward(s: Store, ref: string, epoch: string, now: real, d: set<int>, a: set<int>)
    requires LogInv(s) && SubsInv(s) && CursorOk(s, ref, d, a) && DoRead(s, ref, epoch, now).1.result.outcome == Delivered
    ensures ref !in s.tombstones && s.subscriptions[ref].deliveredUpto <= s.ingestionCursor
  {
    ReadExact(s, ref, epoch, now);
  }

  lemma CursorStepDelivered(s: Store, op: Op, d: set<int>, a: set<int>)
    requires op.Read? && LogInv(s) && SubsInv(s) && CursorOk(s, op.ref, d, a)
    requires DoRead(s, op.ref, op.epoch, op.now).1.result.outcome == Delivered
    ensures StepKeepsCursor(s, op, op.ref, d, a)
  {
    var (t, reply) := DoRead(s, op.ref, op.epoch, op.now);
    ReadEffect(s, op.ref, op.epoch, op.now);
    ReadMovesForward(s, op.ref, op.epoch, op.now, d, a);
    CursorAfterRead(s.subscriptions[op.ref], t.subscriptions[op.ref], s.outbox[op.ref], reply.result.events,
                    s.ingestionCursor, d, a);
  }

  lemma CursorStepRead(s: Store, op: Op, d: set<int>, a: set<int>)
    requires op.Read? && LogInv(s) && SubsInv(s) && CursorOk(s, op.ref, d, a)
    ensures StepKeepsCursor(s, op, op.ref, d, a)
  {
    var (t, reply) := DoRead(s, op.ref, op.epoch, op.now);
    if reply.result.outcome == Delivered {
      CursorStepDelivered(s, op, d, a);
    } else {
      assert d + Sequences(reply.result.events) == d;
    }
  }

  lemma CursorStepAck(s: Store, op: Op, d: set<int>, a: set<int>)
    requires op.Ack? && SubsInv(s) && CursorOk(s, op.ref, d, a)
    ensures StepKeepsCursor(s, op, op.ref, d, a)
  {
    if DoAck(s, op.ref, op.sequence).1.accepted {
      var sub := s.subscriptions[op.ref];
      RemoveFirstSpec(s.outbox[op.ref], op.sequence);
      AdvanceSpec(sub.cursorSeq, sub.deliveredUpto, RemoveFirst(s.outbox[op.ref], op.sequence));
    }
  }

  lemma CursorStepSubscribe(s: Store, op: Op, d: set<int>, a: set<int>)
    requires op.Subscribe? && op.ref in Step(s, op).0.subscriptions
    requires op.ref in s.subscriptions ==> CursorOk(s, op.ref, d, a)
    ensures StepKeepsCursor(s, op, op.ref, d, a)
  {
  }

  lemma CursorStepDetach(s: Store, op: Op, d: set<int>, a: set<int>)
    requires op.Detach? && CursorOk(s, op.ref, d, a)
    ensures StepKeepsCursor(s, op, op.ref, d, a)
  {
  }

  predicate Concerns(op: Op, ref: string) {
    (op.Read? || op.Ack? || op.Detach? || op.Subscribe?) && op.ref == ref
  }

  /** An operation that neither reads, acknowledges, detaches nor resubscribes `ref` leaves its cursor and outbox alone. */
  lemma CursorFrame(s: Store, op: Op, ref: string, d: set<int>, a: set<int>)
    requires !Concerns(op, ref) && CursorOk(s, ref, d, a)
    ensures StepKeepsCursor(s, op, ref, d, a)
  {
    var t := Step(s, op).0;
    var before, after := s.subscriptions[ref], t.subscriptions[ref];
    assert t.outbox[ref] == s.outbox[ref];
    assert after.snapshotSequence == before.snapshotSequence && after.cursorSeq == before.cursorSeq;
    assert after.deliveredUpto == before.deliveredUpto && (before.state == Detached ==> after.state == Detached);
  }

  lemma FreshOnlyBySubscribe(s: Store, op: Op, ref: string)
    requires ref !in s.subscriptions && ref in Step(s, op).0.subscriptions
    ensures op.Subscribe? && op.ref == ref
  {
  }

  lemma CursorStep(s: Store, op: Op, ref: string, d: set<int>, a: set<int>)
    requires LogInv(s) && SubsInv(s) && ref in Step(s, op).0.subscriptions
    requires ref in s.subscriptions ==> CursorOk(s, ref, d, a)
    ensures StepKeepsCursor(s, op, ref, d, a)
  {
    if ref !in s.subscriptions {
      FreshOnlyBySubscribe(s, op, ref);
      CursorStepSubscribe(s, op, d, a);
    } else if !Concerns(op, ref) {
      CursorFrame(s, op, ref, d, a);
    } else {
      match op
      case Read(_, _, _) => CursorStepRead(s, op, d, a);
      case Ack(_, _) => CursorStepAck(s, op, d, a);
      case Detach(_) => CursorStepDetach(s, op, d, a);
      case Subscribe(_, _, _, _, _, _) => CursorStepSubscribe(s, op, d, a);
    }
  }

  ghost predicate RunInv(run: seq<Op>) {
    && LogInv(State(run)) && SubsInv(State(run))
    && forall ref | ref in State(run).subscriptions :: CursorOk(State(run), ref, DeliveredTo(run, ref), AckedBy(run, ref))
  }

  lemma {:induction false} Reachable(run: seq<Op>)
    ensures RunInv(run)
  {
    if run != [] {
      var past, op := run[..|run| - 1], run[|run| - 1];
      assert run == past + [op];
      Reachable(past);
      Extend(past, op);
      LogStep(State(past), op);
      SubsStep(State(past), op);
      forall ref | ref in State(run).subscriptions
        ensures CursorOk(State(run), ref, DeliveredTo(run, ref), AckedBy(run, ref))
      {
        CursorStep(State(past), op, ref, DeliveredTo(past, ref), AckedBy(past, ref));
      }
    }
  }

  // ----- main results

  /** In every reachable state the cursor only covers sequences that were both delivered and acknowledged. */
  lemma CursorSoundness(run: seq<Op>, ref: string, q: int)
    requires ref in State(run).subscriptions
    requires State(run).subscriptions[ref].snapshotSequence < q <= State(run).subscriptions[ref].cursorSeq
    ensures q in DeliveredTo(run, ref) && q in AckedBy(run, ref)
  {
    Reachable(run);
  }

  /** Conversely nothing delivered is lost: above the cursor it is pending or already acknowledged. */
  lemma NothingLost(run: seq<Op>, ref: string, q: int)
    requires ref in State(run).subscriptions && ref !in State(run).tombstones
    requires 0 <= State(run).subscriptions[ref].cursorSeq < q <= State(run).subscriptions[ref].deliveredUpto
    ensures q in DeliveredTo(run, ref) && ref in State(run).outbox
    ensures q in State(run).outbox[ref] || q in AckedBy(run, ref)
  {
    Reachable(run);
  }

  ghost predicate IsMin(m: int, xs: seq<int>) { m in xs && forall x | x in xs :: m <= x }

  /** The cursor sits just below the oldest pending sequence, or at the delivery frontier. */
  lemma CursorIsFrontier(run: seq<Op>, ref: string)
    requires ref in State(run).subscriptions && ref !in State(run).tombstones
    ensures ref in State(run).outbox
    ensures var sub, ob := State(run).subscriptions[ref], State(run).outbox[ref];
            && NoDuplicates(ob)
            && (ob != [] ==> IsMin(sub.cursorSeq + 1, ob) && forall x | x in ob :: x <= sub.deliveredUpto)
            && (ob == [] ==> sub.deliveredUpto <= sub.cursorSeq || sub.cursorSeq == sub.snapshotSequence < 0)
  {
    Reachable(run);
    var ob := State(run).outbox[ref];
    if ob != [] {
      assert ob[0] in ob;
    }
  }

  /** After an acknowledgement the cursor is the oldest pending sequence minus one, or everything delivered. */
  lemma AckAdvances(run: seq<Op>, ref: string, q: int)
    requires ReplyAt(run + [Ack(ref, q)]) == Answer(true)
    ensures var t := State(run + [Ack(ref, q)]);
            && ref in t.subscriptions && ref in t.outbox
            && q !in t.outbox[ref]
            && (t.outbox[ref] == [] ==> t.subscriptions[ref].cursorSeq == t.subscriptions[ref].deliveredUpto)
            && (t.outbox[ref] != [] ==> IsMin(t.subscriptions[ref].cursorSeq + 1, t.outbox[ref]))
  {
    var next := run + [Ack(ref, q)];
    assert next[..|next| - 1] == run;
    Reachable(run);
    var s := State(run);
    RemoveFirstSpec(s.outbox[ref], q);
    AdvanceSpec(s.subscriptions[ref].cursorSeq, s.subscriptions[ref].deliveredUpto, RemoveFirst(s.outbox[ref], q));
    CursorIsFrontier(next, ref);
  }

  /** Retained history has no hole, ids determine sequences, and a delivering read leaves none either. */
  lemma NoSilentGap(run: seq<Op>, ref: string, epoch: string, now: real)
    ensures LogInv(State(run))
    ensures var reply := ReplyAt(run + [Read(ref, epoch, now)]);
            reply.Batch? &&
            (reply.result.outcome == Delivered ==>
               && ref in State(run).subscriptions
               && reply.result.events != []
               && Contiguous(reply.result.events, State(run).subscriptions[ref].cursorSeq, State(run).ingestionCursor))
  {
    Reachable(run);
    var next := run + [Read(ref, epoch, now)];
    assert next[..|next| - 1] == run;
    if ReplyAt(next).result.outcome == Delivered {
      ReadExact(State(run), ref, epoch, now);
    }
  }

  lemma ReadQueues(s: Store, ref: string, epoch: string, now: real, q: int)
    requires LogInv(s) && SubsInv(s) && DoRead(s, ref, epoch, now).1.result.outcome == Delivered
    requires ref in s.subscriptions && forall x | x in s.outbox[ref] :: s.subscriptions[ref].cursorSeq < x <= s.ingestionCursor
    ensures var t := DoRead(s, ref, epoch, now).0;
            ref in t.outbox && ref in t.subscriptions &&
            (q in t.outbox[ref] <==> t.subscriptions[ref].cursorSeq < q <= t.ingestionCursor)
  {
    ReadExact(s, ref, epoch, now);
    var events := DoRead(s, ref, epoch, now).1.result.events;
    ContiguousSequences(events, s.subscriptions[ref].cursorSeq, s.ingestionCursor);
    AppendMissingSpec(s.outbox[ref], events);
  }

  /** After a delivering read an acknowledged sequence is pending again exactly when the cursor has not passed it. */
  lemma ReadRequeues(run: seq<Op>, ref: string, epoch: string, now: real, q: int)
    requires ReplyAt(run + [Read(ref, epoch, now)]).result.outcome == Delivered
    requires q in AckedBy(run, ref)
    ensures var t := State(run + [Read(ref, epoch, now)]);
            ref in t.outbox && ref in t.subscriptions &&
            (q in t.outbox[ref] <==> t.subscriptions[ref].cursorSeq < q <= t.ingestionCursor)
  {
    StepOn(run, Read(ref, epoch, now));
    Reachable(run);
    ReadExact(State(run), ref, epoch, now);
    ReadQueues(State(run), ref, epoch, now, q);
  }

  /** Subscribe, let two events come in, and read them. */
  function Delivering(ref: string, e: string, x: string, y: string): seq<Op> {
    [Subscribe(ref, x, e, y, 0, 0.0), Append(1, x), Append(2, y), Read(ref, e, 0.0)]
  }

  /** Two events ingested and delivered, with the given sequences pending. */
  function Delivered2(ref: string, e: string, x: string, y: string, pending: seq<int>): Store {
    Store([EventRecord(1, x), EventRecord(2, y)], map[x := 1, y := 2], 2, 0,
          map[ref := Subscription(x, e, y, 0, 0, 0.0, 0.0, 0, 2, Observing)], map[ref := pending], {}, [])
  }

  lemma AfterBoth(x: string, y: string)
    ensures After([EventRecord(1, x), EventRecord(2, y)], 0) == [EventRecord(1, x), EventRecord(2, y)]
  {
    var e1, e2 := EventRecord(1, x), EventRecord(2, y);
    assert [e1, e2][1..] == [e2] && After([e2], 0) == [e2] && [e1] + [e2] == [e1, e2];
  }

  lemma DeliveringState(ref: string, e: string, x: string, y: string)
    requires x != y && ref != "" && e != "" && x != "" && y != ""
    ensures State(Delivering(ref, e, x, y)) == Delivered2(ref, e, x, y, [1, 2])
  {
    var e1, e2 := EventRecord(1, x), EventRecord(2, y);
    AfterBoth(x, y);
    assert [e1, e2][..1] == [e1] && [e1][..0] == [];
    assert AppendMissing([], []) == [];
    assert AppendMissing([], [e1]) == [1];
    assert AppendMissing([], [e1, e2]) == AppendMissing([], [e1]) + [2] == [1, 2];
    var r0: seq<Op> := [];
    StepOn(r0, Subscribe(ref, x, e, y, 0, 0.0));
    var r1 := r0 + [Subscribe(ref, x, e, y, 0, 0.0)];
    StepOn(r1, Append(1, x));
    StepOn(r1 + [Append(1, x)], Append(2, y));
    var r3 := r1 + [Append(1, x)] + [Append(2, y)];
    assert State(r3).history == [e1, e2];
    StepOn(r3, Read(ref, e, 0.0));
    assert Delivering(ref, e, x, y) == r3 + [Read(ref, e, 0.0)];
  }

  lemma AckTwo(ref: string, e: string, x: string, y: string)
    ensures DoAck(Delivered2(ref, e, x, y, [1, 2]), ref, 2) == (Delivered2(ref, e, x, y, [1]), Answer(true))
  {
    var s := Delivered2(ref, e, x, y, [1, 2]);
    assert [1, 2][1..] == [2] && RemoveFirst([1, 2], 2) == [1];
    assert Advance(0, 2, [1]) == 0;
    assert s.subscriptions[ref := s.subscriptions[ref]] == s.subscriptions;
    assert s.outbox[ref := [1]] == map[ref := [1]];
  }

  /** After acknowledging 2 only, 1 is still pending and the cursor has not moved. */
  lemma AckedOutOfOrder(ref: string, e: string, x: string, y: string)
    requires x != y && ref != "" && e != "" && x != "" && y != ""
    ensures var run := Delivering(ref, e, x, y) + [Ack(ref, 2)];
            State(run) == Delivered2(ref, e, x, y, [1]) && ReplyAt(run) == Answer(true)
  {
    DeliveringState(ref, e, x, y);
    AckTwo(ref, e, x, y);
    StepOn(Delivering(ref, e, x, y), Ack(ref, 2));
  }

  lemma AckIsRecorded(run: seq<Op>, ref: string, q: int)
    requires ReplyAt(run + [Ack(ref, q)]) == Answer(true)
    ensures q in AckedBy(run + [Ack(ref, q)], ref)
  {
    Extend(run, Ack(ref, q));
  }

  /** A run in which that happens: 2 is acknowledged before 1 and the next read queues 2 again. */
  lemma RequeueExample(ref: string, e: string, x: string, y: string)
    requires x != y && ref != "" && e != "" && x != "" && y != ""
    ensures var run := Delivering(ref, e, x, y) + [Ack(ref, 2)];
            var next := run + [Read(ref, e, 0.0)];
            2 in AckedBy(run, ref) && ref in State(next).outbox && 2 in State(next).outbox[ref]
  {
    var run := Delivering(ref, e, x, y) + [Ack(ref, 2)];
    AckedOutOfOrder(ref, e, x, y);
    AckIsRecorded(Delivering(ref, e, x, y), ref, 2);
    ReadTwo(ref, e, x, y);
    StepOn(run, Read(ref, e, 0.0));
    ReadRequeues(run, ref, e, 0.0, 2);
  }

  lemma ReadTwo(ref: string, e: string, x: string, y: string)
    ensures var (t, reply) := DoRead(Delivered2(ref, e, x, y, [1]), ref, e, 0.0);
            && reply.Batch? && reply.result.outcome == Delivered
            && ref in t.subscriptions && t.subscriptions[ref].cursorSeq == 0 && t.ingestionCursor == 2
  {
    AfterBoth(x, y);
  }

  ghost predicate Frozen(s: Store, ref: string, sub: Subscription) {
    && ref in s.tombstones && ref in s.subscriptions && ref in s.outbox
    && s.subscriptions[ref] == sub && sub.state == Detached && s.outbox[ref] == []
  }

  lemma FrozenStep(s: Store, op: Op, ref: string, sub: Subscription)
    requires Frozen(s, ref, sub)
    ensures Frozen(Step(s, op).0, ref, sub)
  {
  }

  /** A detached subscriber stays detached: its record, cursor and empty outbox never change again. */
  lemma {:induction false} DetachedForever(run: seq<Op>, more: seq<Op>, ref: string)
    requires ref in State(run).tombstones
    ensures ref in State(run).subscriptions
    ensures Frozen(State(run + more), ref, State(run).subscriptions[ref])
    decreases |more|
  {
    Reachable(run);
    if more == [] {
      assert run + more == run;
    } else {
      var front, op := more[..|more| - 1], more[|more| - 1];
      DetachedForever(run, front, ref);
      assert run + more == (run + front) + [op];
      Extend(run + front, op);
      FrozenStep(State(run + front), op, ref, State(run).subscriptions[ref]);
    }
  }

  /** ... and every later request it makes is refused. */
  lemma DetachedIsRefused(run: seq<Op>, op: Op)
    requires op.Read? || op.Ack? || op.Heartbeat? || op.Subscribe?
    requires op.ref in State(run).tombstones
    ensures match ReplyAt(run + [op])
            case Batch(result) => result == ReadResult(AssociationRequired, [], false)
            case Answer(accepted) => !accepted
            case Live(_) => false
  {
    Extend(run, op);
  }

  /** Appends are possible exactly while retention has not overtaken ingestion ... */
  lemma AppendAccepted(run: seq<Op>, q: int, id: string)
    ensures ReplyAt(run + [Append(q, id)]) == Answer(true) <==>
            && q == State(run).ingestionCursor + 1
            && State(run).retentionFloor <= State(run).ingestionCursor
            && id !in State(run).eventIds
  {
    Extend(run, Append(q, id));
  }

  lemma OverPrunedStep(s: Store, op: Op)
    requires s.retentionFloor > s.ingestionCursor
    ensures var t := Step(s, op).0; t.ingestionCursor == s.ingestionCursor && t.retentionFloor >= s.retentionFloor
  {
  }

  /** ... and once it has, ingestion is stuck for good: no continuation of the run ever grows the history again. */
  lemma {:induction false} OverPruneIsPermanent(run: seq<Op>, more: seq<Op>)
    requires State(run).retentionFloor > State(run).ingestionCursor
    ensures State(run + more).ingestionCursor == State(run).ingestionCursor
    ensures State(run + more).retentionFloor >= State(run).retentionFloor
    ensures State(run + more).history == []
    decreases |more|
  {
    Reachable(run + more);
    if more == [] {
      assert run + more == run;
    } else {
      var front, op := more[..|more| - 1], more[|more| - 1];
      OverPruneIsPermanent(run, front);
      assert run + more == (run + front) + [op];
      Extend(run + front, op);
      OverPrunedStep(State(run + front), op);
    }
  }

  // ----- the store itself

  class GatewaySubscriptionStore {
    var history: seq<EventRecord>
    var eventIds: map<string, int>
    var ingestionCursor: int
    var retentionFloor: int
    var subscriptions: map<string, Subscription>
    var outbox: map<string, seq<int>>
    var tombstones: set<string>
    var audit: seq<(string, Code)>
    ghost var run: seq<Op>

    ghost function View(): Store
      reads this
    {
      Store(history, eventIds, ingestionCursor, retentionFloor, subscriptions, outbox, tombstones, audit)
    }

    /** The fields are what the performed run produces, so every lemma about runs applies to the object. */
    ghost predicate Valid()
      reads this
    {
      View() == State(run)
    }

    ghost predicate Performed(before: seq<Op>, op: Op)
      reads this
    {
      run == before + [op] && Valid()
    }

    constructor ()
      ensures Valid() && run == []
    {
      history, eventIds, ingestionCursor, retentionFloor := [], map[], 0, 0;
      subscriptions, outbox, tombstones, audit := map[], map[], {}, [];
      run := [];
    }

    ghost method Record(op: Op)
      requires View() == Step(State(run), op).0
      modifies this`run
      ensures Performed(old(run), op)
    {
      Extend(run, op);
      run := run + [op];
    }

    method Subscribe(ref: string, associationRef: string, epoch: string, boundary: string, snapshot: int, now: real)
      returns (created: Option<Subscription>)
      requires Valid()
      modifies this
      ensures Performed(old(run), Op.Subscribe(ref, associationRef, epoch, boundary, snapshot, now))
      ensures created.Some? == ReplyAt(run).accepted
      ensures created.Some? ==> ref in subscriptions && created.value == subscriptions[ref]
    {
      if ref == "" || associationRef == "" || epoch == "" || boundary == "" || ref in tombstones {
        created := None;
      } else {
        var sub := Subscription(associationRef, epoch, boundary, snapshot, snapshot, now, now, 0, 0, Observing);
        subscriptions := subscriptions[ref := sub];
        outbox := outbox[ref := []];
        created := Some(sub);
      }
      Record(Op.Subscribe(ref, associationRef, epoch, boundary, snapshot, now));
    }

    method Append(sequence: int, eventId: string) returns (accepted: bool)
      requires Valid()
      modifies this
      ensures Performed(old(run), Op.Append(sequence, eventId)) && ReplyAt(run) == Answer(accepted)
    {
      if sequence != ingestionCursor + 1 || sequence <= retentionFloor {
        accepted := false;
      } else if eventId in eventIds {
        audit := audit + [(eventId, InvalidProvenance)];
        accepted := false;
      } else {
        history := history + [EventRecord(sequence, eventId)];
        eventIds := eventIds[eventId := sequence];
        ingestionCursor := sequence;
        accepted := true;
      }
      Record(Op.Append(sequence, eventId));
    }

    method Prune(upTo: int)
      requires Valid()
      modifies this
      ensures Performed(old(run), Op.Prune(upTo))
    {
      retentionFloor := Max(retentionFloor, upTo);
      history := After(history, retentionFloor);
      Record(Op.Prune(upTo));
    }

    method Heartbeat(ref: string, heartbeat: int, now: real) returns (accepted: bool)
      requires Valid()
      modifies this
      ensures Performed(old(run), Op.Heartbeat(ref, heartbeat, now)) && ReplyAt(run) == Answer(accepted)
    {
      if ref !in subscriptions || ref in tombstones {
        audit := audit + [(ref, AssociationRequired)];
        accepted := false;
      } else {
        var sub := Derive(subscriptions[ref], now);
        if sub.state != Observing && sub.state != Reconnecting {
          audit := audit + [(ref, AssociationStale)];
          accepted := false;
        } else if heartbeat <= sub.lastHeartbeatSeq {
          audit := audit + [(ref, InvalidRequest)];
          accepted := false;
        } else {
          sub := sub.(lastHeartbeatSeq := heartbeat, lastHeartbeatAt := now);
          if sub.state == Reconnecting { sub := sub.(state := Observing); }
          accepted := true;
        }
        subscriptions := subscriptions[ref := sub];
      }
      Record(Op.Heartbeat(ref, heartbeat, now));
    }

    method Evaluate(ref: string, now: real) returns (state: Option<Liveness>)
      requires Valid()
      modifies this
      ensures Performed(old(run), Op.Evaluate(ref, now)) && ReplyAt(run) == Live(state)
    {
      if ref !in subscriptions {
        state := None;
      } else {
        subscriptions := subscriptions[ref := Derive(subscriptions[ref], now)];
        state := Some(subscriptions[ref].state);
      }
      Record(Op.Evaluate(ref, now));
    }

    /** Queue every delivered sequence that is not pending already. */
    method Queue(start: seq<int>, events: seq<EventRecord>) returns (pending: seq<int>)
      ensures pending == AppendMissing(start, events)
    {
      pending := start;
      for i := 0 to |events|
        invariant pending == AppendMissing(start, events[..i])
      {
        assert events[..i + 1][..i] == events[..i];
        if events[i].sequence !in pending { pending := pending + [events[i].sequence]; }
      }
      assert events[..|events|] == events;
    }

    method Read(ref: string, epoch: string, now: real) returns (result: ReadResult)
      requires Valid()
      modifies this
      ensures Performed(old(run), Op.Read(ref, epoch, now)) && ReplyAt(run) == Batch(result)
    {
      ghost var s0 := View();
      var code, resync := Delivered, false;
      if ref !in subscriptions || ref in tombstones {
        code := AssociationRequired;
      } else if epoch != subscriptions[ref].streamEpoch {
        code, resync := CursorStale, true;
      } else {
        var sub := Derive(subscriptions[ref], now);
        subscriptions := subscriptions[ref := sub];
        if sub.state == Stale {
          code := AssociationStale;
        } else if now - sub.cursorIssuedAt > CURSOR_TTL {
          code, resync := CursorExpired, true;
        } else if sub.cursorSeq < retentionFloor {
          code, resync := ReplayGap, true;
        }
      }
      if code != Delivered {
        audit := audit + [(ref, code)];
        result := ReadResult(code, [], resync);
      } else {
        var sub := subscriptions[ref];
        var events := After(history, sub.cursorSeq);
        if events == [] {
          result := ReadResult(NoNewEvents, [], false);
        } else {
          var pending := Queue(if ref in outbox then outbox[ref] else [], events);
          outbox := outbox[ref := pending];
          sub := sub.(deliveredUpto := Max(sub.deliveredUpto, events[|events| - 1].sequence));
          subscriptions := subscriptions[ref := sub];
          result := ReadResult(Delivered, events, false);
        }
      }
      assert (View(), Batch(result)) == DoRead(s0, ref, epoch, now);
      Record(Op.Read(ref, epoch, now));
    }

    method Ack(ref: string, sequence: int) returns (accepted: bool)
      requires Valid()
      modifies this
      ensures Performed(old(run), Op.Ack(ref, sequence)) && ReplyAt(run) == Answer(accepted)
    {
      if ref !in subscriptions || ref in tombstones || ref !in outbox {
        audit := audit + [(ref, AssociationRequired)];
        accepted := false;
      } else if sequence !in outbox[ref] {
        audit := audit + [(ref, InvalidRequest)];
        accepted := false;
      } else {
        outbox := outbox[ref := RemoveFirst(outbox[ref], sequence)];
        var sub := subscriptions[ref];
        var cursor := sub.cursorSeq;
        while cursor < sub.deliveredUpto && cursor + 1 !in outbox[ref]
          invariant Advance(cursor, sub.deliveredUpto, outbox[ref]) ==
                    Advance(sub.cursorSeq, sub.deliveredUpto, outbox[ref])
          decreases sub.deliveredUpto - cursor
        {
          cursor := cursor + 1;
        }
        subscriptions := subscriptions[ref := sub.(cursorSeq := cursor)];
        accepted := true;
      }
      Record(Op.Ack(ref, sequence));
    }

    method Detach(ref: string) returns (accepted: bool)
      requires Valid()
      modifies this
      ensures Performed(old(run), Op.Detach(ref)) && ReplyAt(run) == Answer(accepted)
    {
      if ref !in subscriptions {
        accepted := false;
      } else {
        tombstones := tombstones + {ref};
        subscriptions := subscriptions[ref := subscriptions[ref].(state := Detached)];
        outbox := outbox[ref := []];
        accepted := true;
      }
      Record(Op.Detach(ref));
    }
  }
}
