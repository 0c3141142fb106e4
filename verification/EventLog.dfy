/**
  The append-only event log of one run.

  The length of an event's canonical bytes is part of the event, since it depends on the event alone.  `owned` says
  whether the event carries the run and owner epoch of this log.  Appending includes building the event, which refuses
  ids and lengths outside their limits.
*/
module EventLog {
  import opened Wrappers
  import Lifecycle

  const MAX_EVENTS := 10000
  const MAX_QUERY := 1000
  const MAX_LOG_BYTES := 4 * 1024 * 1024
  const MAX_PAYLOAD_BYTES := 64 * 1024
  const MAX_LOG_LINE_BYTES := MAX_PAYLOAD_BYTES + 1024
  const MAX_ID := 128

  /** What a line adds to the canonical bytes: the key, the 64 hexadecimal digits, their punctuation, and the newline. */
  const CHECKSUM_BYTES := 79

  /** Sequences are Python numbers: integers or floats, compared by value. */
  datatype Number = Whole(n: nat) | Float(x: real)

  datatype Kind =
    | Transition(from: Option<Lifecycle.State>, to: Option<Lifecycle.State>)
    | Checkpoint
    | Other

  /** An id given by the caller, or the hash derived from task, sequence and kind, which is taken to be injective. */
  datatype Id = Named(name: string) | Derived(task: Option<string>, sequence: Number, kind: string)

  datatype Event = Event(id: Id, task: Option<string>, kind: Kind, sequence: Number, owned: bool, canonicalBytes: nat)

  datatype Error = Unbuildable | Stale | LogTooLarge | LineTooLarge | TooManyEvents | IdCollision | DuplicateSequence | NotMonotonic | LimitsExceeded | BadLimit

  function Value(s: Number): real {
    match s
    case Whole(n) => n as real
    case Float(x) => x
  }

  /** What building an event checks of its id and size. */
  predicate Buildable(e: Event) {
    && (e.id.Named? ==> Identifier(e.id.name)) && (e.task.Some? ==> Identifier(e.task.value))
    && e.canonicalBytes <= MAX_PAYLOAD_BYTES
  }

  predicate Identifier(s: string) {
    1 <= |s| <= MAX_ID
  }

  function LineBytes(e: Event): nat {
    e.canonicalBytes + CHECKSUM_BYTES
  }

  function Bytes(file: seq<Event>): nat {
    if file == [] then 0 else Bytes(file[..|file| - 1]) + LineBytes(file[|file| - 1])
  }

  predicate LinesFit(file: seq<Event>) {
    forall e | e in file :: LineBytes(e) <= MAX_LOG_LINE_BYTES
  }

  /** What reading the log gives. */
  function Records(file: seq<Event>): Result<seq<Event>, Error> {
    if Bytes(file) > MAX_LOG_BYTES then Err(LogTooLarge)
    else if !LinesFit(file) then Err(LineTooLarge)
    else if |file| > MAX_EVENTS then Err(TooManyEvents)
    else Ok(file)
  }

  /** Looking through the records in order for the event's id or sequence. */
  function Clash(records: seq<Event>, e: Event): Option<Result<Event, Error>> {
    if records == [] then None
    else if records[0].id == e.id then Some(if records[0] == e then Ok(records[0]) else Err(IdCollision))
    else if Value(records[0].sequence) == Value(e.sequence) then Some(Err(DuplicateSequence))
    else Clash(records[1..], e)
  }

  function Append(file: seq<Event>, e: Event): (seq<Event>, Result<Event, Error>) {
    if !Buildable(e) then (file, Err(Unbuildable))
    else if !e.owned then (file, Err(Stale))
    else
      match Records(file)
      case Err(error) => (file, Err(error))
      case Ok(records) =>
        var clash := Clash(records, e);
        if clash.Some? then (file, clash.value)
        else if records != [] && Value(e.sequence) <= Value(records[|records| - 1].sequence) then (file, Err(NotMonotonic))
        else if |records| >= MAX_EVENTS || LineBytes(e) > MAX_LOG_LINE_BYTES then (file, Err(LimitsExceeded))
        else (file + [e], Ok(e))
  }

  function After(events: seq<Event>): seq<Event> {
    if events == [] then [] else Append(After(events[..|events| - 1]), events[|events| - 1]).0
  }

  function Replay(file: seq<Event>, limit: nat): Result<seq<Event>, Error> {
    if !(1 <= limit <= MAX_QUERY) then Err(BadLimit)
    else
      match Records(file)
      case Err(error) => Err(error)
      case Ok(records) => Ok(if |records| <= limit then records else records[..limit])
  }

  // ----- every log built by appending

  ghost predicate StrictlyIncreasing(file: seq<Event>) {
    forall i, j | 0 <= i < j < |file| :: Value(file[i].sequence) < Value(file[j].sequence)
  }

  ghost predicate UniqueIds(file: seq<Event>) {
    forall i, j | 0 <= i < j < |file| :: file[i].id != file[j].id
  }

  ghost predicate Inv(file: seq<Event>) {
    StrictlyIncreasing(file) && UniqueIds(file) && LinesFit(file) && |file| <= MAX_EVENTS
    && forall e | e in file :: e.owned && Buildable(e)
  }

  lemma {:induction false} NoClash(records: seq<Event>, e: Event)
    ensures Clash(records, e) == None <==>
              forall x | x in records :: x.id != e.id && Value(x.sequence) != Value(e.sequence)
  {
    if records != [] {
      NoClash(records[1..], e);
      assert forall x :: x in records <==> x == records[0] || x in records[1..];
    }
  }

  lemma AppendKeeps(file: seq<Event>, e: Event)
    requires Inv(file)
    ensures Inv(Append(file, e).0) && file <= Append(file, e).0
  {
    NoClash(file, e);
    var next := Append(file, e).0;
    if next != file {
      forall i, j | 0 <= i < j < |next|
        ensures Value(next[i].sequence) < Value(next[j].sequence) && next[i].id != next[j].id
      {
        if j == |file| {
          assert next[i] in file;
          assert Value(file[|file| - 1].sequence) < Value(e.sequence);
        }
      }
    }
  }

  /** However events arrive: sequences strictly increase, ids are unique, and the line and event limits hold. */
  lemma {:induction false} Reachable(events: seq<Event>)
    ensures Inv(After(events))
  {
    if events != [] {
      Reachable(events[..|events| - 1]);
      AppendKeeps(After(events[..|events| - 1]), events[|events| - 1]);
    }
  }

  lemma {:induction false} AppendOnly(events: seq<Event>, more: seq<Event>)
    ensures After(events) <= After(events + more)
    decreases |more|
  {
    if more == [] {
      assert events + more == events;
    } else {
      var shorter := events + more[..|more| - 1];
      assert (events + more)[..|events + more| - 1] == shorter;
      AppendOnly(events, more[..|more| - 1]);
      Reachable(shorter);
      AppendKeeps(After(shorter), more[|more| - 1]);
    }
  }

  lemma {:induction false} ClashFindsSame(records: seq<Event>, e: Event)
    requires StrictlyIncreasing(records) && UniqueIds(records) && e in records
    ensures Clash(records, e) == Some(Ok(e))
  {
    if records[0] != e {
      var i :| 0 <= i < |records| && records[i] == e;
      assert records[0].id != e.id && Value(records[0].sequence) < Value(e.sequence);
      assert e in records[1..];
      ClashFindsSame(records[1..], e);
    }
  }

  /** The log stays readable exactly while its bytes fit. */
  lemma ReadableExactly(events: seq<Event>)
    ensures Records(After(events)) == (if Bytes(After(events)) <= MAX_LOG_BYTES then Ok(After(events)) else Err(LogTooLarge))
  {
    Reachable(events);
  }

  /** Appending an identical event again returns it and changes nothing, as long as the log can be read. */
  lemma ReappendIsNoOp(events: seq<Event>, e: Event)
    requires e in After(events) && Bytes(After(events)) <= MAX_LOG_BYTES
    ensures Append(After(events), e) == (After(events), Ok(e))
  {
    Reachable(events);
    ClashFindsSame(After(events), e);
  }

  /** The line limit is slack: every event that can be built makes a line below it, so `append` never refuses a line. */
  lemma LineLimitNeverRefuses(events: seq<Event>, e: Event)
    ensures Buildable(e) ==> LineBytes(e) <= MAX_PAYLOAD_BYTES + CHECKSUM_BYTES < MAX_LOG_LINE_BYTES
    ensures Append(After(events), e).1 == Err(LimitsExceeded) ==> |After(events)| == MAX_EVENTS
    ensures Append(After(events), e).1 != Err(LineTooLarge)
  {
    Reachable(events);
    NoClash(After(events), e);
    ClashError(After(events), e);
  }

  lemma {:induction false} ClashError(records: seq<Event>, e: Event)
    ensures Clash(records, e).Some? && Clash(records, e).value.Err? ==>
              Clash(records, e).value.error == IdCollision || Clash(records, e).value.error == DuplicateSequence
  {
    if records != [] { ClashError(records[1..], e); }
  }

  /** Exactly when an event that is not in the log yet is accepted. */
  lemma AcceptedExactly(events: seq<Event>, e: Event)
    requires e !in After(events)
    ensures var file := After(events);
            Append(file, e).1.Ok? <==>
              && Buildable(e) && e.owned && Bytes(file) <= MAX_LOG_BYTES && |file| < MAX_EVENTS
              && (forall x | x in file :: x.id != e.id && Value(x.sequence) < Value(e.sequence))
  {
    var file := After(events);
    Reachable(events);
    NoClash(file, e);
    ClashSomeIsError(file, e);
    LaterThanLast(file, e);
  }

  /** In a log in order, an event comes after every record exactly when it comes after the last. */
  lemma LaterThanLast(file: seq<Event>, e: Event)
    requires StrictlyIncreasing(file)
    ensures file != [] ==> ((forall x | x in file :: Value(x.sequence) < Value(e.sequence)) <==>
              Value(file[|file| - 1].sequence) < Value(e.sequence))
  {
    forall x | x in file
      ensures Value(x.sequence) <= Value(file[|file| - 1].sequence)
    {
    }
  }

  lemma {:induction false} ClashSomeIsError(records: seq<Event>, e: Event)
    requires e !in records
    ensures Clash(records, e).Some? ==> Clash(records, e).value.Err?
  {
    if records != [] { ClashSomeIsError(records[1..], e); }
  }

  // ----- the limit that append does not check

  /** Once the bytes pass the reader's limit nothing can be read or appended ever again. */
  lemma {:induction false} JamIsForever(events: seq<Event>, more: seq<Event>)
    requires Bytes(After(events)) > MAX_LOG_BYTES
    ensures After(events + more) == After(events) && Records(After(events + more)).Err?
    decreases |more|
  {
    if more == [] {
      assert events + more == events;
    } else {
      assert (events + more)[..|events + more| - 1] == events + more[..|more| - 1];
      JamIsForever(events, more[..|more| - 1]);
    }
  }

  /** An append makes a readable log unreadable exactly when it is accepted and its line passes the total limit. */
  lemma JamsExactly(events: seq<Event>, e: Event)
    requires Records(After(events)).Ok?
    ensures Records(After(events + [e])).Err? <==>
              e !in After(events) && Append(After(events), e).1.Ok? && Bytes(After(events)) + LineBytes(e) > MAX_LOG_BYTES
  {
    AfterAppend(events, e);
    ReadableExactly(events);
    ReadableExactly(events + [e]);
    if e in After(events) {
      ReappendIsNoOp(events, e);
    } else if Append(After(events), e).1.Ok? {
      AcceptedIsAdded(After(events), e);
      BytesAppend(After(events), e);
    } else {
      RefusedChangesNothing(After(events), e);
    }
  }

  function Unary(n: nat): (r: string)
    ensures |r| == n
  {
    if n == 0 then "" else Unary(n - 1) + "a"
  }

  /** An event of the greatest size that can be built. */
  function LargeEvent(i: nat): Event {
    Event(Named(Unary(i + 1)), None, Other, Whole(i), true, MAX_PAYLOAD_BYTES)
  }

  const LARGE_LINE := MAX_PAYLOAD_BYTES + CHECKSUM_BYTES

  function LargeEvents(n: nat): seq<Event> {
    if n == 0 then [] else LargeEvents(n - 1) + [LargeEvent(n - 1)]
  }

  lemma {:induction false} LargeEventsAreEarlier(n: nat)
    ensures forall x | x in LargeEvents(n) :: x.id.Named? && |x.id.name| <= n && Value(x.sequence) < n as real
  {
    if n > 0 { LargeEventsAreEarlier(n - 1); }
  }

  lemma BytesAppend(file: seq<Event>, e: Event)
    ensures Bytes(file + [e]) == Bytes(file) + LineBytes(e)
  {
    assert (file + [e])[..|file|] == file;
  }

  lemma {:induction false} LargeBytes(n: nat)
    ensures Bytes(LargeEvents(n)) == n * LARGE_LINE
  {
    if n > 0 {
      LargeBytes(n - 1);
      BytesAppend(LargeEvents(n - 1), LargeEvent(n - 1));
    }
  }

  lemma AfterAppend(events: seq<Event>, e: Event)
    ensures After(events + [e]) == Append(After(events), e).0
  {
    assert (events + [e])[..|events|] == events;
  }

  lemma SixtyThreeLinesFit(n: nat)
    requires n < 64
    ensures n * LARGE_LINE <= MAX_LOG_BYTES
  {
    assert LARGE_LINE == 65615 && MAX_LOG_BYTES == 4194304;
  }

  lemma LargeEventIsLater(n: nat)
    ensures var e := LargeEvent(n);
            forall x | x in LargeEvents(n) :: x.id != e.id && Value(x.sequence) < Value(e.sequence)
  {
    LargeEventsAreEarlier(n);
    assert |LargeEvent(n).id.name| == n + 1 && Value(LargeEvent(n).sequence) == n as real;
  }

  lemma LargeEventFits(n: nat)
    requires n < 64 && After(LargeEvents(n)) == LargeEvents(n) && |LargeEvents(n)| == n
    ensures LargeEvent(n) !in LargeEvents(n) && Append(LargeEvents(n), LargeEvent(n)).1.Ok?
  {
    var front, e := LargeEvents(n), LargeEvent(n);
    LargeEventIsLater(n);
    LargeBytes(n);
    SixtyThreeLinesFit(n);
    AcceptedExactly(front, e);
  }

  lemma {:induction false} LargeEventsAreAccepted(n: nat)
    requires n <= 64
    ensures After(LargeEvents(n)) == LargeEvents(n) && |LargeEvents(n)| == n
  {
    if n > 0 {
      LargeEventsAreAccepted(n - 1);
      LargeEventFits(n - 1);
      AfterAppend(LargeEvents(n - 1), LargeEvent(n - 1));
      AcceptedIsAdded(LargeEvents(n - 1), LargeEvent(n - 1));
    }
  }

  lemma RefusedChangesNothing(file: seq<Event>, e: Event)
    requires Append(file, e).1.Err?
    ensures Append(file, e).0 == file
  {
  }

  lemma AcceptedIsAdded(file: seq<Event>, e: Event)
    requires e !in file && Append(file, e).1.Ok?
    ensures Append(file, e).0 == file + [e]
  {
    ClashSomeIsError(file, e);
  }

  lemma {:induction false} BytesBound(file: seq<Event>)
    requires forall e | e in file :: Buildable(e)
    ensures Bytes(file) <= |file| * LARGE_LINE
  {
    if file != [] {
      var front, last := file[..|file| - 1], file[|file| - 1];
      BytesBound(front);
      assert last in file && LineBytes(last) <= LARGE_LINE && |file| * LARGE_LINE == |front| * LARGE_LINE + LARGE_LINE;
    }
  }

  /** No log of fewer than sixty-four events is ever jammed. */
  lemma FewerNeverJam(events: seq<Event>)
    requires |After(events)| < 64
    ensures Records(After(events)) == Ok(After(events))
  {
    Reachable(events);
    BytesBound(After(events));
    SixtyThreeLinesFit(|After(events)|);
  }

  /** Sixty-four events of the greatest size are all accepted and leave a log that cannot be read. */
  lemma SixtyFourLinesJamTheLog()
    ensures After(LargeEvents(64)) == LargeEvents(64) && Records(After(LargeEvents(64))) == Err(LogTooLarge)
    ensures Records(After(LargeEvents(63))).Ok?
  {
    LargeEventsAreAccepted(63);
    LargeEventsAreAccepted(64);
    LargeBytes(63);
    LargeBytes(64);
    Reachable(LargeEvents(63));
  }

  // ----- the log itself

  class Log {
    var file: seq<Event>
    ghost var appended: seq<Event>

    ghost predicate Valid()
      reads this
    {
      file == After(appended)
    }

    constructor ()
      ensures Valid() && appended == []
    {
      file, appended := [], [];
    }

    /** Read the log line by line. */
    method ReadRecords() returns (r: Result<seq<Event>, Error>)
      requires Valid()
      ensures r == Records(file)
    {
      if Bytes(file) > MAX_LOG_BYTES { return Err(LogTooLarge); }
      var records: seq<Event> := [];
      var i := 0;
      while i < |file| && i <= MAX_EVENTS
        invariant 0 <= i <= |file| && i <= MAX_EVENTS + 1 && records == file[..i] && LinesFit(file[..i])
      {
        if LineBytes(file[i]) > MAX_LOG_LINE_BYTES { return Err(LineTooLarge); }
        records := records + [file[i]];
        i := i + 1;
      }
      Reachable(appended);
      assert i == |file| && file[..i] == file;
      r := Ok(records);
    }

    /** Look through the records for the event's id or sequence. */
    method Scan(e: Event) returns (clash: Option<Result<Event, Error>>)
      ensures clash == Clash(file, e)
    {
      var i := 0;
      while i < |file|
        invariant 0 <= i <= |file| && Clash(file, e) == Clash(file[i..], e)
      {
        var existing := file[i];
        assert file[i..][1..] == file[i + 1..];
        if existing.id == e.id {
          return Some(if existing == e then Ok(existing) else Err(IdCollision));
        }
        if Value(existing.sequence) == Value(e.sequence) { return Some(Err(DuplicateSequence)); }
        i := i + 1;
      }
      clash := None;
    }

    method AppendEvent(e: Event) returns (r: Result<Event, Error>)
      requires Valid()
      modifies this
      ensures Valid() && appended == old(appended) + [e]
      ensures (file, r) == Append(old(file), e)
    {
      AfterAppend(appended, e);
      Reachable(appended);
      appended := appended + [e];
      if !Buildable(e) { return Err(Unbuildable); }
      if !e.owned { return Err(Stale); }
      if Bytes(file) > MAX_LOG_BYTES { return Err(LogTooLarge); }
      var clash := Scan(e);
      if clash.Some? { return clash.value; }
      if file != [] && Value(e.sequence) <= Value(file[|file| - 1].sequence) { return Err(NotMonotonic); }
      if |file| >= MAX_EVENTS || LineBytes(e) > MAX_LOG_LINE_BYTES { return Err(LimitsExceeded); }
      file := file + [e];
      r := Ok(e);
    }
  }
}
