/**
 The per-run event log: a counter in the run's row, rows keyed by sequence number, four
 writers that share one allocate-then-insert idiom, and readers that page through it.
*/
module EventLog {
  import opened Wrappers

  type RunId = string

  const MAX_EVENT_LIMIT := 200
  const MAX_EVENT_TYPE := 64

  datatype Event = Event(eventType: string, payload: string)

  /** next_event_seq of one run, and its rows of harness_events. */
  datatype Log = Log(next: int, rows: map<int, Event>)

  type Table = map<RunId, Log>

  /** Only the kernel's own append looks at the event type. */
  datatype Writer = Kernel | ApprovalWriter | JobWriter | PipelineWriter

  datatype AppendError = NoSuchRun | BadEventType

  predicate Control(c: char) {
    c < ' ' || ('\U{7F}' <= c <= '\U{9F}')
  }

  predicate ValidEventType(eventType: string) {
    0 < |eventType| <= MAX_EVENT_TYPE && forall c <- eventType :: !Control(c)
  }

  predicate Accepts(table: Table, writer: Writer, run: RunId, event: Event) {
    run in table && (writer == Kernel ==> ValidEventType(event.eventType))
  }

  /** The run is inserted with its counter at 1 and its first event at 0. */
  function Begun(table: Table, run: RunId, event: Event): Table {
    table[run := Log(1, map[0 := event])]
  }

  /** Allocate a number and insert under it; a refused append is rolled back. */
  function Appended(table: Table, writer: Writer, run: RunId, event: Event): Table {
    if Accepts(table, writer, run, event)
    then table[run := Log(table[run].next + 1, table[run].rows[table[run].next := event])]
    else table
  }

  /* ---------- density ---------- */

  ghost predicate Dense(log: Log) {
    log.next >= 1 && forall k :: k in log.rows <==> 0 <= k < log.next
  }

  ghost predicate AllDense(table: Table) {
    forall run | run in table :: Dense(table[run])
  }

  /** A dense log read as a sequence. */
  ghost function Contents(log: Log): (events: seq<Event>)
    requires Dense(log)
    ensures |events| == log.next
  {
    seq(log.next, k requires 0 <= k < log.next => log.rows[k])
  }

  lemma AppendExtends(table: Table, writer: Writer, run: RunId, event: Event)
    requires AllDense(table) && Accepts(table, writer, run, event)
    ensures AllDense(Appended(table, writer, run, event))
    ensures table[run].next !in table[run].rows
    ensures Contents(Appended(table, writer, run, event)[run]) == Contents(table[run]) + [event]
    ensures forall other | other in table && other != run :: Appended(table, writer, run, event)[other] == table[other]
  {
  }

  /* ---------- reading a page ---------- */

  datatype ReadError = BadLimit | RunNotFound | BadCursor

  datatype Page = Page(events: seq<(int, Event)>, nextAfterSeq: Option<int>)

  /** The row a query for `seq > after ORDER BY seq` returns first. */
  ghost predicate IsFirstAfter(rows: map<int, Event>, after: int, k: int) {
    k in rows && after < k && forall other | other in rows && after < other :: k <= other
  }

  lemma {:induction false} SomeRowIsFirst(keys: set<int>, some: int) returns (first: int)
    requires some in keys
    ensures first in keys && forall k | k in keys :: first <= k
  {
    first := some;
    if below: int :| below in keys && below < some {
      first := SomeRowIsFirst(keys - {some}, below);
      forall k | k in keys ensures first <= k {
        assert k != some ==> k in keys - {some};
      }
    } else {
      forall k | k in keys ensures first <= k {
        assert !(k < some);
      }
    }
  }

  ghost function FirstAfter(rows: map<int, Event>, after: int): (found: Option<int>)
    ensures found.Some? ==> IsFirstAfter(rows, after, found.value)
    ensures found.None? ==> forall k | k in rows :: k <= after
  {
    if some: int :| some in rows && after < some then
      assert exists k :: IsFirstAfter(rows, after, k) by {
        var keys := set k | k in rows && after < k;
        var first := SomeRowIsFirst(keys, some);
        assert forall other | other in rows && after < other :: other in keys;
        assert IsFirstAfter(rows, after, first);
      }
      var k :| IsFirstAfter(rows, after, k);
      Some(k)
    else
      None
  }

  /** seq > after ORDER BY seq LIMIT limit, over any table of rows. */
  ghost function Select(rows: map<int, Event>, after: int, limit: nat): seq<(int, Event)>
    decreases limit
  {
    var first := FirstAfter(rows, after);
    if limit == 0 || first.None? then []
    else [(first.value, rows[first.value])] + Select(rows, first.value, limit - 1)
  }

  ghost function Read(table: Table, run: RunId, afterSeq: Option<int>, limit: nat): Result<Page, ReadError> {
    if limit == 0 || limit > MAX_EVENT_LIMIT then Failure(BadLimit)
    else if run !in table then Failure(RunNotFound)
    else
      var after := if afterSeq.Some? then afterSeq.value else -1;
      if after < -1 then Failure(BadCursor)
      else
        var events := Select(table[run].rows, after, limit);
        Success(Page(events, if events == [] then None else Some(events[|events| - 1].0)))
  }

  /** What a page is refused for, and that it is refused for nothing else; without a cursor it is the first one. */
  lemma ReadFailsExactlyWhen(table: Table, run: RunId, afterSeq: Option<int>, limit: nat)
    ensures var read := Read(table, run, afterSeq, limit);
            && (read == Failure(BadLimit) <==> !(1 <= limit <= 200))
            && (read == Failure(RunNotFound) <==> 1 <= limit <= 200 && run !in table)
            && (read == Failure(BadCursor) <==>
                1 <= limit <= 200 && run in table && afterSeq.Some? && afterSeq.value < -1)
            && (read.Success? && afterSeq.None? ==> read == Read(table, run, Some(-1), limit))
  {
  }

  /** On a dense log a query returns the next `limit` events, with their positions. */
  lemma {:induction false} SelectIsSlice(log: Log, after: int, limit: nat)
    requires Dense(log) && -1 <= after
    ensures var events := Select(log.rows, after, limit);
            var size := if after + 1 < log.next then Min(limit, log.next - after - 1) else 0;
            |events| == size && forall k | 0 <= k < size :: events[k] == (after + 1 + k, log.rows[after + 1 + k])
    decreases limit
  {
    var first := FirstAfter(log.rows, after);
    if limit > 0 && after + 1 < log.next {
      assert after + 1 in log.rows;
      assert first == Some(after + 1);
      SelectIsSlice(log, after + 1, limit - 1);
    } else if limit > 0 {
      assert first.None?;
    }
  }

  /* ---------- a reader among the writers ---------- */

  /** A reader keeps what it has read and the cursor for its next page. */
  datatype Reader = Reader(cursor: Option<int>, seen: seq<Event>)

  datatype Step =
    | Begin(run: RunId, event: Event)
    | Append(writer: Writer, run: RunId, event: Event)
    | ReadPage(limit: nat)

  function Payloads(events: seq<(int, Event)>): seq<Event> {
    seq(|events|, k requires 0 <= k < |events| => events[k].1)
  }

  /** Take the page's events; an empty page carries no cursor and leaves the reader's alone. */
  ghost function Paged(reader: Reader, table: Table, run: RunId, limit: nat): Reader {
    match Read(table, run, reader.cursor, limit)
    case Failure(_) => reader
    case Success(page) =>
      Reader(if page.nextAfterSeq.Some? then page.nextAfterSeq else reader.cursor, reader.seen + Payloads(page.events))
  }

  datatype State = State(table: Table, reader: Reader)

  /** `run` is the one that is being read. */
  ghost function Exec(state: State, run: RunId, step: Step): State {
    match step
    case Begin(begun, event) =>
      if begun in state.table then state else state.(table := Begun(state.table, begun, event))
    case Append(writer, target, event) => state.(table := Appended(state.table, writer, target, event))
    case ReadPage(limit) => state.(reader := Paged(state.reader, state.table, run, limit))
  }

  ghost function After(state: State, run: RunId, steps: seq<Step>, n: nat): State
    requires n <= |steps|
  {
    if n == 0 then state else Exec(After(state, run, steps, n - 1), run, steps[n - 1])
  }

  const START := State(map[], Reader(None, []))

  /** Every log is dense, and the reader has seen exactly a prefix of its run's log. */
  ghost predicate InStep(state: State, run: RunId) {
    && AllDense(state.table)
    && state.reader.cursor == (if state.reader.seen == [] then None else Some(|state.reader.seen| - 1))
    && (run !in state.table ==> state.reader.seen == [])
    && (run in state.table ==> state.reader.seen <= Contents(state.table[run]))
  }

  /** One page: the next `limit` events that exist, no gap and no repeat. */
  lemma PageContinues(state: State, run: RunId, limit: nat)
    requires InStep(state, run) && run in state.table && 1 <= limit <= MAX_EVENT_LIMIT
    ensures var log := Contents(state.table[run]); var seen := |state.reader.seen|;
            var reader := Paged(state.reader, state.table, run, limit);
            && reader.seen == log[..Min(seen + limit, |log|)]
            && reader.cursor == if reader.seen == [] then None else Some(|reader.seen| - 1)
  {
    var log, seen := state.table[run], |state.reader.seen|;
    assert state.reader.seen == Contents(log)[..seen];
    SelectIsSlice(log, seen - 1, limit);
    var page := Read(state.table, run, state.reader.cursor, limit).value;
    var size := Min(seen + limit, log.next) - seen;
    assert |page.events| == size;
    var next := Contents(log)[seen..seen + size];
    forall k | 0 <= k < size ensures Payloads(page.events)[k] == next[k] {
      assert page.events[k] == (seen + k, log.rows[seen + k]) && next[k] == Contents(log)[seen + k];
    }
    assert Payloads(page.events) == next;
    assert Contents(log)[..seen] + Contents(log)[seen..seen + size] == Contents(log)[..seen + size];
  }

  lemma StepKeepsInStep(state: State, run: RunId, step: Step)
    requires InStep(state, run)
    ensures InStep(Exec(state, run, step), run)
  {
    match step {
      case Begin(_, _) =>
      case Append(writer, target, event) =>
        if Accepts(state.table, writer, target, event) {
          AppendExtends(state.table, writer, target, event);
        }
      case ReadPage(limit) =>
        if run in state.table && 1 <= limit <= MAX_EVENT_LIMIT {
          PageContinues(state, run, limit);
        }
    }
  }

  /**
   However appends and pages interleave: every run's sequence numbers are 0, 1, 2, ... up to its
   counter, and what the reader has collected is the beginning of the log, each event once.
  */
  lemma {:induction false} PagingIsExact(run: RunId, steps: seq<Step>, n: nat)
    requires n <= |steps|
    ensures InStep(After(START, run, steps, n), run)
  {
    if n > 0 {
      PagingIsExact(run, steps, n - 1);
      StepKeepsInStep(After(START, run, steps, n - 1), run, steps[n - 1]);
    }
  }

  /** A log only grows. */
  lemma {:induction false} LogOnlyGrows(run: RunId, steps: seq<Step>, m: nat, n: nat, target: RunId)
    requires m <= n <= |steps| && target in After(START, run, steps, m).table
    ensures AllDense(After(START, run, steps, m).table) && AllDense(After(START, run, steps, n).table)
    ensures target in After(START, run, steps, n).table
    ensures Contents(After(START, run, steps, m).table[target]) <= Contents(After(START, run, steps, n).table[target])
  {
    PagingIsExact(run, steps, m);
    PagingIsExact(run, steps, n);
    if m < n {
      LogOnlyGrows(run, steps, m, n - 1, target);
      PagingIsExact(run, steps, n - 1);
      var state := After(START, run, steps, n - 1);
      match steps[n - 1] {
        case Append(writer, other, event) =>
          if Accepts(state.table, writer, other, event) {
            AppendExtends(state.table, writer, other, event);
          }
        case _ =>
      }
    }
  }

  /** Handing back the cursor of an empty page starts over, unless nothing has been read yet. */
  lemma EmptyPageCursorContinuesExactlyWhen(state: State, run: RunId, limit: nat, next: nat)
    requires InStep(state, run) && run in state.table
    requires 1 <= limit <= MAX_EVENT_LIMIT && 1 <= next <= MAX_EVENT_LIMIT
    ensures var page := Read(state.table, run, state.reader.cursor, limit).value;
            var reader := Paged(state.reader, state.table, run, limit);
            Read(state.table, run, page.nextAfterSeq, next) == Read(state.table, run, reader.cursor, next) <==>
            |state.reader.seen| < |Contents(state.table[run])|
  {
    var log, seen := state.table[run], |state.reader.seen|;
    SelectIsSlice(log, seen - 1, limit);
    PageContinues(state, run, limit);
    SelectIsSlice(log, -1, next);
    var reader := Paged(state.reader, state.table, run, limit);
    SelectIsSlice(log, |reader.seen| - 1, next);
  }

  /* ---------- the store ---------- */

  class EventStore {
    var table: Table

    constructor ()
      ensures table == map[]
    {
      table := map[];
    }

    method BeginRun(run: RunId, event: Event)
      requires run !in table && AllDense(table)
      modifies this
      ensures table == Begun(old(table), run, event) && AllDense(table)
      ensures Contents(table[run]) == [event]
    {
      table := table[run := Log(1, map[0 := event])];
    }

    /** Take the next number of the run's counter. */
    method Allocate(run: RunId) returns (number: int)
      requires run in table
      modifies this
      ensures number == old(table)[run].next
      ensures table == old(table)[run := old(table)[run].(next := number + 1)]
    {
      var log := table[run];
      table := table[run := log.(next := log.next + 1)];
      number := table[run].next - 1;
    }

    /** Any of the four appends; the number it allocates is always free, so the insert cannot conflict. */
    method Append(writer: Writer, run: RunId, event: Event) returns (outcome: Result<int, AppendError>)
      requires AllDense(table)
      modifies this
      ensures table == Appended(old(table), writer, run, event) && AllDense(table)
      ensures outcome.Success? <==>
                && run in old(table)
                && (writer == Kernel ==>
                      && 0 < |event.eventType| <= 64
                      && forall c <- event.eventType :: !(c < ' ' || '\U{7F}' <= c <= '\U{9F}'))
      ensures outcome.Success? ==>
                && outcome.value == old(table)[run].next && outcome.value !in old(table)[run].rows
                && Contents(table[run]) == Contents(old(table)[run]) + [event]
                && Contents(table[run])[outcome.value] == event
      ensures outcome.Failure? ==> table == old(table)
    {
      if writer == Kernel && !ValidEventType(event.eventType) {
        return Failure(BadEventType);
      }
      if run !in table {
        return Failure(NoSuchRun);
      }
      ghost var before := table;
      var number := Allocate(run);
      assert number !in before[run].rows;
      table := table[run := table[run].(rows := table[run].rows[number := event])];
      AppendExtends(before, writer, run, event);
      assert table == Appended(before, writer, run, event);
      outcome := Success(number);
    }
  }
}
