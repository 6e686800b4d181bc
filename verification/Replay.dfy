/** What readers of the event store can rely on, over any sequence of calls. */
module Replay {
  import opened Contracts
  import opened Cursors
  import opened Stream
  import opened EventStore
  import opened Reads

  // --- Following pages ------------------------------------------------------------------------

  /** All events a reader collects who follows `next` until there is none. */
  ghost function Follow(topic: string, st: Stream, now: int, from: Option<string>, to: Option<string>, limit: int)
    : seq<EventRecord>
    requires topic != "" && limit >= 1
    decreases |st.recs| - Position(topic, from)
  {
    match Reading(topic, st, now, from, to, limit)
    case Failure(_) => []
    case Success(batch) =>
      if batch.next.None? then batch.events
      else
        NextAdvances(topic, st, now, from, to, limit);
        batch.events + Follow(topic, st, now, batch.next, to, limit)
  }

  ghost function Position(topic: string, from: Option<string>): int {
    match StartOf(topic, from)
    case Success(o) => o
    case Failure(_) => -1
  }

  /** A read with a valid cursor that has not expired cuts its page out of the log. */
  lemma ReadingCuts(topic: string, st: Stream, now: int, from: Option<string>, to: Option<string>, limit: int)
    requires from != Some(LATEST) && Reading(topic, st, now, from, to, limit).Success?
    ensures StartOf(topic, from).Success? && StartOf(topic, from).value >= -1
    ensures EndOf(topic, to, |st.recs|).Success? && EndOf(topic, to, |st.recs|).value >= 0
    ensures Fetch(st, now, Position(topic, from), |st.recs|, 1).Range?
    ensures Reading(topic, st, now, from, to, limit)
         == Success(Cut(topic, st.recs, First(topic, st, now, from), Stop(topic, st, to), limit))
  {
    hide Encode, OffsetFor, Cut, BatchOf, Stream.FirstLive;
    assert StartOf(topic, from).Success? && EndOf(topic, to, |st.recs|).Success?;
    assert Fetch(st, now, Position(topic, from), |st.recs|, 1).Range?;
    ReadingIs(topic, st, now, from, to, limit, StartOf(topic, from).value, EndOf(topic, to, |st.recs|).value);
  }

  /** The offset a read starts at, and the offset it stops before. */
  ghost function First(topic: string, st: Stream, now: int, from: Option<string>): (lo: int)
    ensures lo >= 0
  {
    Max(Position(topic, from) + 1, st.FirstLive(now))
  }

  ghost function Stop(topic: string, st: Stream, to: Option<string>): (stop: int)
    ensures stop <= |st.recs|
  {
    var end := EndOf(topic, to, |st.recs|);
    Min(|st.recs|, (if end.Success? then end.value else |st.recs|) + 1)
  }

  lemma StartOfCursor(topic: string, p: nat)
    requires topic != ""
    ensures StartOf(topic, Some(Encode(topic, p))) == Success(p) && Some(Encode(topic, p)) != Some(LATEST)
  {
    SplitEncode(topic, p);
    NotWord(topic, p);
  }

  /** A read from a position inside retention succeeds, if its end is valid. */
  lemma InsideSucceeds(topic: string, st: Stream, now: int, p: nat, to: Option<string>, limit: int)
    requires topic != "" && p >= st.FirstLive(now) && EndOf(topic, to, |st.recs|).Success?
    ensures Reading(topic, st, now, Some(Encode(topic, p)), to, limit).Success?
  {
    StartOfCursor(topic, p);
    hide Encode, StartOf, EndOf;
  }

  /** Whether a read succeeds does not depend on its limit. */
  lemma ReadingSucceeds(topic: string, st: Stream, now: int, from: Option<string>, to: Option<string>,
                        limit: int, n: int)
    requires Reading(topic, st, now, from, to, n).Success?
    ensures Reading(topic, st, now, from, to, limit).Success?
  {
    hide StartOf, EndOf, BatchOf;
  }

  lemma NextOfCut(topic: string, recs: seq<EventRecord>, lo: int, stop: int, limit: int) returns (hi: nat)
    requires 0 <= lo && stop <= |recs| && Cut(topic, recs, lo, stop, limit).next.Some?
    ensures lo < hi < stop
    ensures Cut(topic, recs, lo, stop, limit) == Batch(recs[lo..hi], Some(Encode(topic, hi - 1)))
  {
    hi := lo + Max(limit, 1);
  }

  /** A page that is not the last ends at its next cursor, which is valid, not expired and further on. */
  lemma NextAdvances(topic: string, st: Stream, now: int, from: Option<string>, to: Option<string>, limit: int)
    requires topic != ""
    requires var r := Reading(topic, st, now, from, to, limit); r.Success? && r.value.next.Some?
    ensures var batch := Reading(topic, st, now, from, to, limit).value;
      && from != Some(LATEST) && batch.next != Some(LATEST)
      && First(topic, st, now, batch.next) == First(topic, st, now, from) + |batch.events| < Stop(topic, st, to)
      && batch.events != []
      && Position(topic, from) < Position(topic, batch.next) < |st.recs|
      && Position(topic, batch.next) >= st.FirstLive(now)
      && batch.next == Some(Encode(topic, Position(topic, batch.next)))
  {
    hide Min, Zeros, AllDigits, Encode, Reading, StartOf, EndOf, Cut, Stop, Fetch, Stream.FirstLive;
    assert from != Some(LATEST) by {
      if from == Some(LATEST) { LatestIsEmpty(topic, st, now, to, limit); }
    }
    ReadingCuts(topic, st, now, from, to, limit);
    var hi := NextOfCut(topic, st.recs, First(topic, st, now, from), Stop(topic, st, to), limit);
    StartOfCursor(topic, hi - 1);
  }

  /** A page, and the pages after it, make up the unlimited cut. */
  lemma CutsJoin(topic: string, recs: seq<EventRecord>, lo: int, stop: int, limit: int)
    requires 0 <= lo && stop <= |recs| && limit >= 1
    ensures var page, whole := Cut(topic, recs, lo, stop, limit), Cut(topic, recs, lo, stop, |recs| + 1);
      && whole.next == None
      && (page.next.None? ==> page.events == whole.events)
      && (page.next.Some? ==>
            page.events + Cut(topic, recs, lo + |page.events|, stop, |recs| + 1).events == whole.events)
  {
    hide Encode;
    if Cut(topic, recs, lo, stop, limit).next.Some? {
      var hi := NextOfCut(topic, recs, lo, stop, limit);
      assert recs[lo..hi] + recs[hi..stop] == recs[lo..stop];
    }
  }

  /** Following the pages yields exactly the one unlimited read: no gap, no repeat. */
  lemma {:induction false} PagesCompose(topic: string, st: Stream, now: int,
                                        from: Option<string>, to: Option<string>, limit: int)
    requires topic != "" && limit >= 1
    requires Reading(topic, st, now, from, to, |st.recs| + 1).Success?
    ensures Follow(topic, st, now, from, to, limit) == Reading(topic, st, now, from, to, |st.recs| + 1).value.events
    ensures Reading(topic, st, now, from, to, |st.recs| + 1).value.next == None
    decreases |st.recs| - Position(topic, from)
  {
    hide Encode, StartOf, EndOf, First, Stop, Reading, Cut, Position, Fetch;
    if from == Some(LATEST) {
      LatestIsEmpty(topic, st, now, to, limit);
      LatestIsEmpty(topic, st, now, to, |st.recs| + 1);
      return;
    }
    var n := |st.recs| + 1;
    ReadingCuts(topic, st, now, from, to, n);
    ReadingSucceeds(topic, st, now, from, to, limit, n);
    ReadingCuts(topic, st, now, from, to, limit);
    CutsJoin(topic, st.recs, First(topic, st, now, from), Stop(topic, st, to), limit);
    var batch := Reading(topic, st, now, from, to, limit).value;
    if batch.next.Some? {
      NextAdvances(topic, st, now, from, to, limit);
      InsideSucceeds(topic, st, now, Position(topic, batch.next), to, n);
      PagesCompose(topic, st, now, batch.next, to, limit);
      ReadingCuts(topic, st, now, batch.next, to, n);
    }
  }

  // --- Sequences of calls ----------------------------------------------------------------------

  datatype Call =
    | Declare(topic: string, retention: int)
    | Append(topic: string, eventId: string, content: Content, at: int)
    | Compact(only: Option<string>, at: int)
    | Read(topic: string, from: Option<string>, to: Option<string>, limit: int, at: int)
    | Count(topic: string)
    | Oldest(topic: string, at: int)
    | Latest(topic: string)
    | Page(topic: string, position: int, limit: int, at: int)
    | Record(topic: string, cursor: string, at: int)

  datatype Answer =
    | Declared
    | Appended(record: Result<EventRecord, ErrorCode>)
    | Told(batch: Result<Batch, ErrorCode>)
    | Total(n: nat)
    | Edge(cursor: Option<string>)
    | Paged(events: seq<EventRecord>)
    | Found(found: Result<Option<EventRecord>, ErrorCode>)

  /** Calls a caller may make: topics have names, edges and pages are asked of known topics, time does not go back. */
  ghost predicate Legal(streams: map<string, Stream>, clock: int, calls: seq<Call>)
    decreases |calls|
  {
    calls == [] ||
    (var call := calls[0];
     && (call.Declare? ==> call.topic != "")
     && (call.Oldest? || call.Latest? || call.Page? ==> call.topic in streams)
     && clock <= Time(call, clock)
     && Legal(Next(streams, call), Time(call, clock), calls[1..]))
  }

  /** The clock reading of a call, or `clock` when it takes none. */
  function Time(call: Call, clock: int): int {
    if call.Declare? || call.Count? || call.Latest? then clock else call.at
  }

  /** What was ever appended, after `call`. */
  ghost function Next(streams: map<string, Stream>, call: Call): map<string, Stream> {
    match call
    case Declare(t, retention) => if t in streams then streams else streams[t := Stream(retention, [])]
    case Append(t, id, content, at) =>
      if t !in streams then streams
      else streams[t := streams[t].(recs := streams[t].recs + [EventRecord(id, t, |streams[t].recs|, content, at)])]
    case _ => streams
  }

  ghost function AnswerTo(streams: map<string, Stream>, call: Call): Answer
    requires !call.Compact? && (call.Oldest? || call.Latest? || call.Page? ==> call.topic in streams)
  {
    match call
    case Declare(_, _) => Declared
    case Append(t, id, content, at) =>
      Appended(if t !in streams then Failure(TopicNotFound)
               else Success(EventRecord(id, t, |streams[t].recs|, content, at)))
    case Read(t, from, to, limit, at) =>
      Told(if t in streams then Reading(t, streams[t], at, from, to, limit) else Failure(TopicNotFound))
    case Count(t) => Total(if t in streams then |streams[t].recs| else 0)
    case Oldest(t, at) => Edge(OldestOf(t, streams[t], at))
    case Latest(t) => Edge(Some(LatestOf(t, streams[t])))
    case Page(t, position, limit, at) => Paged(PageIn(streams, t, position, limit, at))
    case Record(t, cursor, at) => Found(RecordIn(streams, t, cursor, at))
  }

  ghost function After(streams: map<string, Stream>, calls: seq<Call>): map<string, Stream>
    decreases |calls|
  {
    if calls == [] then streams else After(Next(streams, calls[0]), calls[1..])
  }

  /** The answers to all calls but the compactions. */
  ghost function Answers(streams: map<string, Stream>, clock: int, calls: seq<Call>): seq<Answer>
    requires Legal(streams, clock, calls)
    decreases |calls|
  {
    if calls == [] then []
    else
      var call := calls[0];
      (if call.Compact? then [] else [AnswerTo(streams, call)]) +
      Answers(Next(streams, call), Time(call, clock), calls[1..])
  }

  /** The same calls without the compactions. */
  function Erased(calls: seq<Call>): seq<Call> {
    if calls == [] then [] else (if calls[0].Compact? then [] else [calls[0]]) + Erased(calls[1..])
  }

  /**
   * Compaction is invisible: a run without its compactions is possible too, gets the same answers
   * and leaves the same history.
   */
  lemma {:induction false} CompactionInvisible(streams: map<string, Stream>, clock: int, earlier: int,
                                                calls: seq<Call>)
    requires Legal(streams, clock, calls) && earlier <= clock
    ensures Legal(streams, earlier, Erased(calls))
    ensures Answers(streams, earlier, Erased(calls)) == Answers(streams, clock, calls)
    ensures After(streams, Erased(calls)) == After(streams, calls)
    decreases |calls|
  {
    hide AnswerTo;
    if calls != [] {
      var call := calls[0];
      CompactionInvisible(Next(streams, call), Time(call, clock),
                  if call.Compact? then earlier else Time(call, earlier), calls[1..]);
      if !call.Compact? {
        assert Erased(calls)[0] == call && Erased(calls)[1..] == Erased(calls[1..]);
      } else {
        assert Erased(calls) == Erased(calls[1..]);
      }
    }
  }

  /** The log of a topic only ever grows at its end. */
  lemma {:induction false} NeverRewritten(streams: map<string, Stream>, calls: seq<Call>, t: string)
    requires t in streams
    ensures t in After(streams, calls) && streams[t].recs <= After(streams, calls)[t].recs
    decreases |calls|
  {
    if calls != [] { NeverRewritten(Next(streams, calls[0]), calls[1..], t); }
  }

  /** An appended event gets an offset past all earlier ones and stays at it. */
  lemma {:induction false} AppendedStays(streams: map<string, Stream>, clock: int, calls: seq<Call>, i: nat)
    requires Legal(streams, clock, calls) && i < |Answers(streams, clock, calls)|
    requires var a := Answers(streams, clock, calls)[i]; a.Appended? && a.record.Success?
    ensures var e := Answers(streams, clock, calls)[i].record.value; var after := After(streams, calls);
      && e.topic in after && e.offset < |after[e.topic].recs| && after[e.topic].recs[e.offset] == e
      && (e.topic in streams ==> |streams[e.topic].recs| <= e.offset)
    decreases |calls|
  {
    var call, next := calls[0], Next(streams, calls[0]);
    if !call.Compact? && i == 0 {
      var e := AnswerTo(streams, call).record.value;
      NeverRewritten(next, calls[1..], e.topic);
    } else {
      AppendedStays(next, Time(call, clock), calls[1..], if call.Compact? then i else i - 1);
    }
  }

  /** Offsets, and with them cursors, are never reused, whatever was compacted in between. */
  lemma {:induction false} OffsetsNeverReused(streams: map<string, Stream>, clock: int, calls: seq<Call>,
                                              i: nat, j: nat)
    requires Legal(streams, clock, calls) && i < j < |Answers(streams, clock, calls)|
    requires var a := Answers(streams, clock, calls); a[i].Appended? && a[j].Appended?
    requires var a := Answers(streams, clock, calls); a[i].record.Success? && a[j].record.Success?
    requires var a := Answers(streams, clock, calls); a[i].record.value.topic == a[j].record.value.topic
    ensures var a := Answers(streams, clock, calls); a[i].record.value.offset < a[j].record.value.offset
    decreases |calls|
  {
    hide Encode, DigitChar, IsDigit, DigitValue;
    var call, next := calls[0], Next(streams, calls[0]);
    if !call.Compact? && i == 0 {
      AppendedStays(next, Time(call, clock), calls[1..], j - 1);
    } else if call.Compact? {
      OffsetsNeverReused(next, Time(call, clock), calls[1..], i, j);
    } else {
      OffsetsNeverReused(next, Time(call, clock), calls[1..], i - 1, j - 1);
    }
  }

  /** A store answers as if nothing had ever been dropped. */
  method Play(store: InMemoryEventStore, calls: seq<Call>, ghost clock: int) returns (answers: seq<Answer>)
    requires store.Valid() && store.clock <= clock && Legal(store.streams, clock, calls)
    modifies store
    ensures store.Valid() && store.streams == After(old(store.streams), calls)
    ensures answers == Answers(old(store.streams), clock, calls)
    decreases |calls|
  {
    answers := [];
    if calls == [] { return; }
    var first := Make(store, calls[0], clock);
    var rest := Play(store, calls[1..], Time(calls[0], clock));
    answers := first + rest;
  }

  method Make(store: InMemoryEventStore, call: Call, ghost clock: int) returns (answer: seq<Answer>)
    requires store.Valid() && store.clock <= clock <= Time(call, clock)
    requires call.Declare? ==> call.topic != ""
    requires call.Oldest? || call.Latest? || call.Page? ==> call.topic in store.streams
    modifies store
    ensures store.Valid() && store.streams == Next(old(store.streams), call) && store.clock <= Time(call, clock)
    ensures answer == if call.Compact? then [] else [AnswerTo(old(store.streams), call)]
  {
    hide Reading, OldestOf, LatestOf, Encode, Holds, Stored, PageIn, RecordIn;
    match call
    case Declare(t, retention) =>
      store.DeclareTopic(t, retention);
      answer := [Declared];
    case Append(t, id, content, at) =>
      var r := store.Append(t, id, content, at);
      answer := [Appended(r)];
    case Compact(only, at) =>
      var removed := store.Compact(only, at);
      answer := [];
    case Read(t, from, to, limit, at) =>
      var r := store.Read(t, from, to, limit, at);
      answer := [Told(r)];
    case Count(t) =>
      var n := store.Count(t);
      answer := [Total(n)];
    case Oldest(t, at) =>
      var c := store.OldestAvailableCursor(t, at);
      answer := [Edge(c)];
    case Latest(t) =>
      var c := store.LatestCursor(t);
      answer := [Edge(Some(c))];
    case Page(t, position, limit, at) =>
      var events := Reads.NextEvents(store, t, position, limit, at);
      answer := [Paged(events)];
    case Record(t, cursor, at) =>
      var r := Reads.RecordAt(store, t, cursor, at);
      answer := [Found(r)];
  }

  /** Two stores with the same past, of which only one is ever compacted, cannot be told apart. */
  method Compare(compacted: InMemoryEventStore, plain: InMemoryEventStore, calls: seq<Call>, ghost clock: int)
    returns (a: seq<Answer>, b: seq<Answer>)
    requires compacted != plain && compacted.Valid() && plain.Valid() && compacted.streams == plain.streams
    requires compacted.clock <= clock && plain.clock <= clock && Legal(compacted.streams, clock, calls)
    modifies compacted, plain
    ensures a == b
    ensures compacted.Valid() && plain.Valid() && compacted.streams == plain.streams
  {
    CompactionInvisible(compacted.streams, clock, clock, calls);
    a := Play(compacted, calls, clock);
    b := Play(plain, Erased(calls), clock);
  }
}
