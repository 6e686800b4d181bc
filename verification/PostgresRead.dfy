/**
 * The other form of a read: a table sorted by cursor, searched with clauses that compare cursors as
 * strings, and one row more than the limit to see whether there is a next page.  What it answers, and
 * for exactly which cursors and limits that is what the in-memory store answers.
 */
module PostgresRead {
  import opened Contracts
  import opened Cursors
  import opened Unissued
  import opened Stream
  import opened EventStore

  /** An answer or a protocol error; or an exception of the database or of the code around it. */
  datatype Outcome = Answered(r: Result<Batch, ErrorCode>) | Raised

  // --- What the read answers --------------------------------------------------------------------------

  /** The event's cursor is in range, as a string. */
  predicate Wanted(e: EventRecord, from: Option<string>, to: Option<string>) {
    && (from.Some? ==> Less(from.value, CursorOf(e)))
    && (to.Some? ==> !Less(to.value, CursorOf(e)))
  }

  function Selected(recs: seq<EventRecord>, from: Option<string>, to: Option<string>): seq<EventRecord> {
    if recs == [] then []
    else (if Wanted(recs[0], from, to) then [recs[0]] else []) + Selected(recs[1..], from, to)
  }

  /**
   * A page of the selected rows, when one more than `limit` is asked for.  A limit of zero fails on the
   * cursor of a last record that is not there, a negative one in any case.
   */
  function Limited(rows: seq<EventRecord>, limit: int): Outcome {
    if limit < 0 then Raised
    else if |rows| <= limit then Answered(Success(Batch(rows, None)))
    else if limit == 0 then Raised
    else Answered(Success(Batch(rows[..limit], Some(CursorOf(rows[limit - 1])))))
  }

  /** The cursor a read starts after, if any. */
  function After(from: Option<string>): Option<string> { if from == Some(EARLIEST) then None else from }

  ghost function SqlReading(topic: string, st: Stream, now: int, from: Option<string>, to: Option<string>, limit: int)
    : Outcome
  {
    var after, oldest := After(from), OldestOf(topic, st, now);
    if from == Some(LATEST) then Answered(Success(Batch([], None)))
    else if after.Some? && OffsetFor(topic, after.value).Failure? then
      Answered(Failure(OffsetFor(topic, after.value).error))
    else if after.Some? && oldest.Some? && Less(after.value, oldest.value) then Answered(Failure(CursorExpired))
    else if to.Some? && OffsetFor(topic, to.value).Failure? then Answered(Failure(OffsetFor(topic, to.value).error))
    else Limited(Selected(st.recs[st.FirstLive(now)..], after, to), limit)
  }

  // --- The read ---------------------------------------------------------------------------------------

  type Clause = EventRecord -> bool

  predicate AllHold(clauses: seq<Clause>, row: EventRecord) {
    forall i :: 0 <= i < |clauses| ==> clauses[i](row)
  }

  /** The rows that meet every clause, in table order. */
  function Matching(rows: seq<EventRecord>, clauses: seq<Clause>): seq<EventRecord> {
    if rows == [] then []
    else (if AllHold(clauses, rows[0]) then [rows[0]] else []) + Matching(rows[1..], clauses)
  }

  method Select(rows: seq<EventRecord>, clauses: seq<Clause>, limit: nat) returns (found: seq<EventRecord>)
    ensures var all := Matching(rows, clauses); found == all[..if |all| < limit then |all| else limit]
  {
    hide AllHold;
    found := [];
    var i := 0;
    while i < |rows| && |found| < limit
      invariant 0 <= i <= |rows| && |found| <= limit
      invariant Matching(rows, clauses) == found + Matching(rows[i..], clauses)
    {
      assert rows[i..][1..] == rows[i + 1..];
      if AllHold(clauses, rows[i]) { found := found + [rows[i]]; }
      i := i + 1;
    }
    assert rows[|rows|..] == [];
  }

  predicate LiveRow(row: EventRecord, retention: int, now: int) {
    retention <= 0 || row.createdAt >= now - retention
  }

  /** The smallest cursor among the live rows, as a string. */
  method MinCursor(rows: seq<EventRecord>, retention: int, now: int) returns (least: Option<string>, ghost at: int)
    ensures least.None? <==> forall i :: 0 <= i < |rows| ==> !LiveRow(rows[i], retention, now)
    ensures least.Some? ==> 0 <= at < |rows| && LiveRow(rows[at], retention, now) && CursorOf(rows[at]) == least.value
    ensures least.Some? ==> forall i :: 0 <= i < |rows| && LiveRow(rows[i], retention, now) ==>
                              !Less(CursorOf(rows[i]), least.value)
  {
    hide Less, CursorOf;
    least, at := None, -1;
    for k := 0 to |rows|
      invariant least.None? <==> forall i :: 0 <= i < k ==> !LiveRow(rows[i], retention, now)
      invariant least.Some? ==> 0 <= at < k && LiveRow(rows[at], retention, now) && CursorOf(rows[at]) == least.value
      invariant least.Some? ==> forall i :: 0 <= i < k && LiveRow(rows[i], retention, now) ==>
                                  !Less(CursorOf(rows[i]), least.value)
    {
      var c := CursorOf(rows[k]);
      if LiveRow(rows[k], retention, now) && (least.None? || Less(c, least.value)) {
        forall i | 0 <= i < k && LiveRow(rows[i], retention, now) ensures !Less(CursorOf(rows[i]), c) {
          if Less(CursorOf(rows[i]), c) { LessTransitive(CursorOf(rows[i]), c, least.value); }
        }
        LessIrreflexive(c);
        least, at := Some(c), k;
      }
    }
  }

  lemma {:induction false} LessIrreflexive(a: string)
    ensures !Less(a, a)
  {
    if a != "" { LessIrreflexive(a[1..]); }
  }

  lemma OneMore(clauses: seq<Clause>, c: Clause)
    ensures forall e :: AllHold(clauses + [c], e) <==> AllHold(clauses, e) && c(e)
  {
    forall e ensures AllHold(clauses + [c], e) <==> AllHold(clauses, e) && c(e) {
      var all := clauses + [c];
      assert all[|clauses|] == c;
      assert forall i :: 0 <= i < |clauses| ==> all[i] == clauses[i];
    }
  }

  /** The clauses of a read, collected step by step. */
  method Clauses(topic: string, retention: int, from: Option<string>, to: Option<string>, now: int)
    returns (clauses: seq<Clause>)
    ensures forall e :: AllHold(clauses, e) <==> e.topic == topic && Wanted(e, from, to) && LiveRow(e, retention, now)
  {
    assert forall e :: AllHold([], e);
    hide Less, CursorOf, AllHold;
    OneMore([], (e: EventRecord) => e.topic == topic);
    clauses := [] + [(e: EventRecord) => e.topic == topic];
    if from.Some? {
      OneMore(clauses, (e: EventRecord) => Less(from.value, CursorOf(e)));
      clauses := clauses + [(e: EventRecord) => Less(from.value, CursorOf(e))];
    }
    if to.Some? {
      OneMore(clauses, (e: EventRecord) => !Less(to.value, CursorOf(e)));
      clauses := clauses + [(e: EventRecord) => !Less(to.value, CursorOf(e))];
    }
    if retention > 0 {
      OneMore(clauses, (e: EventRecord) => e.createdAt >= now - retention);
      clauses := clauses + [(e: EventRecord) => e.createdAt >= now - retention];
    }
  }

  /** Of rows of one topic, of which those from `k` on are live, the clauses leave the live ones in range. */
  lemma {:induction false} ClausesSelect(rows: seq<EventRecord>, clauses: seq<Clause>, topic: string, retention: int,
                                         from: Option<string>, to: Option<string>, now: int, k: nat)
    requires forall e :: AllHold(clauses, e) <==> e.topic == topic && Wanted(e, from, to) && LiveRow(e, retention, now)
    requires k <= |rows| && forall i :: 0 <= i < |rows| ==> rows[i].topic == topic
    requires forall i :: 0 <= i < |rows| ==> (LiveRow(rows[i], retention, now) <==> k <= i)
    ensures Matching(rows, clauses) == Selected(rows[k..], from, to)
  {
    hide AllHold, Wanted, LiveRow;
    if rows != [] {
      forall i | 0 <= i < |rows[1..]| ensures LiveRow(rows[1..][i], retention, now) <==> k - 1 <= i {
        assert rows[1..][i] == rows[i + 1];
      }
      ClausesSelect(rows[1..], clauses, topic, retention, from, to, now, if k == 0 then 0 else k - 1);
      if k == 0 {
        assert rows[0..] == rows && rows[1..][0..] == rows[1..];
      } else {
        assert rows[1..][k - 1..] == rows[k..];
      }
    }
  }

  /** The table holds the live events at its end. */
  lemma LiveEnd(topic: string, st: Stream, log: TopicLog, clock: int, now: int) returns (k: nat)
    requires Holds(topic, st, log, clock) && clock <= now
    ensures k <= |log.events| && log.events[k..] == st.recs[st.FirstLive(now)..]
    ensures forall i :: 0 <= i < |log.events| ==>
              log.events[i].topic == topic && (LiveRow(log.events[i], log.retention, now) <==> k <= i)
  {
    HoldsLater(topic, st, log, clock, now);
    CompactHolds(topic, st, log, now);
    var base := |st.recs| - |log.events|;
    k := st.FirstLive(now) - base;
    forall i | 0 <= i < |log.events|
      ensures log.events[i].topic == topic && (LiveRow(log.events[i], log.retention, now) <==> k <= i)
    {
      assert log.events[i] == st.recs[base + i];
      StoredLive(topic, st, log, clock, now, i);
    }
    hide Holds, Stream.FirstLive, LiveRow;
    assert st.recs[base..][k..] == st.recs[st.FirstLive(now)..];
  }

  /** The smallest cursor of the live rows is the cursor of the oldest live event. */
  lemma LeastIsOldest(topic: string, st: Stream, log: TopicLog, clock: int, now: int, least: Option<string>, at: int)
    requires Holds(topic, st, log, clock) && clock <= now && |st.recs| <= Power(WIDTH)
    requires least.None? <==> forall i :: 0 <= i < |log.events| ==> !LiveRow(log.events[i], log.retention, now)
    requires least.Some? ==> && 0 <= at < |log.events| && LiveRow(log.events[at], log.retention, now)
                             && CursorOf(log.events[at]) == least.value
    requires least.Some? ==> forall i :: 0 <= i < |log.events| && LiveRow(log.events[i], log.retention, now) ==>
                               !Less(CursorOf(log.events[i]), least.value)
    ensures least == OldestOf(topic, st, now)
  {
    hide Less, Encode, CursorOf, Power, Stream.Ordered, Stream.LiveAt, Holds, Stream.FirstLive, LiveRow;
    var k := LiveEnd(topic, st, log, clock, now);
    var first, base := st.FirstLive(now), |st.recs| - |log.events|;
    HoldsSizes(topic, st, log, clock);
    assert |log.events[k..]| == |st.recs[first..]|;
    if first < |st.recs| {
      assert LiveRow(log.events[k], log.retention, now);
      OldestIsLeast(topic, st, log, clock, now, least, k, at);
    }
  }

  lemma HoldsSizes(topic: string, st: Stream, log: TopicLog, clock: int)
    requires Holds(topic, st, log, clock)
    ensures |log.events| <= |st.recs|
  {
  }

  lemma OldestIsLeast(topic: string, st: Stream, log: TopicLog, clock: int, now: int,
                      least: Option<string>, k: nat, i: nat)
    requires Holds(topic, st, log, clock) && clock <= now && |st.recs| <= Power(WIDTH)
    requires k < |log.events| && |st.recs| - |log.events| + k == st.FirstLive(now)
    requires least.Some? && !Less(CursorOf(log.events[k]), least.value)
    requires i < |log.events| && LiveRow(log.events[i], log.retention, now) && CursorOf(log.events[i]) == least.value
    ensures least == Some(Encode(topic, st.FirstLive(now)))
  {
    var base := |st.recs| - |log.events|;
    hide Holds, Encode, Less, Stream.FirstLive;
    StoredLive(topic, st, log, clock, now, i);
    CursorAt(topic, st, log, clock, i);
    CursorAt(topic, st, log, clock, k);
    EncodeOrder(topic, base + k, base + i);
  }

  lemma CursorAt(topic: string, st: Stream, log: TopicLog, clock: int, i: nat)
    requires Holds(topic, st, log, clock) && i < |log.events|
    ensures var o := |st.recs| - |log.events| + i;
      && 0 <= o < |st.recs|
      && CursorOf(log.events[i]) == Encode(topic, o)
  {
    assert log.events[i] == st.recs[|st.recs| - |log.events| + i];
  }

  /** The rows a read asks for, and the page it makes of them. */
  method Page(rows: seq<EventRecord>, clauses: seq<Clause>, limit: int) returns (page: Outcome)
    ensures page == Limited(Matching(rows, clauses), limit)
  {
    hide CursorOf, Matching;
    if limit + 1 < 0 { return Raised; }
    var found := Select(rows, clauses, limit + 1);
    assert |found| <= limit ==> found == Matching(rows, clauses);
    if |found| <= limit { return Answered(Success(Batch(found, None))); }
    if limit <= 0 { return Raised; }
    assert found[..limit] == Matching(rows, clauses)[..limit];
    return Answered(Success(Batch(found[..limit], Some(CursorOf(found[limit - 1])))));
  }

  /** The Postgres read, over the table of one topic sorted by cursor, for any cursors and any limit. */
  method Read(topic: string, retention: int, rows: seq<EventRecord>, from: Option<string>, to: Option<string>,
              limit: int, now: int, ghost st: Stream, ghost clock: int)
    returns (r: Outcome)
    requires Holds(topic, st, TopicLog(retention, rows, |st.recs|), clock) && clock <= now
    requires |st.recs| <= Power(WIDTH)
    ensures r == SqlReading(topic, st, now, from, to, limit)
  {
    hide Power, Encode, Split, Less, Holds, AllHold, LiveRow, Wanted, Matching, Selected, Limited, Stream.FirstLive;
    if from == Some(LATEST) { return Answered(Success(Batch([], None))); }
    ghost var log := TopicLog(retention, rows, |st.recs|);
    var after: Option<string> := None;
    if from.Some? && from.value != EARLIEST {
      var parsed := OffsetFor(topic, from.value);
      if parsed.Failure? { return Answered(Failure(parsed.error)); }
      var oldest, at := MinCursor(rows, retention, now);
      LeastIsOldest(topic, st, log, clock, now, oldest, at);
      if oldest.Some? && Less(from.value, oldest.value) { return Answered(Failure(CursorExpired)); }
      after := from;
    }
    if to.Some? {
      var parsed := OffsetFor(topic, to.value);
      if parsed.Failure? { return Answered(Failure(parsed.error)); }
    }
    var clauses := Clauses(topic, retention, after, to, now);
    ghost var k := LiveEnd(topic, st, log, clock, now);
    ClausesSelect(rows, clauses, topic, retention, after, to, now, k);
    r := Page(rows, clauses, limit);
  }

  // --- Where both forms answer alike ------------------------------------------------------------------

  /** A log as the store appends it, within the padding. */
  ghost predicate Logs(topic: string, st: Stream) {
    && topic != "" && st.Ordered() && |st.recs| <= Power(WIDTH)
    && forall i :: 0 <= i < |st.recs| ==> st.recs[i].topic == topic && st.recs[i].offset == i
  }

  /** On every log and at every time both forms give this read the same answer. */
  ghost predicate Agree(topic: string, from: Option<string>, to: Option<string>, limit: int) {
    forall st: Stream, now: int :: Logs(topic, st) ==>
      SqlReading(topic, st, now, from, to, limit) == Answered(Reading(topic, st, now, from, to, limit))
  }

  function DigitsOf(topic: string, c: string): string {
    if |c| > |topic| then c[|topic| + 1..] else ""
  }

  /** A cursor that is valid for the topic is the topic and digits. */
  lemma ValidCursor(topic: string, c: string)
    requires OffsetFor(topic, c).Success?
    ensures var raw := DigitsOf(topic, c);
      && AllDigits(raw) && raw != "" && c == topic + ":" + raw && OffsetFor(topic, c) == Success(Number(raw))
  {
    hide Number;
    var i := LastColon(c);
    assert c == c[..i] + ":" + c[i + 1..];
  }

  /** The digits of a valid cursor are such that strings and offsets compare alike. */
  predicate AlignedFor(topic: string, c: string)
    requires OffsetFor(topic, c).Success?
  {
    ValidCursor(topic, c);
    Aligned(DigitsOf(topic, c))
  }

  /** Neither a cursor both forms refuse nor one they read alike is excluded; an empty end is. */
  predicate GoodEnd(topic: string, to: Option<string>) {
    to.Some? ==> to.value != "" && (OffsetFor(topic, to.value).Success? ==> AlignedFor(topic, to.value))
  }

  predicate GoodStart(topic: string, from: Option<string>) {
    from.Some? && from.value != EARLIEST && OffsetFor(topic, from.value).Success? ==> AlignedFor(topic, from.value)
  }

  /** An aligned cursor stands to an issued one as its offset does. */
  lemma AlignedOrder(topic: string, c: string, o: nat)
    requires OffsetFor(topic, c).Success? && o < Power(WIDTH) && AlignedFor(topic, c)
    ensures Less(c, Encode(topic, o)) <==> OffsetFor(topic, c).value < o
  {
    ValidCursor(topic, c);
    var raw := DigitsOf(topic, c);
    SortsLikeExactly(raw);
    hide Less, Padded, Number, Power, OffsetFor;
    LessAfterPrefix(topic + ":", raw, Padded(o));
  }

  /** The events that are wanted from `f` on, when those are the ones at offsets from `lo` and before `stop`. */
  lemma {:induction false} SelectedRange(recs: seq<EventRecord>, from: Option<string>, to: Option<string>, f: nat,
                                         lo: int, stop: int)
    requires f <= |recs| && f <= lo && stop <= |recs|
    requires forall i :: f <= i < |recs| ==> (Wanted(recs[i], from, to) <==> lo <= i < stop)
    ensures Selected(recs[f..], from, to) == if lo < stop then recs[lo..stop] else []
    decreases |recs| - f
  {
    hide Wanted;
    if f < |recs| {
      assert recs[f..][0] == recs[f] && recs[f..][1..] == recs[f + 1..];
      SelectedRange(recs, from, to, f + 1, if f == lo then lo + 1 else lo, stop);
      if f == lo < stop { assert recs[lo..stop] == [recs[f]] + recs[lo + 1..stop]; }
    } else {
      assert recs[f..] == [];
    }
  }

  /** A cut of the log, as both forms make a page of it. */
  lemma LimitedCut(topic: string, st: Stream, lo: int, stop: int, limit: int)
    requires Logs(topic, st) && 0 <= lo && stop <= |st.recs| && limit >= 1
    ensures Limited(if lo < stop then st.recs[lo..stop] else [], limit)
        == Answered(Success(Cut(topic, st.recs, lo, stop, limit)))
  {
    hide Power, Encode, Stream.Ordered;
    if lo < stop && stop - lo > limit {
      assert st.recs[lo..stop][..limit] == st.recs[lo..lo + limit];
      assert st.recs[lo..stop][limit - 1] == st.recs[lo + limit - 1];
    }
  }

  /** Whether the start is taken for expired. */
  lemma SameExpiry(topic: string, st: Stream, now: int, c: string)
    requires Logs(topic, st) && OffsetFor(topic, c).Success? && AlignedFor(topic, c)
    ensures var oldest := OldestOf(topic, st, now);
      oldest.Some? && Less(c, oldest.value) <==> Fetch(st, now, OffsetFor(topic, c).value, |st.recs|, 1).Stale?
  {
    hide Power, Encode, Less, AlignedFor, OffsetFor, Stream.Ordered;
    if st.FirstLive(now) < |st.recs| { AlignedOrder(topic, c, st.FirstLive(now)); }
    hide Stream.FirstLive;
  }

  /** Which events are wanted, in offsets. */
  lemma WantedIs(topic: string, st: Stream, from: Option<string>, to: Option<string>, o: nat)
    requires Logs(topic, st) && o < |st.recs|
    requires from.Some? ==> OffsetFor(topic, from.value).Success? && AlignedFor(topic, from.value)
    requires to.Some? ==> OffsetFor(topic, to.value).Success? && AlignedFor(topic, to.value)
    ensures Wanted(st.recs[o], from, to)
       <==> && (from.Some? ==> OffsetFor(topic, from.value).value < o)
            && (to.Some? ==> o <= OffsetFor(topic, to.value).value)
  {
    hide Power, Encode, Less, AlignedFor, OffsetFor, Stream.Ordered;
    if from.Some? { AlignedOrder(topic, from.value, o); }
    if to.Some? { AlignedOrder(topic, to.value, o); }
  }

  lemma SameRange(topic: string, st: Stream, now: int, from: Option<string>, to: Option<string>, limit: int)
    requires Logs(topic, st) && limit >= 1 && from != Some(EARLIEST) && from != Some(LATEST)
    requires from.Some? ==> OffsetFor(topic, from.value).Success? && AlignedFor(topic, from.value)
    requires to.Some? ==> to.value != "" && OffsetFor(topic, to.value).Success? && AlignedFor(topic, to.value)
    requires Fetch(st, now, if from.Some? then OffsetFor(topic, from.value).value else -1, |st.recs|, 1).Range?
    ensures Limited(Selected(st.recs[st.FirstLive(now)..], from, to), limit)
         == Answered(Reading(topic, st, now, from, to, limit))
  {
    hide Encode, Less, AlignedFor, OffsetFor, Stream.Ordered, Stream.FirstLive, Wanted, Selected, Limited, Cut, Reading;
    var start := if from.Some? then OffsetFor(topic, from.value).value else -1;
    var upto := if to.Some? then OffsetFor(topic, to.value).value else |st.recs|;
    var f := st.FirstLive(now);
    var lo, stop := Max(start + 1, f), Min(|st.recs|, upto + 1);
    forall i | f <= i < |st.recs| ensures Wanted(st.recs[i], from, to) <==> lo <= i < stop {
      WantedIs(topic, st, from, to, i);
    }
    SelectedRange(st.recs, from, to, f, lo, stop);
    LimitedCut(topic, st, lo, stop, limit);
    hide Logs;
    ReadingIs(topic, st, now, from, to, limit, start, upto);
  }

  /** With aligned cursors, no empty end and a limit of at least one both forms answer alike. */
  lemma SameAnswer(topic: string, st: Stream, now: int, from: Option<string>, to: Option<string>, limit: int)
    requires Logs(topic, st) && GoodStart(topic, from) && GoodEnd(topic, to) && limit >= 1
    ensures SqlReading(topic, st, now, from, to, limit) == Answered(Reading(topic, st, now, from, to, limit))
  {
    hide Less, AlignedFor, OffsetFor, Stream.FirstLive, Selected, Limited, Reading, Logs, OldestOf, Fetch;
    if from == Some(LATEST) {
      LatestIsEmpty(topic, st, now, to, limit);
    } else {
      var after := After(from);
      ReadingFails(topic, st, now, from, to, limit);
      EarliestIsNone(topic, st, now, to, limit);
      if after.None? { FromNone(st, now); }
      else if OffsetFor(topic, after.value).Success? { SameExpiry(topic, st, now, after.value); }
      if (after.Some? ==> OffsetFor(topic, after.value).Success?) && (to.Some? ==> OffsetFor(topic, to.value).Success?)
         && Fetch(st, now, if after.Some? then OffsetFor(topic, after.value).value else -1, |st.recs|, 1).Range?
      {
        SameRange(topic, st, now, after, to, limit);
      }
    }
  }

  lemma EarliestIsNone(topic: string, st: Stream, now: int, to: Option<string>, limit: int)
    ensures Reading(topic, st, now, Some(EARLIEST), to, limit) == Reading(topic, st, now, None, to, limit)
  {
    hide OffsetFor, Fetch, BatchOf;
  }

  lemma FromNone(st: Stream, now: int)
    ensures Fetch(st, now, -1, |st.recs|, 1).Range?
  {
  }

  // --- Where they do not ------------------------------------------------------------------------------

  /** A log of one event more than `o`, of which just the last is live. */
  function Old(topic: string, o: nat): Stream {
    Stream(5, seq(o + 1, i requires 0 <= i < o + 1 =>
      EventRecord("", topic, i, Content("k", None, "d"), if i < o then 0 else 10)))
  }

  lemma OldLogs(topic: string, o: nat)
    requires topic != "" && o < Power(WIDTH)
    ensures var st := Old(topic, o);
      && Logs(topic, st) && |st.recs| == o + 1 && st.FirstLive(10) == o && st.recs[o..] == [st.recs[o]]
      && CursorOf(st.recs[o]) == Encode(topic, o)
  {
    hide Power, Encode;
    var st := Old(topic, o);
    assert st.LiveAt(10, o);
    if st.FirstLive(10) < o { assert false; }
  }

  /** No cursor is refused with the error that stands for an expired one. */
  lemma RefusedOtherwise(topic: string, c: string)
    requires OffsetFor(topic, c).Failure?
    ensures OffsetFor(topic, c).error == InvalidCursor
  {
  }

  lemma OffsetForDigits(topic: string, raw: string)
    requires topic != "" && AllDigits(raw) && raw != ""
    ensures OffsetFor(topic, topic + ":" + raw) == Success(Number(raw))
  {
    SplitDigits(topic, raw);
  }

  lemma EncodeIs(topic: string, o: nat)
    ensures Encode(topic, o) == topic + ":" + Padded(o)
  {
  }

  /** The table form takes a start for expired exactly when it sorts before the oldest live cursor. */
  lemma SqlExpires(topic: string, st: Stream, now: int, c: string, to: Option<string>, limit: int, o: nat)
    requires c != EARLIEST && c != LATEST && OffsetFor(topic, c).Success? && o < |st.recs| && st.FirstLive(now) == o
    ensures SqlReading(topic, st, now, Some(c), to, limit) == Answered(Failure(CursorExpired))
        <==> Less(c, Encode(topic, o))
  {
    hide Less, Encode, Selected, Stream.FirstLive;
    if to.Some? && OffsetFor(topic, to.value).Failure? { RefusedOtherwise(topic, to.value); }
    hide OffsetFor;
  }

  /** A start that stands on the wrong side of some offset expires in one form only. */
  lemma MisplacedStart(topic: string, raw: string, to: Option<string>, limit: int)
    requires topic != "" && AllDigits(raw) && raw != "" && !Aligned(raw)
    ensures !Agree(topic, Some(topic + ":" + raw), to, limit)
  {
    var c := topic + ":" + raw;
    var o := Misplaced(raw);
    var st := Old(topic, o);
    assert c != EARLIEST && c != LATEST by { assert c[|topic|] == ':'; assert ':' !in EARLIEST && ':' !in LATEST; }
    hide Less, Number, Power, Padded, Stream.FirstLive, Selected, Reading, Aligned, Logs, Old, Encode, SqlReading,
        OffsetFor;
    OldLogs(topic, o);
    SplitDigits(topic, raw);
    assert OffsetFor(topic, c) == Success(Number(raw)) by { OffsetForDigits(topic, raw); }
    LessAfterPrefix(topic + ":", raw, Padded(o));
    EncodeIs(topic, o);
    SqlExpires(topic, st, 10, c, to, limit, o);
    ReadingFails(topic, st, 10, Some(c), to, limit);
    if Number(raw) >= o { NotExpired(topic, st, 10, Some(c), to, limit, Number(raw)); }
    assert SqlReading(topic, st, 10, Some(c), to, limit) != Answered(Reading(topic, st, 10, Some(c), to, limit));
  }

  lemma NotExpired(topic: string, st: Stream, now: int, from: Option<string>, to: Option<string>, limit: int,
                   start: int)
    requires from != Some(LATEST) && StartOf(topic, from) == Success(start) && start >= -1
    requires Fetch(st, now, start, |st.recs|, 1).Range?
    ensures Reading(topic, st, now, from, to, limit) != Failure(CursorExpired)
  {
  }

  /**
   * Where a read starts: with an end both forms take alike and a limit of at least one, they agree on a
   * start with digits `raw` on every log if and only if the digits are aligned.
   */
  lemma StartExactly(topic: string, raw: string, to: Option<string>, limit: int)
    requires topic != "" && AllDigits(raw) && raw != "" && GoodEnd(topic, to) && limit >= 1
    ensures Agree(topic, Some(topic + ":" + raw), to, limit) <==> Aligned(raw)
  {
    hide SqlReading, Reading, Logs, GoodEnd;
    var c := topic + ":" + raw;
    if Aligned(raw) {
      assert GoodStart(topic, Some(c)) by {
        SplitDigits(topic, raw);
        assert DigitsOf(topic, c) == raw;
      }
      forall st: Stream, now: int | Logs(topic, st)
        ensures SqlReading(topic, st, now, Some(c), to, limit) == Answered(Reading(topic, st, now, Some(c), to, limit))
      {
        SameAnswer(topic, st, now, Some(c), to, limit);
      }
    } else {
      MisplacedStart(topic, raw, to, limit);
    }
  }

  lemma LastSelected(e: EventRecord, to: Option<string>)
    ensures Selected([e], None, to) == if Wanted(e, None, to) then [e] else []
  {
    hide Wanted;
    assert [e][1..] == [] && Selected([], None, to) == [];
  }

  /** The last event of such a log, read from its start: whether it is wanted, and what the other form answers. */
  lemma OldRead(topic: string, o: nat, from: Option<string>, to: Option<string>, limit: int)
    requires topic != "" && o < Power(WIDTH) && (from == None || from == Some(EARLIEST))
    requires to.Some? ==> to.value != "" && OffsetFor(topic, to.value).Success?
    ensures var st := Old(topic, o);
      && Logs(topic, st)
      && SqlReading(topic, st, 10, from, to, limit)
         == Limited(if to.Some? && Less(to.value, Encode(topic, o)) then [] else [st.recs[o]], limit)
      && Reading(topic, st, 10, from, to, limit).Success?
      && (Reading(topic, st, 10, from, to, limit).value.events == []
          <==> to.Some? && OffsetFor(topic, to.value).value < o)
  {
    var st := Old(topic, o);
    OldLogs(topic, o);
    hide Less, Power, OffsetFor, Stream.FirstLive, Logs, Encode, Reading, Limited, Cut, Old, Selected;
    LastSelected(st.recs[o], to);
    var upto := if to.Some? then OffsetFor(topic, to.value).value else |st.recs|;
    FromNone(st, 10);
    ReadingIs(topic, st, 10, from, to, limit, -1, upto);
    CutEmpty(topic, st.recs, o, Min(|st.recs|, upto + 1), limit);
  }

  lemma CutEmpty(topic: string, recs: seq<EventRecord>, lo: int, stop: int, limit: int)
    requires 0 <= lo && stop <= |recs|
    ensures Cut(topic, recs, lo, stop, limit).events == [] <==> lo >= stop
  {
    hide Encode;
  }

  /** Where they disagree on an end: beyond an offset on its wrong side, or when it is empty. */
  lemma BadEnd(topic: string, from: Option<string>, to: Option<string>, limit: int)
    requires topic != "" && (from == None || from == Some(EARLIEST)) && !GoodEnd(topic, to)
    ensures !Agree(topic, from, to, limit)
  {
    if to.value == "" {
      EmptyEnd(topic, from, limit);
    } else {
      ValidCursor(topic, to.value);
      var raw := DigitsOf(topic, to.value);
      var o := Misplaced(raw);
      hide Less, Power, Padded, Number, SqlReading, Reading, OffsetFor, Old, Aligned;
      LessAfterPrefix(topic + ":", raw, Padded(o));
      OldRead(topic, o, from, to, limit);
      assert Answered(Reading(topic, Old(topic, o), 10, from, to, limit))
        != SqlReading(topic, Old(topic, o), 10, from, to, limit);
    }
  }

  lemma EmptyInvalid()
    ensures forall topic :: OffsetFor(topic, "") == Failure(InvalidCursor)
  {
    assert Split("") == Failure(InvalidCursor);
  }

  lemma EmptyEnd(topic: string, from: Option<string>, limit: int)
    requires topic != "" && (from == None || from == Some(EARLIEST))
    ensures !Agree(topic, from, Some(""), limit)
  {
    var st := Stream(0, []);
    EmptyInvalid();
    assert SqlReading(topic, st, 0, from, Some(""), limit) == Answered(Failure(InvalidCursor));
    assert Reading(topic, st, 0, from, Some(""), limit).Success?;
    assert Logs(topic, st);
  }

  /** And on a limit below one: as soon as there is an event to read. */
  lemma BadLimit(topic: string, from: Option<string>, to: Option<string>, limit: int)
    requires topic != "" && (from == None || from == Some(EARLIEST)) && limit < 1
    requires to.Some? ==> to.value != "" && OffsetFor(topic, to.value).Success? && AlignedFor(topic, to.value)
    ensures !Agree(topic, from, to, limit)
  {
    PowerGrows(WIDTH);
    hide Less, Power, SqlReading, Reading, OffsetFor, Old, AlignedFor, Encode;
    if to.Some? { AlignedOrder(topic, to.value, 0); }
    OldRead(topic, 0, from, to, limit);
    assert SqlReading(topic, Old(topic, 0), 10, from, to, limit) == Raised;
  }

  /**
   * From the start of retention: they agree on every log if and only if both refuse the end, or the end
   * is absent or aligned and the limit at least one.
   */
  lemma EndExactly(topic: string, from: Option<string>, to: Option<string>, limit: int)
    requires topic != "" && (from == None || from == Some(EARLIEST))
    ensures Agree(topic, from, to, limit)
       <==> GoodEnd(topic, to) && (limit >= 1 || (to.Some? && OffsetFor(topic, to.value).Failure?))
  {
    hide SqlReading, Reading, Logs, OffsetFor, AlignedFor;
    if !GoodEnd(topic, to) {
      BadEnd(topic, from, to, limit);
    } else if to.Some? && OffsetFor(topic, to.value).Failure? {
      forall st: Stream, now: int | Logs(topic, st)
        ensures SqlReading(topic, st, now, from, to, limit) == Answered(Reading(topic, st, now, from, to, limit))
      {
        BothRefuse(topic, st, now, from, to, limit);
      }
    } else if limit < 1 {
      BadLimit(topic, from, to, limit);
    } else {
      forall st: Stream, now: int | Logs(topic, st)
        ensures SqlReading(topic, st, now, from, to, limit) == Answered(Reading(topic, st, now, from, to, limit))
      {
        SameAnswer(topic, st, now, from, to, limit);
      }
    }
  }

  lemma BothRefuse(topic: string, st: Stream, now: int, from: Option<string>, to: Option<string>, limit: int)
    requires (from == None || from == Some(EARLIEST)) && to.Some? && to.value != ""
        && OffsetFor(topic, to.value).Failure?
    ensures SqlReading(topic, st, now, from, to, limit) == Answered(Reading(topic, st, now, from, to, limit))
  {
    hide OffsetFor, Stream.FirstLive, Selected, Limited, Reading;
    FromNone(st, now);
    ReadingFails(topic, st, now, from, to, limit);
  }

  // --- Inputs on which they differ --------------------------------------------------------------------

  lemma FiveOffset()
    ensures OffsetFor("t", "t:5") == Success(5) && !Less("t:5", Encode("t", 0)) && "t:5" != EARLIEST && "t:5" != LATEST
  {
    assert Number("5") == 5 by { assert "5"[..0] == ""; }
    assert "t" + ":" + "5" == "t:5" && "t:" + "5" == "t:5";
    OffsetForDigits("t", "5");
    FiveLast();
    SevenLogs();
    hide Number, Less, Power, Padded, Seven;
    assert !Wanted(Seven().recs[0], Some("t:5"), None);
  }

  /** Seven live events: after "t:5" the in-memory store has the last one, the table has none. */
  lemma ShortCursorSkips()
    ensures Reading("t", Seven(), 0, Some("t:5"), None, 100) == Success(Batch([Seven().recs[6]], None))
    ensures SqlReading("t", Seven(), 0, Some("t:5"), None, 100) == Answered(Success(Batch([], None)))
    ensures Logs("t", Seven())
  {
    SevenLogs();
    FiveOffset();
    hide Number, Less, Reading, Power, Padded, Stream.FirstLive, Seven, Cut, OffsetFor, Encode, Wanted, Logs;
    var st := Seven();
    ReadingIs("t", st, 0, Some("t:5"), None, 100, 5, 7);
    SevenCut();
    FiveLast();
    SelectedRange(st.recs, Some("t:5"), None, 0, 7, 7);
  }

  function Seven(): Stream {
    Stream(0, seq(7, i requires 0 <= i < 7 => EventRecord("", "t", i, Content("k", None, "d"), 0)))
  }

  lemma SevenLogs()
    ensures Logs("t", Seven()) && |Seven().recs| == 7 && Seven().FirstLive(0) == 0
    ensures forall i :: 0 <= i < 7 ==> CursorOf(Seven().recs[i]) == Encode("t", i)
  {
    PowerGrows(WIDTH);
    assert Power(WIDTH) >= 7;
    hide Power;
    assert Seven().LiveAt(0, 0);
  }

  lemma SevenCut()
    ensures |Seven().recs| == 7 && Cut("t", Seven().recs, 6, 7, 100) == Batch([Seven().recs[6]], None)
  {
    hide Encode;
  }

  /** "t:5" sorts after the cursors of all seven. */
  lemma FiveLast()
    ensures forall i :: 0 <= i < 7 ==> |Seven().recs| == 7 && !Wanted(Seven().recs[i], Some("t:5"), None)
  {
    assert Number("5") == 5 by { assert "5"[..0] == ""; }
    PowerGrows(WIDTH);
    PowerGrows(WIDTH - 1);
    SevenLogs();
    hide Number, Less, Padded, Power, Seven;
    forall i: nat | i < 7 ensures !Wanted(Seven().recs[i], Some("t:5"), None) {
      ShortOrder("5", i);
      LessAfterPrefix("t:", "5", Padded(i));
      assert "t:" + "5" == "t:5" && "t" + ":" + Padded(i) == "t:" + Padded(i);
    }
  }

  /** One live event: a limit of zero raises in one form and returns the event in the other. */
  lemma ZeroLimitRaises()
    ensures Logs("t", Old("t", 0)) && SqlReading("t", Old("t", 0), 10, None, None, 0) == Raised
    ensures Reading("t", Old("t", 0), 10, None, None, 0).Success?
    ensures Reading("t", Old("t", 0), 10, None, None, 0).value.events != []
  {
    PowerGrows(WIDTH);
    hide Power, Old, SqlReading, Reading;
    OldRead("t", 0, None, None, 0);
  }

  /** An empty end is no end in one form and a malformed cursor in the other. */
  lemma EmptyEndRefused()
    ensures Logs("t", Stream(0, [])) && Reading("t", Stream(0, []), 0, None, Some(""), 100) == Success(Batch([], None))
    ensures SqlReading("t", Stream(0, []), 0, None, Some(""), 100) == Answered(Failure(InvalidCursor))
  {
    var st := Stream(0, []);
    EmptyInvalid();
    hide Split, Reading, Power, Less, Encode, OffsetFor;
    FromNone(st, 0);
    ReadingIs("t", st, 0, None, Some(""), 100, -1, 0);
  }
}
