/** What the publisher reads from the event store: the next page of a topic, and the record at a cursor. */
module Reads {
  import opened Contracts
  import opened Cursors
  import opened Stream
  import opened EventStore

  // --- The next page ------------------------------------------------------------------------------------

  /** An event cursor is never taken for one of the two words a reader may also start from. */
  lemma NotWord(topic: string, o: nat)
    ensures Encode(topic, o) != EARLIEST && Encode(topic, o) != LATEST && Encode(topic, o) != ""
  {
    var c := Encode(topic, o);
    assert c[|topic|] == ':';
    assert ':' !in EARLIEST && ':' !in LATEST;
  }

  /** What the store answers to the two reads of the loop. */
  lemma PageRead(topic: string, st: Stream, now: int, position: int, limit: int)
    requires topic != ""
    ensures var page := Fetch(st, now, position, |st.recs|, limit);
      var from := if position >= 0 then Some(Encode(topic, position)) else None;
      Reading(topic, st, now, from, None, limit)
      == if page.Stale? then Failure(CursorExpired) else Success(BatchOf(topic, st, page, |st.recs|, limit))
  {
    if position >= 0 {
      SplitEncode(topic, position);
      NotWord(topic, position);
    }
    hide Encode, Split;
  }

  /** The offsets of the next page after `position`, or two zeros when there is none. */
  ghost function Bounds(st: Stream, now: int, position: int, limit: int): (b: (nat, nat))
    ensures b.0 <= b.1 <= |st.recs|
  {
    var lo := Max(position + 1, st.FirstLive(now));
    var hi := Min(|st.recs|, lo + Max(limit, 1));
    if lo < hi then (lo, hi) else (0, 0)
  }

  /** A page that is behind retention is the one from its start. */
  lemma PageIs(st: Stream, now: int, position: int, limit: int)
    ensures var page, again := Fetch(st, now, position, |st.recs|, limit), Fetch(st, now, -1, |st.recs|, limit);
      var b := Bounds(st, now, position, limit);
      && again.Range?
      && (page.Range? ==> page == Range(b.0, b.1))
      && (page.Stale? ==> again == Range(b.0, b.1))
  {
  }

  /** The events of the next page after `position`; when that has expired, those from the start of retention. */
  ghost function PageIn(streams: map<string, Stream>, topic: string, position: int, limit: int,
                        now: int): seq<EventRecord>
    requires topic in streams
  {
    var b := Bounds(streams[topic], now, position, limit);
    streams[topic].recs[b.0..b.1]
  }

  method Query(store: InMemoryEventStore, topic: string, position: int, limit: int, now: int)
    returns (r: Result<seq<EventRecord>, ErrorCode>)
    requires store.Valid() && store.clock <= now && topic in store.streams
    ensures var log := store.streams[topic]; var page := Fetch(log, now, position, |log.recs|, limit);
      r == if page.Stale? then Failure(CursorExpired) else Success(log.recs[page.lo..page.hi])
  {
    var from := if position >= 0 then Some(Encode(topic, position)) else None;
    assert Holds(topic, store.streams[topic], store.logs[topic], store.clock);
    PageRead(topic, store.streams[topic], now, position, limit);
    hide Holds, Reading, Fetch, Encode;
    var batch := store.Read(topic, from, None, limit, now);
    r := if batch.Failure? then Failure(batch.error) else Success(batch.value.events);
  }

  method NextEvents(store: InMemoryEventStore, topic: string, position: int, limit: int, now: int)
    returns (records: seq<EventRecord>)
    requires store.Valid() && store.clock <= now && topic in store.streams
    ensures records == PageIn(store.streams, topic, position, limit, now)
  {
    hide Holds, Fetch, Bounds;
    PageIs(store.streams[topic], now, position, limit);
    var r := Query(store, topic, position, limit, now);
    if r.Failure? { r := Query(store, topic, -1, limit, now); }
    return r.value;
  }

  // --- The record at a cursor ---------------------------------------------------------------------------

  /** Loading a record, with one more read when its predecessor has expired, finds exactly a live one. */
  lemma LoadFinds(st: Stream, now: int, o: nat)
    requires st.Ordered()
    ensures var page, again := Fetch(st, now, o - 1, o, 1), Fetch(st, now, -1, o, 1);
      var found := if page.Range? then page else again;
      && again.Range?
      && (found.lo < found.hi && found.lo == o <==> o < |st.recs| && st.LiveAt(now, o))
      && (found.lo < found.hi && found.lo == o ==> found.hi == o + 1)
  {
    if o < |st.recs| { LiveExactly(st, now, o); }
  }

  /** Where the read for one record starts. */
  lemma RecordStart(topic: string, o: nat)
    requires topic != ""
    ensures var from := if o > 0 then Some(Encode(topic, o - 1)) else None;
      from != Some(LATEST) && StartOf(topic, from) == Success(o - 1)
  {
    if o > 0 {
      SplitEncode(topic, o - 1);
      NotWord(topic, o - 1);
    }
    hide Encode, Split;
  }

  /** Where the reads for one record end. */
  lemma RecordEnd(topic: string, cursor: string, o: nat, n: nat)
    requires OffsetOf(cursor) == Success(o)
    ensures var end := EndOf(topic, Some(cursor), n);
      if TopicOf(cursor) == Success(topic) then end == Success(o) else end.Failure?
  {
    assert cursor != "";
    hide Split;
  }

  lemma FromStart(st: Stream, now: int, upto: int)
    ensures Fetch(st, now, -1, upto, 1).Range?
  {
  }

  /** What the two reads for one record answer. */
  lemma RecordReads(topic: string, st: Stream, now: int, cursor: string, o: nat)
    requires topic != "" && OffsetOf(cursor) == Success(o)
    ensures var from := if o > 0 then Some(Encode(topic, o - 1)) else None;
      var first := Reading(topic, st, now, from, Some(cursor), 1);
      var again := Reading(topic, st, now, None, Some(cursor), 1);
      if TopicOf(cursor) == Success(topic) then
        && var page, whole := Fetch(st, now, o - 1, o, 1), Fetch(st, now, -1, o, 1);
        && whole.Range?
        && first == (if page.Stale? then Failure(CursorExpired) else Success(BatchOf(topic, st, page, o, 1)))
        && again == Success(BatchOf(topic, st, whole, o, 1))
      else first.Failure? && again.Failure?
  {
    hide Encode, Split, Stream.FirstLive, TopicOf, OffsetOf, StartOf, EndOf, BatchOf;
    RecordStart(topic, o);
    RecordEnd(topic, cursor, o, |st.recs|);
    assert StartOf(topic, None) == Success(-1) by { RecordStart(topic, 0); }
    FromStart(st, now, o);
  }

  /** The events the two reads for one record end up with: the one event, if it is live, or none of its offset. */
  lemma RecordFound(topic: string, st: Stream, now: int, cursor: string, o: nat)
    requires topic != "" && OffsetOf(cursor) == Success(o) && st.Ordered()
    requires forall i :: 0 <= i < |st.recs| ==> st.recs[i].offset == i
    ensures var from := if o > 0 then Some(Encode(topic, o - 1)) else None;
      var first := Reading(topic, st, now, from, Some(cursor), 1);
      var again := Reading(topic, st, now, None, Some(cursor), 1);
      var r := if first.Failure? && first.error == CursorExpired then again else first;
      var found := r.Success? && r.value.events != [] && r.value.events[0].offset == o;
      && (found <==> TopicOf(cursor) == Success(topic) && o < |st.recs| && st.LiveAt(now, o))
      && (found ==> r.value.events[0] == st.recs[o])
  {
    hide Encode, Split, OffsetOf, TopicOf, Reading, Fetch;
    RecordReads(topic, st, now, cursor, o);
    LoadFinds(st, now, o);
  }

  /** The event at an offset of a topic, if it is live. */
  ghost function LiveRecord(streams: map<string, Stream>, topic: string, o: nat, now: int): Option<EventRecord> {
    if topic in streams && o < |streams[topic].recs| && streams[topic].LiveAt(now, o) then Some(streams[topic].recs[o])
    else None
  }

  /** The live event a cursor names on a topic; a cursor without an offset is refused. */
  ghost function RecordIn(streams: map<string, Stream>, topic: string, cursor: string, now: int)
    : Result<Option<EventRecord>, ErrorCode>
  {
    match OffsetOf(cursor)
    case Failure(e) => Failure(e)
    case Success(o) => Success(if TopicOf(cursor) == Success(topic) then LiveRecord(streams, topic, o, now) else None)
  }

  lemma LogShape(store: InMemoryEventStore, t: string)
    requires store.Valid() && t in store.streams
    ensures t != "" && store.streams[t].Ordered()
    ensures var recs := store.streams[t].recs; forall i :: 0 <= i < |recs| ==> recs[i].topic == t && recs[i].offset == i
  {
    assert Holds(t, store.streams[t], store.logs[t], store.clock);
  }

  method Lookup(store: InMemoryEventStore, topic: string, cursor: string, offset: nat, now: int)
    returns (found: Option<EventRecord>)
    requires store.Valid() && store.clock <= now && OffsetOf(cursor) == Success(offset)
    ensures found == if TopicOf(cursor) == Success(topic) then LiveRecord(store.streams, topic, offset, now) else None
  {
    hide Encode, Split, Fetch, Reading, OffsetOf, TopicOf, Holds, BatchOf;
    if topic in store.streams {
      LogShape(store, topic);
      RecordFound(topic, store.streams[topic], now, cursor, offset);
    }
    var from := if offset > 0 then Some(Encode(topic, offset - 1)) else None;
    var r := store.Read(topic, from, Some(cursor), 1, now);
    if r.Failure? && r.error == CursorExpired { r := store.Read(topic, None, Some(cursor), 1, now); }
    if r.Failure? { return None; }
    var records := r.value.events;
    return if records != [] && records[0].offset == offset then Some(records[0]) else None;
  }

  /** Loads the event at a cursor, if it is still there. */
  method RecordAt(store: InMemoryEventStore, topic: string, cursor: string, now: int)
    returns (r: Result<Option<EventRecord>, ErrorCode>)
    requires store.Valid() && store.clock <= now
    ensures r == RecordIn(store.streams, topic, cursor, now)
  {
    hide LiveRecord, OffsetOf, TopicOf, Holds;
    match OffsetOf(cursor) {
      case Failure(e) => return Failure(e);
      case Success(o) =>
        var found := Lookup(store, topic, cursor, o, now);
        return Success(found);
    }
  }
}
