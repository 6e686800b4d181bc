/**
 * The in-memory event store: one append-only log per topic, of which compaction may drop the
 * events that left retention.  What a reader can see depends only on what was ever appended.
 */
module EventStore {
  import opened Contracts
  import opened Cursors
  import opened Stream

  const EARLIEST := "earliest"
  const LATEST := "latest"

  /** What the store keeps of one topic. */
  datatype TopicLog = TopicLog(retention: int, events: seq<EventRecord>, nextOffset: nat)

  /** The answer to a read: the events, and where to go on when there are more. */
  datatype Batch = Batch(events: seq<EventRecord>, next: Option<string>)

  function CursorOf(e: EventRecord): string { Encode(e.topic, e.offset) }

  // --- What the answers should be ----------------------------------------------------------

  /** The position a read starts after; -1 is the start of retention. */
  function StartOf(topic: string, from: Option<string>): Result<int, ErrorCode> {
    var beginning: int := -1;
    if from.None? || from.value == EARLIEST then Success(beginning)
    else
      match OffsetFor(topic, from.value)
      case Success(o) => Success(o)
      case Failure(e) => Failure(e)
  }

  /** The last offset a read may return; no bound is the end of the log. */
  function EndOf(topic: string, to: Option<string>, head: nat): Result<int, ErrorCode> {
    if to.None? || to.value == "" then Success(head)
    else
      match OffsetFor(topic, to.value)
      case Success(o) => Success(o)
      case Failure(e) => Failure(e)
  }

  /** The page of a read, and the cursor of its last event when more is in range. */
  function BatchOf(topic: string, st: Stream, page: Page, upto: int, limit: int): Batch
    requires page.Range? && page.lo <= page.hi <= |st.recs|
  {
    Batch(st.recs[page.lo..page.hi],
          if page.lo < page.hi && page.hi - page.lo >= limit && page.hi < Min(|st.recs|, upto + 1)
          then Some(Encode(topic, page.hi - 1)) else None)
  }

  function Reading(topic: string, st: Stream, now: int, from: Option<string>, to: Option<string>, limit: int)
    : Result<Batch, ErrorCode>
  {
    if from == Some(LATEST) then Success(Batch([], None))
    else
      match StartOf(topic, from)
      case Failure(e) => Failure(e)
      case Success(after) =>
        match EndOf(topic, to, |st.recs|)
        case Failure(e) => Failure(if Fetch(st, now, after, |st.recs|, limit).Stale? then CursorExpired else e)
        case Success(upto) =>
          var page := Fetch(st, now, after, upto, limit);
          if page.Stale? then Failure(CursorExpired)
          else Success(BatchOf(topic, st, page, upto, limit))
  }

  function OldestOf(topic: string, st: Stream, now: int): Option<string> {
    if st.FirstLive(now) < |st.recs| then Some(Encode(topic, st.FirstLive(now))) else None
  }

  function LatestOf(topic: string, st: Stream): string { Encode(topic, Max(|st.recs| - 1, 0)) }

  // --- The store and the full history it stands for ------------------------------------------

  /** `log` is `st` without some events at its start that had all left retention by `clock`. */
  ghost predicate Holds(topic: string, st: Stream, log: TopicLog, clock: int) {
    && topic != ""
    && log.retention == st.retention
    && log.nextOffset == |st.recs|
    && |log.events| <= |st.recs|
    && log.events == st.recs[|st.recs| - |log.events|..]
    && st.Ordered()
    && (forall i :: 0 <= i < |st.recs| ==>
          st.recs[i].topic == topic && st.recs[i].offset == i && st.recs[i].createdAt <= clock)
    && (forall i :: 0 <= i < |st.recs| - |log.events| ==> !st.LiveAt(clock, i))
  }

  /** How many events the logs of `names` hold. */
  function Stored(logs: map<string, TopicLog>, names: seq<string>): nat {
    if names == [] then 0
    else (if names[0] in logs then |logs[names[0]].events| else 0) + Stored(logs, names[1..])
  }

  lemma {:induction false} StoredShrinks(before: map<string, TopicLog>, after: map<string, TopicLog>,
                                         names: seq<string>, name: string)
    requires name in before && after.Keys == before.Keys && after == before[name := after[name]]
    requires forall i, j :: 0 <= i < j < |names| ==> names[i] != names[j]
    ensures Stored(before, names) - Stored(after, names)
         == if name in names then |before[name].events| - |after[name].events| else 0
  {
    if names != [] {
      assert names == [names[0]] + names[1..];
      StoredShrinks(before, after, names[1..], name);
    }
  }

  lemma NoRepeat(names: seq<string>, i: nat)
    requires i < |names| && forall j, k :: 0 <= j < k < |names| ==> names[j] != names[k]
    ensures names[i] !in names[..i]
    ensures forall t :: t in names[..i + 1] <==> t in names[..i] || t == names[i]
  {
    assert names[..i + 1] == names[..i] + [names[i]];
  }

  lemma HoldsLater(topic: string, st: Stream, log: TopicLog, clock: int, now: int)
    requires Holds(topic, st, log, clock) && clock <= now
    ensures Holds(topic, st, log, now)
  {
    forall i | 0 <= i < |st.recs| - |log.events| ensures !st.LiveAt(now, i) {
      assert !st.LiveAt(clock, i);
    }
  }

  lemma AllHoldLater(streams: map<string, Stream>, logs: map<string, TopicLog>, clock: int, now: int)
    requires logs.Keys == streams.Keys && clock <= now
    requires forall t :: t in streams ==> Holds(t, streams[t], logs[t], clock)
    ensures forall t :: t in streams ==> Holds(t, streams[t], logs[t], now)
  {
    forall t | t in streams ensures Holds(t, streams[t], logs[t], now) {
      HoldsLater(t, streams[t], logs[t], clock, now);
    }
  }

  lemma FreshHolds(topic: string, retention: int, clock: int)
    requires topic != ""
    ensures Holds(topic, Stream(retention, []), TopicLog(retention, [], 0), clock)
  {
  }

  lemma AppendHolds(topic: string, st: Stream, log: TopicLog, clock: int, e: EventRecord)
    requires Holds(topic, st, log, clock)
    requires e.topic == topic && e.offset == |st.recs| && e.createdAt >= clock
    ensures Holds(topic, st.(recs := st.recs + [e]),
                  log.(events := log.events + [e], nextOffset := log.nextOffset + 1), e.createdAt)
  {
    var st', d := st.(recs := st.recs + [e]), |st.recs| - |log.events|;
    HoldsLater(topic, st, log, clock, e.createdAt);
    assert st'.recs[d..] == log.events + [e];
    forall i | 0 <= i < d ensures !st'.LiveAt(e.createdAt, i) {
      assert !st.LiveAt(e.createdAt, i);
    }
  }

  lemma CompactHolds(topic: string, st: Stream, log: TopicLog, clock: int)
    requires Holds(topic, st, log, clock)
    ensures |log.events| >= |st.recs| - st.FirstLive(clock)
    ensures Holds(topic, st, log.(events := st.recs[st.FirstLive(clock)..]), clock)
  {
    assert st.FirstLive(clock) < |st.recs| ==> st.LiveAt(clock, st.FirstLive(clock));
  }

  lemma KeptForever(topic: string, st: Stream, log: TopicLog, clock: int, now: int)
    requires Holds(topic, st, log, clock) && log.retention <= 0
    ensures log.events == st.recs && st.FirstLive(now) == 0
  {
    if st.recs != [] { assert st.LiveAt(clock, 0) && st.LiveAt(now, 0); }
  }

  lemma LiveExactly(st: Stream, now: int, o: nat)
    requires st.Ordered() && o < |st.recs|
    ensures st.LiveAt(now, o) <==> st.FirstLive(now) <= o
  {
    LiveTail(st, now);
  }

  /** The events at offsets `lo` to `h`, when there are any. */
  ghost function Between(recs: seq<EventRecord>, lo: int, h: int): seq<EventRecord>
    requires 0 <= lo && 0 <= h <= |recs|
  {
    recs[Min(lo, h)..h]
  }

  lemma BetweenGrows(recs: seq<EventRecord>, lo: int, h: int)
    requires 0 <= lo && 0 <= h < |recs|
    ensures Between(recs, lo, h + 1) == Between(recs, lo, h) + (if lo <= h then [recs[h]] else [])
    ensures |Between(recs, lo, h)| == Max(h - lo, 0)
  {
  }

  /** The events no older than `horizon`, in order. */
  function Recent(events: seq<EventRecord>, horizon: int): seq<EventRecord> {
    if events == [] then []
    else
      var n := |events| - 1;
      Recent(events[..n], horizon) + (if events[n].createdAt >= horizon then [events[n]] else [])
  }

  method KeepRecent(events: seq<EventRecord>, horizon: int) returns (kept: seq<EventRecord>)
    ensures kept == Recent(events, horizon)
  {
    kept := [];
    for i := 0 to |events|
      invariant kept == Recent(events[..i], horizon)
    {
      assert events[..i + 1][..i] == events[..i];
      if events[i].createdAt >= horizon { kept := kept + [events[i]]; }
    }
    assert events[..|events|] == events;
  }

  lemma {:induction false} RecentIsTail(events: seq<EventRecord>, horizon: int, k: nat)
    requires k <= |events|
    requires forall i :: 0 <= i < |events| ==> (events[i].createdAt >= horizon <==> k <= i)
    ensures Recent(events, horizon) == events[k..]
  {
    if events != [] {
      var n := |events| - 1;
      if k <= n {
        RecentIsTail(events[..n], horizon, k);
        assert events[k..] == events[..n][k..] + [events[n]];
      } else {
        RecentIsTail(events[..n], horizon, n);
      }
    }
  }

  lemma StoredLive(topic: string, st: Stream, log: TopicLog, clock: int, now: int, i: nat)
    requires Holds(topic, st, log, clock) && i < |log.events|
    ensures log.events[i].createdAt >= now - log.retention || log.retention <= 0 <==>
            st.FirstLive(now) <= |st.recs| - |log.events| + i
  {
    hide Stream.FirstLive;
    LiveExactly(st, now, |st.recs| - |log.events| + i);
  }

  lemma LiveByAge(topic: string, st: Stream, log: TopicLog, clock: int, now: int)
    requires Holds(topic, st, log, clock)
    ensures log.retention == st.retention && (st.retention <= 0 ==> st.FirstLive(now) == 0)
    ensures st.retention > 0 ==>
              forall i :: 0 <= i < |st.recs| ==>
                (st.recs[i].createdAt >= now - st.retention <==> st.FirstLive(now) <= i)
  {
    hide Stream.FirstLive;
    if st.retention <= 0 {
      KeptForever(topic, st, log, clock, now);
    } else {
      forall i | 0 <= i < |st.recs| ensures st.recs[i].createdAt >= now - st.retention <==> st.FirstLive(now) <= i {
        LiveWhen(st, now, i);
      }
    }
  }

  lemma NextIsLength(topic: string, st: Stream, log: TopicLog, clock: int)
    requires Holds(topic, st, log, clock)
    ensures log.nextOffset == |st.recs|
  {
    hide Stream.Ordered, Stream.LiveAt;
  }

  lemma HoldsTail(topic: string, st: Stream, log: TopicLog, clock: int)
    requires Holds(topic, st, log, clock)
    ensures |log.events| <= |st.recs| && log.events == st.recs[|st.recs| - |log.events|..]
  {
    hide Stream.Ordered, Stream.LiveAt;
  }

  lemma LiveIsRecent(topic: string, st: Stream, log: TopicLog, clock: int, now: int)
    requires Holds(topic, st, log, clock) && clock <= now && log.retention > 0
    ensures Recent(log.events, now - log.retention) == st.recs[st.FirstLive(now)..]
  {
    hide Holds, Stream.LiveAt, Stream.FirstLive, Recent;
    HoldsLater(topic, st, log, clock, now);
    CompactHolds(topic, st, log, now);
    HoldsTail(topic, st, log, now);
    var base, first := |st.recs| - |log.events|, st.FirstLive(now);
    assert log.events[first - base..] == st.recs[first..];
    forall i | 0 <= i < |log.events|
      ensures log.events[i].createdAt >= now - log.retention <==> first - base <= i
    {
      StoredLive(topic, st, log, clock, now, i);
    }
    RecentIsTail(log.events, now - log.retention, first - base);
  }

  /** A topic log without the events older than its retention. */
  function Compacted(log: TopicLog, now: int): TopicLog {
    if log.retention <= 0 then log else log.(events := Recent(log.events, now - log.retention))
  }

  lemma CompactedHolds(topic: string, st: Stream, log: TopicLog, clock: int)
    requires Holds(topic, st, log, clock)
    ensures Holds(topic, st, Compacted(log, clock), clock)
    ensures |Compacted(log, clock).events| <= |log.events|
  {
    hide Holds, Recent, Stream.FirstLive;
    if log.retention > 0 {
      LiveIsRecent(topic, st, log, clock, clock);
      CompactHolds(topic, st, log, clock);
    }
  }

  /** The offset parsed back from the cursor of an event. */
  method ParsedOffset(e: EventRecord) returns (offset: nat)
    requires e.topic != ""
    ensures offset == e.offset
  {
    SplitEncode(e.topic, e.offset);
    offset := OffsetOf(CursorOf(e)).value;
  }

  /** The first events from `lo` on and before `stop`, at most `limit` of them (but one at least). */
  ghost function Cut(topic: string, recs: seq<EventRecord>, lo: int, stop: int, limit: int): Batch
    requires 0 <= lo && stop <= |recs|
  {
    var hi := Min(stop, lo + Max(limit, 1));
    if lo < hi then Batch(recs[lo..hi], if hi - lo >= limit && hi < stop then Some(Encode(topic, hi - 1)) else None)
    else Batch([], None)
  }

  /** Is there an event in range after `offset`? */
  method HasMore(live: seq<EventRecord>, ghost first: nat, offset: nat, end: Option<nat>) returns (more: bool)
    requires forall j :: 0 <= j < |live| ==> live[j].offset == first + j
    requires first <= offset
    ensures more <==> offset + 1 < first + |live| && (end.Some? ==> offset + 1 <= end.value)
  {
    more := exists j | 0 <= j < |live| ::
      live[j].offset > offset && (end.None? || live[j].offset <= end.value);
    if offset + 1 < first + |live| { assert live[offset + 1 - first].offset == offset + 1; }
  }

  lemma BetweenStarts(recs: seq<EventRecord>, lo: int, h: int)
    requires 0 <= h <= lo && h <= |recs|
    ensures Between(recs, lo, h) == []
  {
  }

  /** The loop reached the limit with the event before `h`. */
  lemma CutFull(topic: string, recs: seq<EventRecord>, lo: int, stop: int, limit: int, h: int)
    requires 0 <= lo < h <= stop <= |recs|
    requires |Between(recs, lo, h)| >= limit && (h - 1 > lo ==> |Between(recs, lo, h - 1)| < limit)
    ensures Cut(topic, recs, lo, stop, limit)
         == Batch(Between(recs, lo, h), if h < stop then Some(Encode(topic, h - 1)) else None)
  {
    hide Encode;
  }

  /** The loop ran out of events in range, or passed the end, at `h`. */
  lemma CutShort(topic: string, recs: seq<EventRecord>, lo: int, stop: int, limit: int, h: int)
    requires 0 <= lo && 0 <= stop <= h <= |recs|
    requires Between(recs, lo, h) == [] || (|Between(recs, lo, h)| < limit && h <= stop)
    ensures Cut(topic, recs, lo, stop, limit) == Batch(Between(recs, lo, h), None)
  {
    hide Encode;
  }

  /** The loop of a read over the live events, which start at offset `first`. */
  method Scan(topic: string, live: seq<EventRecord>, start: int, end: Option<nat>, limit: int,
              ghost recs: seq<EventRecord>, ghost first: nat)
    returns (batch: Batch)
    requires topic != "" && start >= -1 && first <= |recs| && live == recs[first..]
    requires forall i :: 0 <= i < |live| ==> live[i].topic == topic && live[i].offset == first + i
    ensures batch == Cut(topic, recs, Max(start + 1, first),
                         Min(|recs|, if end.Some? then end.value + 1 else |recs|), limit)
  {
    hide Encode, Between, Cut, OffsetOf;
    ghost var lo, stop := Max(start + 1, first), Min(|recs|, if end.Some? then end.value + 1 else |recs|);
    var out := [];
    assert Between(recs, lo, first) == [] by { BetweenStarts(recs, lo, first); }
    for i := 0 to |live|
      invariant out == Between(recs, lo, first + i)
      invariant out == [] || (|out| < limit && first + i <= stop)
    {
      BetweenGrows(recs, lo, first + i);
      var offset := ParsedOffset(live[i]);
      if offset <= start { continue; }
      if end.Some? && offset > end.value {
        CutShort(topic, recs, lo, stop, limit, first + i);
        return Batch(out, None);
      }
      out := out + [live[i]];
      if |out| >= limit {
        var more := HasMore(live, first, offset, end);
        CutFull(topic, recs, lo, stop, limit, first + i + 1);
        return Batch(out, if more then Some(CursorOf(live[i])) else None);
      }
    }
    CutShort(topic, recs, lo, stop, limit, |recs|);
    return Batch(out, None);
  }

  lemma LiveShape(topic: string, st: Stream, log: TopicLog, clock: int, now: int)
    requires Holds(topic, st, log, clock)
    ensures var live := st.recs[st.FirstLive(now)..];
      forall i :: 0 <= i < |live| ==> live[i].topic == topic && live[i].offset == st.FirstLive(now) + i
    ensures topic != "" && OffsetOf(Encode(topic, st.FirstLive(now))) == Success(st.FirstLive(now))
  {
    SplitEncode(topic, st.FirstLive(now));
  }

  lemma CutIsBatch(topic: string, st: Stream, now: int, start: int, upto: int, limit: int)
    requires start >= -1 && upto >= 0 && Fetch(st, now, start, |st.recs|, limit).Range?
    ensures Fetch(st, now, start, upto, limit).Range?
    ensures Cut(topic, st.recs, Max(start + 1, st.FirstLive(now)), Min(|st.recs|, upto + 1), limit)
         == BatchOf(topic, st, Fetch(st, now, start, upto, limit), upto, limit)
  {
  }

  method EndingOffset(topic: string, to: Option<string>) returns (end: Result<Option<nat>, ErrorCode>)
    ensures forall head: nat :: EndOf(topic, to, head) ==
              match end
              case Failure(e) => Failure(e)
              case Success(o) => Success(if o.Some? then o.value else head)
  {
    hide Split;
    if to.None? || to.value == "" { return Success(None); }
    match OffsetFor(topic, to.value) {
      case Failure(e) => return Failure(e);
      case Success(o) => return Success(Some(o));
    }
  }

  lemma LatestIsEmpty(topic: string, st: Stream, now: int, to: Option<string>, limit: int)
    ensures Reading(topic, st, now, Some(LATEST), to, limit) == Success(Batch([], None))
  {
  }

  lemma ReadingIs(topic: string, st: Stream, now: int, from: Option<string>, to: Option<string>, limit: int,
                  start: int, upto: nat)
    requires from != Some(LATEST) && StartOf(topic, from) == Success(start)
    requires EndOf(topic, to, |st.recs|) == Success(upto)
    requires start >= -1 && Fetch(st, now, start, |st.recs|, 1).Range?
    ensures Reading(topic, st, now, from, to, limit)
         == Success(Cut(topic, st.recs, Max(start + 1, st.FirstLive(now)), Min(|st.recs|, upto + 1), limit))
  {
    hide Encode, OffsetFor;
    assert Fetch(st, now, start, |st.recs|, limit).Range?;
    CutIsBatch(topic, st, now, start, upto, limit);
  }

  lemma ReadingFails(topic: string, st: Stream, now: int, from: Option<string>, to: Option<string>, limit: int)
    requires from != Some(LATEST)
    ensures StartOf(topic, from).Failure? ==>
              Reading(topic, st, now, from, to, limit) == Failure(StartOf(topic, from).error)
    ensures StartOf(topic, from).Success? ==>
              if Fetch(st, now, StartOf(topic, from).value, |st.recs|, 1).Stale?
              then Reading(topic, st, now, from, to, limit) == Failure(CursorExpired)
              else EndOf(topic, to, |st.recs|).Failure? ==>
                     Reading(topic, st, now, from, to, limit) == Failure(EndOf(topic, to, |st.recs|).error)
  {
    hide Encode, OffsetFor, Stream.FirstLive;
  }

  /** The stored events of the topics in `names` that left retention: topic and place in its log. */
  ghost function Overdue(logs: map<string, TopicLog>, names: set<string>, now: int): set<(string, int)> {
    set t, i | t in logs && t in names && 0 <= i < |logs[t].events|
               && logs[t].retention > 0 && logs[t].events[i].createdAt < now - logs[t].retention :: (t, i)
  }

  /** What is kept of a topic is the part of its full history that is no older than its retention. */
  ghost predicate KeepsRecent(st: Stream, log: TopicLog, now: int) {
    && |log.events| <= |st.recs| && log.events == st.recs[|st.recs| - |log.events|..]
    && forall i :: 0 <= i < |st.recs| ==>
         (st.recs[i].createdAt >= now - log.retention <==> |st.recs| - |log.events| <= i)
  }

  lemma CompactedKeeps(topic: string, st: Stream, log: TopicLog, clock: int, now: int)
    requires Holds(topic, st, log, clock) && clock <= now
    ensures if log.retention > 0
            then Compacted(log, now) == log.(events := st.recs[st.FirstLive(now)..])
                 && KeepsRecent(st, Compacted(log, now), now)
                 && |log.events| >= |st.recs| - st.FirstLive(now)
            else Compacted(log, now) == log
  {
    hide Recent, Stream.FirstLive, Stream.LiveAt;
    if log.retention > 0 {
      LiveIsRecent(topic, st, log, clock, now);
      HoldsLater(topic, st, log, clock, now);
      CompactHolds(topic, st, log, now);
      var first := st.FirstLive(now);
      forall i | 0 <= i < |st.recs| ensures st.recs[i].createdAt >= now - log.retention <==> first <= i {
        LiveWhen(st, now, i);
      }
    }
  }

  lemma LiveWhen(st: Stream, now: int, o: nat)
    requires st.Ordered() && o < |st.recs| && st.retention > 0
    ensures st.recs[o].createdAt >= now - st.retention <==> st.FirstLive(now) <= o
  {
    hide Stream.FirstLive;
    LiveExactly(st, now, o);
  }

  lemma OverdueFirst(topic: string, log: TopicLog, d: nat, now: int)
    requires d <= |log.events| && log.retention > 0
    requires forall i :: 0 <= i < |log.events| ==> (log.events[i].createdAt < now - log.retention <==> i < d)
    ensures |Overdue(map[topic := log], {topic}, now)| == d
  {
    FirstPairs(topic, d);
    assert Overdue(map[topic := log], {topic}, now) == set i | 0 <= i < d :: (topic, i);
  }

  lemma CountOverdue(topic: string, st: Stream, log: TopicLog, clock: int, now: int)
    requires Holds(topic, st, log, clock) && clock <= now
    ensures |Overdue(map[topic := log], {topic}, now)| == |log.events| - |Compacted(log, now).events|
  {
    hide Stream.FirstLive, Stream.LiveAt, Compacted;
    CompactedKeeps(topic, st, log, clock, now);
    if log.retention > 0 {
      var kept := Compacted(log, now);
      SameRetention(log, now);
      hide Overdue;
      OverdueFirst(topic, log, |log.events| - |kept.events|, now);
    } else {
      assert Overdue(map[topic := log], {topic}, now) == {};
    }
  }

  /** Compacting topics leaves of each what its retention allows. */
  lemma AllCompacted(streams: map<string, Stream>, before: map<string, TopicLog>, clock: int, now: int)
    requires before.Keys == streams.Keys && clock <= now
    requires forall t :: t in streams ==> Holds(t, streams[t], before[t], clock)
    ensures forall t :: t in before ==>
              if before[t].retention > 0
              then Compacted(before[t], now) == before[t].(events := streams[t].recs[streams[t].FirstLive(now)..])
                   && KeepsRecent(streams[t], Compacted(before[t], now), now)
              else Compacted(before[t], now) == before[t]
  {
    hide Holds, Compacted, KeepsRecent;
    forall t | t in before
      ensures if before[t].retention > 0
              then Compacted(before[t], now) == before[t].(events := streams[t].recs[streams[t].FirstLive(now)..])
                   && KeepsRecent(streams[t], Compacted(before[t], now), now)
              else Compacted(before[t], now) == before[t]
    {
      CompactedKeeps(t, streams[t], before[t], clock, now);
    }
  }

  lemma SameRetention(log: TopicLog, now: int)
    ensures Compacted(log, now).retention == log.retention && Compacted(log, now).nextOffset == log.nextOffset
  {
  }

  lemma {:induction false} FirstPairs(topic: string, n: nat)
    ensures |set i | 0 <= i < n :: (topic, i)| == n
  {
    var s := set i | 0 <= i < n :: (topic, i);
    if n > 0 {
      FirstPairs(topic, n - 1);
      var before := set i | 0 <= i < n - 1 :: (topic, i);
      assert (topic, n - 1) !in before && s == before + {(topic, n - 1)};
    } else {
      assert s == {};
    }
  }

  lemma NothingOverdue(logs: map<string, TopicLog>, now: int)
    ensures Overdue(logs, {}, now) == {}
  {
  }

  lemma OverdueMore(logs: map<string, TopicLog>, names: set<string>, t: string, now: int)
    requires t !in names
    ensures t !in logs ==> Overdue(logs, names + {t}, now) == Overdue(logs, names, now)
    ensures t in logs ==>
              |Overdue(logs, names + {t}, now)|
              == |Overdue(logs, names, now)| + |Overdue(map[t := logs[t]], {t}, now)|
  {
    var a, b := Overdue(logs, names, now), Overdue(logs, names + {t}, now);
    if t in logs {
      var c := Overdue(map[t := logs[t]], {t}, now);
      assert b == a + c && a !! c;
    } else {
      assert a == b;
    }
  }

  /** The topics in `done` were compacted, the others are as they were. */
  ghost predicate CompactedSome(start: map<string, TopicLog>, logs: map<string, TopicLog>, done: set<string>,
                                now: int)
  {
    logs.Keys == start.Keys
    && forall t :: t in logs ==> logs[t] == if t in done then Compacted(start[t], now) else start[t]
  }

  /** The logs of a store as it was when a compaction began. */
  ghost predicate Began(streams: map<string, Stream>, start: map<string, TopicLog>, clock: int, now: int) {
    && clock <= now && start.Keys == streams.Keys
    && forall t :: t in streams ==> Holds(t, streams[t], start[t], clock)
  }

  /** One more of the chosen topics was compacted. */
  lemma ChosenStep(streams: map<string, Stream>, start: map<string, TopicLog>, clock: int,
                   before: map<string, TopicLog>, after: map<string, TopicLog>, names: seq<string>,
                   done: set<string>, name: string, now: int)
    requires Began(streams, start, clock, now) && name !in done && CompactedSome(start, before, done, now)
    requires forall t :: t in names <==> t in before
    requires forall i, j :: 0 <= i < j < |names| ==> names[i] != names[j]
    requires name !in before ==> after == before
    requires name in before ==> after == before[name := Compacted(before[name], now)]
    ensures CompactedSome(start, after, done + {name}, now)
    ensures Stored(before, names) - Stored(after, names)
         == |Overdue(start, done + {name}, now)| - |Overdue(start, done, now)|
         == if name in before then |before[name].events| - |after[name].events| else 0
  {
    hide Compacted, Holds, Overdue, Stored, CompactedSome;
    SomeMore(start, before, after, done, name, now);
    if name in before {
      ChosenCount(streams, start, clock, before, after, names, done, name, now);
    } else {
      OverdueMore(start, done, name, now);
    }
  }

  lemma SomeMore(start: map<string, TopicLog>, before: map<string, TopicLog>, after: map<string, TopicLog>,
                 done: set<string>, name: string, now: int)
    requires CompactedSome(start, before, done, now) && name !in done
    requires name !in before ==> after == before
    requires name in before ==> after == before[name := Compacted(before[name], now)]
    ensures CompactedSome(start, after, done + {name}, now)
    ensures before.Keys == start.Keys && (name in before ==> before[name] == start[name])
  {
    hide Compacted;
  }

  lemma ChosenCount(streams: map<string, Stream>, start: map<string, TopicLog>, clock: int,
                    before: map<string, TopicLog>, after: map<string, TopicLog>, names: seq<string>,
                    done: set<string>, name: string, now: int)
    requires Began(streams, start, clock, now) && name !in done && name in start && before.Keys == start.Keys
    requires name in names && forall i, j :: 0 <= i < j < |names| ==> names[i] != names[j]
    requires before[name] == start[name] && after == before[name := Compacted(before[name], now)]
    ensures Stored(before, names) - Stored(after, names) == |before[name].events| - |after[name].events|
    ensures |Overdue(start, done + {name}, now)| - |Overdue(start, done, now)|
         == |before[name].events| - |after[name].events|
  {
    hide Compacted, Holds, Overdue, Stored;
    OverdueMore(start, done, name, now);
    StoredShrinks(before, after, names, name);
    CountOverdue(name, streams[name], start[name], clock, now);
  }

  lemma NothingDone(start: map<string, TopicLog>, now: int)
    ensures CompactedSome(start, start, {}, now) && |Overdue(start, {}, now)| == 0
  {
    NothingOverdue(start, now);
  }

  /** In the end: the topics that were chosen, and what is left of each. */
  lemma ChosenDone(streams: map<string, Stream>, start: map<string, TopicLog>, clock: int, logs: map<string, TopicLog>,
                   only: Option<string>, chosen: seq<string>, done: set<string>, now: int)
    requires Began(streams, start, clock, now) && CompactedSome(start, logs, done, now)
    requires done == set t | t in chosen
    requires if only.Some? then chosen == [only.value] else forall t :: t in chosen <==> t in start
    ensures done == if only.None? then start.Keys else {only.value}
    ensures logs.Keys == start.Keys
    ensures forall t :: t in logs ==>
              if (only.None? || only.value == t) && start[t].retention > 0
              then logs[t] == start[t].(events := streams[t].recs[streams[t].FirstLive(now)..])
                   && KeepsRecent(streams[t], logs[t], now)
              else logs[t] == start[t]
  {
    hide Compacted, Holds, KeepsRecent;
    AllCompacted(streams, start, clock, now);
  }

  class InMemoryEventStore {
    var logs: map<string, TopicLog>
    var names: seq<string>                 // the topics, in the order they were declared
    ghost var streams: map<string, Stream> // every event ever appended
    ghost var clock: int                   // the time of the last write

    ghost predicate Valid()
      reads this
    {
      && logs.Keys == streams.Keys
      && (forall t :: t in names <==> t in logs)
      && (forall i, j :: 0 <= i < j < |names| ==> names[i] != names[j])
      && forall t :: t in streams ==> Holds(t, streams[t], logs[t], clock)
    }

    constructor (now: int)
      ensures Valid() && streams == map[] && clock == now
    {
      logs, names, streams, clock := map[], [], map[], now;
    }

    method DeclareTopic(name: string, retention: int)
      requires Valid() && name != ""
      modifies this
      ensures Valid() && clock == old(clock)
      ensures streams == if name in old(streams) then old(streams) else old(streams)[name := Stream(retention, [])]
    {
      hide Holds;
      if name !in logs {
        FreshHolds(name, retention, clock);
        logs := logs[name := TopicLog(retention, [], 0)];
        names := names + [name];
        streams := streams[name := Stream(retention, [])];
      }
    }

    /** The number of events ever appended, whatever retention and compaction did since. */
    method Count(topic: string) returns (n: nat)
      requires Valid()
      ensures n == if topic in streams then |streams[topic].recs| else 0
    {
      n := if topic in logs then logs[topic].nextOffset else 0;
    }

    method Append(topic: string, eventId: string, content: Content, now: int)
      returns (r: Result<EventRecord, ErrorCode>)
      requires Valid() && clock <= now
      modifies this
      ensures Valid()
      ensures topic !in old(streams) ==>
                r == Failure(TopicNotFound) && streams == old(streams) && logs == old(logs) && clock == old(clock)
      ensures topic in old(streams) ==>
                && var st := old(streams)[topic];
                && var record := EventRecord(eventId, topic, |st.recs|, content, now);
                && r == Success(record)
                && streams == old(streams)[topic := st.(recs := st.recs + [record])]
                && clock == now
    {
      hide Holds;
      if topic !in logs { return Failure(TopicNotFound); }
      var log := logs[topic];
      var offset := log.nextOffset;
      var record := EventRecord(eventId, topic, offset, content, now);
      NextIsLength(topic, streams[topic], log, clock);
      AllHoldLater(streams, logs, clock, now);
      AppendHolds(topic, streams[topic], log, now, record);
      logs := logs[topic := log.(events := log.events + [record], nextOffset := offset + 1)];
      streams := streams[topic := streams[topic].(recs := streams[topic].recs + [record])];
      clock := now;
      return Success(record);
    }

    /** Drops what left retention, from one topic or from all; no reader can tell. */
    method Compact(only: Option<string>, now: int) returns (removed: nat)
      requires Valid() && clock <= now
      modifies this
      ensures Valid() && streams == old(streams) && clock == now && names == old(names)
      ensures removed == Stored(old(logs), names) - Stored(logs, names)
      ensures removed == |Overdue(old(logs), if only.None? then old(logs.Keys) else {only.value}, now)|
      ensures logs.Keys == old(logs.Keys) == streams.Keys
      ensures forall t :: t in logs ==>
                if (only.None? || only.value == t) && old(logs)[t].retention > 0
                then logs[t] == old(logs)[t].(events := streams[t].recs[streams[t].FirstLive(now)..])
                     && KeepsRecent(streams[t], logs[t], now)
                else logs[t] == old(logs)[t]
    {
      hide Valid, Compacted, Stored, Overdue, KeepsRecent, CompactedSome, Began, Stream.FirstLive;
      NamesKnown(now);
      var chosen := if only.Some? then [only.value] else names;
      removed := 0;
      ghost var start, done: set<string> := logs, {};
      Proceed(now);
      NothingDone(logs, now);
      for i := 0 to |chosen|
        invariant Valid() && streams == old(streams) && clock == now && names == old(names)
        invariant done == set t | t in chosen[..i]
        invariant CompactedSome(start, logs, done, now)
        invariant removed == Stored(start, names) - Stored(logs, names) == |Overdue(start, done, now)|
      {
        NoRepeat(chosen, i);
        var n := CompactNext(chosen[i], now, start, old(clock), done);
        removed := removed + n;
        done := done + {chosen[i]};
      }
      assert chosen[..|chosen|] == chosen;
      ChosenDone(streams, start, old(clock), logs, only, chosen, done, now);
    }

    method CompactNext(name: string, now: int, ghost start: map<string, TopicLog>, ghost began: int,
                       ghost done: set<string>)
      returns (removed: nat)
      requires Valid() && clock == now && Began(streams, start, began, now)
      requires name !in done && CompactedSome(start, logs, done, now)
      modifies this`logs
      ensures Valid() && CompactedSome(start, logs, done + {name}, now)
      ensures removed == Stored(old(logs), names) - Stored(logs, names)
           == |Overdue(start, done + {name}, now)| - |Overdue(start, done, now)|
    {
      hide Valid, Compacted, Stored, Overdue, CompactedSome, Began;
      NamesKnown(now);
      ghost var before := logs;
      removed := CompactTopic(name, now);
      ChosenStep(streams, start, began, before, logs, names, done, name, now);
    }

    lemma NamesKnown(now: int)
      requires Valid() && clock <= now
      ensures forall t :: t in names <==> t in logs
      ensures forall i, j :: 0 <= i < j < |names| ==> names[i] != names[j]
      ensures Began(streams, logs, clock, now) && logs.Keys == streams.Keys
    {
      hide Holds;
    }

    /** Time passes. */
    ghost method Proceed(now: int)
      requires Valid() && clock <= now
      modifies this`clock
      ensures Valid() && clock == now
    {
      hide Holds;
      AllHoldLater(streams, logs, clock, now);
      clock := now;
    }

    method CompactTopic(name: string, now: int) returns (removed: nat)
      requires Valid() && clock == now
      modifies this`logs
      ensures Valid()
      ensures name !in old(logs) ==> removed == 0 && logs == old(logs)
      ensures name in old(logs) ==>
                && logs == old(logs)[name := Compacted(old(logs)[name], now)]
                && removed == |old(logs)[name].events| - |logs[name].events|
    {
      hide Holds, Recent;
      removed := 0;
      if name in logs && logs[name].retention > 0 {
        var log := logs[name];
        CompactedHolds(name, streams[name], log, clock);
        var kept := KeepRecent(log.events, now - log.retention);
        removed := |log.events| - |kept|;
        logs := logs[name := log.(events := kept)];
      }
    }

    /** The events still inside the retention window. */
    method LiveEvents(topic: string, now: int) returns (live: seq<EventRecord>)
      requires Valid() && clock <= now && topic in logs
      ensures live == streams[topic].recs[streams[topic].FirstLive(now)..]
      ensures var st := streams[topic];
        if st.retention <= 0 then live == st.recs
        else forall i :: 0 <= i < |st.recs| ==>
               (st.recs[i].createdAt >= now - st.retention <==> |st.recs| - |live| <= i)
    {
      hide Holds, Stream.FirstLive;
      var log := logs[topic];
      LiveByAge(topic, streams[topic], log, clock, now);
      if log.retention <= 0 {
        KeptForever(topic, streams[topic], log, clock, now);
        return log.events;
      }
      LiveIsRecent(topic, streams[topic], log, clock, now);
      live := KeepRecent(log.events, now - log.retention);
    }

    method OldestAvailableCursor(topic: string, now: int) returns (c: Option<string>)
      requires Valid() && clock <= now && topic in logs
      ensures c == OldestOf(topic, streams[topic], now)
    {
      var live := LiveEvents(topic, now);
      c := if live != [] then Some(CursorOf(live[0])) else None;
    }

    /** The cursor of the last event ever appended, even when compaction removed it. */
    method LatestCursor(topic: string) returns (c: string)
      requires Valid() && topic in logs
      ensures c == LatestOf(topic, streams[topic])
    {
      var log := logs[topic];
      if log.events != [] { return CursorOf(log.events[|log.events| - 1]); }
      c := Encode(topic, Max(log.nextOffset - 1, 0));
    }

    /** The offset a read starts after, unless the cursor is invalid or has expired. */
    method StartingOffset(topic: string, from: Option<string>, now: int) returns (start: Result<int, ErrorCode>)
      requires Valid() && clock <= now && topic in logs
      ensures start.Success? ==> start.value >= -1
      ensures start ==
              match StartOf(topic, from)
              case Failure(e) => Failure(e)
              case Success(o) =>
                if Fetch(streams[topic], now, o, |streams[topic].recs|, 1).Stale? then Failure(CursorExpired)
                else Success(o)
    {
      LiveShape(topic, streams[topic], logs[topic], clock, now);
      hide Holds, Encode, Split;
      if from.None? || from.value == EARLIEST {
        var beginning: int := -1;
        return Success(beginning);
      }
      match OffsetFor(topic, from.value) {
        case Failure(e) => return Failure(e);
        case Success(o) =>
          var oldest := OldestAvailableCursor(topic, now);
          if oldest.Some? && o < OffsetOf(oldest.value).value { return Failure(CursorExpired); }
          return Success(o);
      }
    }

    method Read(topic: string, from: Option<string>, to: Option<string>, limit: int, now: int)
      returns (r: Result<Batch, ErrorCode>)
      requires Valid() && clock <= now
      ensures r == if topic in streams then Reading(topic, streams[topic], now, from, to, limit)
                   else Failure(TopicNotFound)
    {
      hide Holds, Encode, OffsetFor, Fetch, Cut, StartOf, EndOf, Reading, Split, BatchOf;
      if topic !in logs { return Failure(TopicNotFound); }
      ghost var st := streams[topic];
      LiveShape(topic, st, logs[topic], clock, now);
      if from == Some(LATEST) {
        LatestIsEmpty(topic, st, now, to, limit);
        return Success(Batch([], None));
      }
      var live := LiveEvents(topic, now);
      var start := StartingOffset(topic, from, now);
      var end := EndingOffset(topic, to);
      ReadingFails(topic, st, now, from, to, limit);
      if start.Failure? { return Failure(start.error); }
      if end.Failure? { return Failure(end.error); }
      var batch := Scan(topic, live, start.value, end.value, limit, st.recs, st.FirstLive(now));
      ReadingIs(topic, st, now, from, to, limit, start.value, if end.value.Some? then end.value.value else |st.recs|);
      r := Success(batch);
    }
  }
}
