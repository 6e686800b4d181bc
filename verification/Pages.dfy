/** What a read answers and how much a subscription is behind, told by the events and the text of the cursors. */
module Pages {
  import opened Contracts
  import opened Cursors
  import opened Stream
  import opened EventStore
  import opened Deliveries

  /** Inside the retention window: no older than the retention, if there is one. */
  predicate Young(st: Stream, now: int, o: int)
    requires 0 <= o < |st.recs|
  {
    st.retention <= 0 || now - st.recs[o].createdAt <= st.retention
  }

  /** There is a live event, and the one at `o` and all before it are too old. */
  ghost predicate Overtaken(st: Stream, now: int, o: int) {
    && (exists i :: 0 <= i < |st.recs| && Young(st, now, i))
    && forall i :: 0 <= i <= o && i < |st.recs| ==> !Young(st, now, i)
  }

  /** In range of a read after `start` up to `end`. */
  ghost predicate Wanted(st: Stream, now: int, start: int, end: int, o: int) {
    0 <= o < |st.recs| && start < o <= end && Young(st, now, o)
  }

  /** The first events in range, at most `limit` of them but one at least, and where to go on if there are more. */
  ghost predicate PageOf(topic: string, st: Stream, now: int, start: int, end: int, limit: int, lo: nat, hi: nat,
                         batch: Batch)
  {
    && lo <= hi <= |st.recs| && batch.events == st.recs[lo..hi]
    && (forall o :: lo <= o < hi ==> Wanted(st, now, start, end, o))
    && (forall o :: Wanted(st, now, start, end, o) && !(lo <= o < hi) ==> o >= hi && hi - lo == Max(limit, 1))
    && hi - lo <= Max(limit, 1)
    && (batch.next.Some? <==> exists o :: Wanted(st, now, start, end, o) && !(lo <= o < hi))
    && (batch.next.Some? ==> hi > lo && batch.next.value == topic + ":" + Padded(hi - 1))
  }

  lemma LiveIsYoung(st: Stream, now: int)
    requires st.Ordered()
    ensures forall o :: 0 <= o < |st.recs| ==> (Young(st, now, o) <==> st.FirstLive(now) <= o)
  {
    hide Stream.FirstLive;
    forall o | 0 <= o < |st.recs| ensures Young(st, now, o) <==> st.FirstLive(now) <= o {
      LiveExactly(st, now, o);
    }
  }

  /** A cursor is refused as expired exactly when retention has overtaken it. */
  lemma StaleWhen(st: Stream, now: int, o: int, upto: int, limit: int)
    requires st.Ordered() && o >= 0
    ensures Fetch(st, now, o, upto, limit).Stale? <==> Overtaken(st, now, o)
  {
    hide Young, Stream.FirstLive;
    LiveIsYoung(st, now);
    var f := st.FirstLive(now);
    if f < |st.recs| { assert Young(st, now, f); }
    if 0 <= o < f < |st.recs| { assert Overtaken(st, now, o); }
  }

  lemma PageWhen(topic: string, st: Stream, now: int, start: int, upto: int, limit: int) returns (lo: nat, hi: nat)
    requires st.Ordered() && start >= -1 && upto >= 0 && Fetch(st, now, start, upto, limit).Range?
    ensures PageOf(topic, st, now, start, upto, limit, lo, hi,
                   BatchOf(topic, st, Fetch(st, now, start, upto, limit), upto, limit))
  {
    hide Young, Stream.FirstLive, Padded;
    LiveIsYoung(st, now);
    var page := Fetch(st, now, start, upto, limit);
    lo, hi := page.lo, page.hi;
    var first, stop := Max(start + 1, st.FirstLive(now)), Min(|st.recs|, upto + 1);
    assert forall o :: Wanted(st, now, start, upto, o) <==> first <= o < stop;
    hide Wanted;
    if first < stop && hi < stop { assert Wanted(st, now, start, upto, hi); }
  }

  /** Which cursor texts a read accepts on a topic. */
  ghost predicate Names(topic: string, cursor: string, o: int) {
    exists raw :: Spells(cursor, topic, raw) && Number(raw) == o
  }

  lemma NamesWhen(topic: string, cursor: string)
    ensures match OffsetFor(topic, cursor)
            case Success(o) => Names(topic, cursor, o)
            case Failure(e) => e == InvalidCursor && forall o :: !Names(topic, cursor, o)
  {
    hide Number, Split;
    SplitReads(cursor);
    SplitRefuses(cursor);
  }

  /** What a read answers: the start in the words of its cursor, each refusal, and the page. */
  ghost predicate Answers(topic: string, st: Stream, now: int, start: int, to: Option<string>, limit: int,
                          r: Result<Batch, ErrorCode>)
  {
    if start >= 0 && Overtaken(st, now, start) then r == Failure(CursorExpired)
    else if to.Some? && to.value != "" && forall o :: !Names(topic, to.value, o) then r == Failure(InvalidCursor)
    else exists end, lo, hi ::
      && (if to.Some? && to.value != "" then Names(topic, to.value, end) else end == |st.recs|)
      && r.Success? && PageOf(topic, st, now, start, end, limit, lo, hi, r.value)
  }

  /**
   * Every read of a topic, in the words of its cursors: from "latest" nothing; from no cursor or "earliest" the
   * start of retention; from a cursor of the topic what comes after it, unless retention has overtaken it; and
   * anything else is refused.
   */
  lemma ReadingMeans(topic: string, st: Stream, now: int, from: Option<string>, to: Option<string>, limit: int)
    requires st.Ordered()
    ensures var r := Reading(topic, st, now, from, to, limit);
      && (from == Some("latest") ==> r == Success(Batch([], None)))
      && (from == None || from == Some("earliest") ==> Answers(topic, st, now, -1, to, limit, r))
      && (from.Some? && from.value != "latest" && from.value != "earliest" ==>
            && ((forall o :: !Names(topic, from.value, o)) ==> r == Failure(InvalidCursor))
            && forall o :: Names(topic, from.value, o) ==> Answers(topic, st, now, o, to, limit, r))
  {
    hide Answers, Split, Number, Fetch, OffsetFor, BatchOf, Overtaken;
    if from == None || from == Some("earliest") {
      ReadingFrom(topic, st, now, from, to, limit, -1);
    } else if from != Some("latest") {
      NamesWhen(topic, from.value);
      forall o | Names(topic, from.value, o)
        ensures Answers(topic, st, now, o, to, limit, Reading(topic, st, now, from, to, limit))
      {
        NamesOne(topic, from.value, o);
        ReadingFrom(topic, st, now, from, to, limit, o);
      }
    }
  }

  lemma NamesOne(topic: string, cursor: string, o: int)
    requires Names(topic, cursor, o)
    ensures o >= 0 && OffsetFor(topic, cursor) == Success(o)
  {
    hide Number, Split;
    SplitReads(cursor);
  }

  lemma ReadingFrom(topic: string, st: Stream, now: int, from: Option<string>, to: Option<string>, limit: int,
                    start: int)
    requires st.Ordered() && from != Some("latest") && start >= -1 && StartOf(topic, from) == Success(start)
    ensures Answers(topic, st, now, start, to, limit, Reading(topic, st, now, from, to, limit))
  {
    hide Split, Number, Fetch, OffsetFor, BatchOf, Overtaken, PageOf, StartOf, Names;
    NotStaleAtStart(st, now, start, |st.recs|, limit);
    if to.Some? && to.value != "" { NamesWhen(topic, to.value); }
    match EndOf(topic, to, |st.recs|)
    case Failure(_) =>
    case Success(upto) =>
      NotStaleAtStart(st, now, start, upto, limit);
      if to.Some? && to.value != "" { EndNamed(topic, to, |st.recs|); }
      if Fetch(st, now, start, upto, limit).Range? { var lo, hi := PageWhen(topic, st, now, start, upto, limit); }
  }

  lemma EndNamed(topic: string, to: Option<string>, head: nat)
    requires to.Some? && to.value != ""
    ensures EndOf(topic, to, head) == match OffsetFor(topic, to.value)
                                      case Success(o) => Success(o)
                                      case Failure(e) => Failure(e)
  {
  }

  lemma NotStaleAtStart(st: Stream, now: int, start: int, upto: int, limit: int)
    requires st.Ordered() && start >= -1
    ensures Fetch(st, now, start, upto, limit).Stale? <==> start >= 0 && Overtaken(st, now, start)
  {
    hide Overtaken;
    if start >= 0 { StaleWhen(st, now, start, upto, limit); }
  }

  // --- How far behind --------------------------------------------------------------------------------

  ghost function Stretch(a: int, b: int): (s: set<int>)
    requires a <= b
    ensures |s| == b - a && forall o :: o in s <==> a <= o < b
    decreases b - a
  {
    if a == b then {} else Stretch(a, b - 1) + {b - 1}
  }

  /** A backlog is the number of live events past a position. */
  lemma BacklogCounts(st: Stream, now: int, mark: int)
    requires st.Ordered() && mark >= -1
    ensures Backlog(st, now, mark) == |set o | 0 <= o < |st.recs| && o > mark && Young(st, now, o)|
  {
    hide Young, Stream.FirstLive;
    LiveIsYoung(st, now);
    var first := Max(mark + 1, st.FirstLive(now));
    assert (set o | 0 <= o < |st.recs| && o > mark && Young(st, now, o)) == Stretch(Min(first, |st.recs|), |st.recs|);
  }
}
