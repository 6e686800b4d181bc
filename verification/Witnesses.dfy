/**
 * Runs from a fresh publisher in which something that might be expected does not hold: a retry lost
 * by a lapsed lease, an event passed by without an attempt, an acked offset that goes back.
 */
module Witnesses {
  import opened Contracts
  import opened Cursors
  import opened Unissued
  import opened Stream
  import opened Dispatch
  import opened NoLoss
  import opened Steps
  import opened Drops

  /** Retries are queued and dispatch is driven by workers; three attempts. */
  const CFG := Config(true, true, 3, 100)

  /** The endpoint does not answer; a retry is due at time 10. */
  const NO_ANSWER := Input(true, false, false, true, "r", 10, map[])

  const NEXT := NO_ANSWER.(retryId := "q")

  const CONTENT := Content("k", None, "d")

  ghost const SUB := Subscription(["t"], _ => true, "e", Active, 50, map[])

  /** One topic with unlimited retention, and nothing else yet. */
  ghost const EMPTY := World(0, map["t" := Stream(0, [])], map[], map[], [], map[], map[], map[], map[],
                             History(map[], map[], {}, {}, map[], {}, map[]))

  /** `v` comes about by some run. */
  ghost predicate Reaches(v: World) {
    exists es :: Possible(CFG, EMPTY, es) && Outcome(CFG, EMPTY, es) == v
  }

  lemma Begins()
    ensures Initial(EMPTY) && Reaches(EMPTY)
  {
    assert Possible(CFG, EMPTY, []) && Outcome(CFG, EMPTY, []) == EMPTY;
  }

  lemma Step(v: World, e: Event, x: World)
    requires Reaches(v) && Enabled(CFG, v, e) && Apply(CFG, v, e) == x
    ensures Reaches(x)
  {
    hide Enabled, Apply;
    var es :| Possible(CFG, EMPTY, es) && Outcome(CFG, EMPTY, es) == v;
    Extend(CFG, EMPTY, es, e);
  }

  lemma {:induction false} Follow(v: World, es: seq<Event>, x: World)
    requires Reaches(v) && Possible(CFG, v, es) && Outcome(CFG, v, es) == x
    ensures Reaches(x)
    decreases |es|
  {
    hide Reaches, Enabled, Apply;
    if es != [] {
      Step(v, es[0], Apply(CFG, v, es[0]));
      Follow(Apply(CFG, v, es[0]), es[1..], x);
    }
  }

  // --- Subscribing, publishing, dispatching ---------------------------------------------------------

  /** One subscription from `from`, which starts at `start`. */
  ghost function Joined(from: From, start: int): World {
    Added(EMPTY, "s", SUB, map["t" := start], Taken(from, map["t" := 0]))
  }

  lemma Subscribed(from: From, start: int)
    requires StartOffset(EMPTY.logs["t"], 0, "t", from) == Some(start)
    ensures Reaches(Joined(from, start))
  {
    hide Reaches, Enabled, Apply, Added, StartOffset, RunSubscribe, SetTask;
    Begins();
    SubscribeStep(CFG, EMPTY, "a", "s", SUB, from);
    var a := SetTask(EMPTY, "a", Subscribing("s", SUB, from, ["t"], map[], map[]));
    Step(EMPTY, Subscribe("a", "s", SUB, from), a);
    TaskAside(EMPTY, "a", Subscribing("s", SUB, from, ["t"], map[], map[]));
    CaptureEnabled(CFG, a, "a", NEXT);
    SubscribeRuns(CFG, EMPTY, "a", "s", SUB, from, ["t"], map[], map[]);
    assert ["t"][1..] == [];
    var b := SetTask(EMPTY, "a", Subscribing("s", SUB, from, [], map["t" := start], map["t" := 0]));
    Step(a, Run("a", NEXT), b);
    TaskAside(EMPTY, "a", Subscribing("s", SUB, from, [], map["t" := start], map["t" := 0]));
    CaptureEnabled(CFG, b, "a", NEXT);
    SubscribeRuns(CFG, EMPTY, "a", "s", SUB, from, [], map["t" := start], map["t" := 0]);
    Step(b, Run("a", NEXT), Joined(from, start));
  }

  ghost function Record(id: string, offset: nat): EventRecord { EventRecord(id, "t", offset, CONTENT, 0) }

  lemma Published(v: World, id: string)
    requires Reaches(v) && v.tasks == map[] && v.clock == 0 && "p" !in v.subs && "q" !in v.hist.issued
    requires "t" in v.logs && Fresh(v, id)
    ensures Reaches(Appended(v, "t", Record(id, |v.logs["t"].recs|)))
  {
    hide Reaches, Enabled, Apply, Appended, SetTask, Fresh;
    var x := Appended(v, "t", Record(id, |v.logs["t"].recs|));
    PublishStep(CFG, v, "p", "t", id, CONTENT);
    Step(v, Event.Publish("p", "t", id, CONTENT), SetTask(x, "p", Publishing("t", |v.logs["t"].recs|)));
    var inp := NEXT.(children := map s | s in Audience(x, "t") :: s);
    AppendedAside(v, "t", Record(id, |v.logs["t"].recs|));
    FanOut(CFG, x, "p", "t", |v.logs["t"].recs|, inp);
    Step(SetTask(x, "p", Publishing("t", |v.logs["t"].recs|)), Run("p", inp), x);
  }

  lemma AppendedAside(v: World, t: string, record: EventRecord)
    requires t in v.logs
    ensures var x := Appended(v, t, record); x.tasks == v.tasks && x.subs == v.subs && x.hist == v.hist
  {
  }

  /** Nothing is under way and "s" may be served. */
  ghost predicate Quiet(v: World) {
    && v.tasks == map[] && v.locks == map[] && "q" !in v.hist.issued
    && "s" in v.subs && Serving(v, "s") && v.subs["s"].topics == ["t"] && "t" in v.logs
  }

  ghost function Inside(v: World): World { v.(locks := map["s" := "d"]) }

  ghost function Place(topics: seq<string>, stage: Stage): Task { Dispatching("s", topics, stage) }

  /** The events of a dispatch up to where it turns to its topics. */
  const ENTER := [StartDispatch("d", "s", ["t"]), Run("d", NEXT), Run("d", NEXT)]

  /** And of one that finds nothing to do. */
  const DISPATCH := ENTER + [Run("d", NEXT)] + [Run("d", NEXT)] + [Run("d", NEXT)]

  lemma First(v: World, e: Event, x: World)
    requires Enabled(CFG, v, e) && Apply(CFG, v, e) == x
    ensures Possible(CFG, v, [e]) && Outcome(CFG, v, [e]) == x
  {
    hide Enabled, Apply;
    Extend(CFG, v, [], e);
    assert [] + [e] == [e];
  }

  lemma Then(v: World, es: seq<Event>, x: World, e: Event, y: World)
    requires Possible(CFG, v, es) && Outcome(CFG, v, es) == x && Enabled(CFG, x, e) && Apply(CFG, x, e) == y
    ensures Possible(CFG, v, es + [e]) && Outcome(CFG, v, es + [e]) == y
  {
    hide Enabled, Apply;
    Extend(CFG, v, es, e);
  }

  lemma Enters(v: World)
    requires Quiet(v)
    ensures Possible(CFG, v, ENTER)
    ensures Outcome(CFG, v, ENTER) == SetTask(Inside(v), "d", Place(["t"], Position))
  {
    hide Possible, Outcome, Enabled, Apply, SetTask;
    StartStep(CFG, v, "d", "s", ["t"]);
    var a := SetTask(v, "d", Place(["t"], Checking));
    First(v, StartDispatch("d", "s", ["t"]), a);
    TaskAside(v, "d", Place(["t"], Checking));
    CheckStep(CFG, a, "d", "s", ["t"], NEXT);
    assert ExpireIfDue(a, "s") == a;
    SetTwice(v, "d", Place(["t"], Checking), Place(["t"], Waiting));
    var b := SetTask(v, "d", Place(["t"], Waiting));
    Then(v, [StartDispatch("d", "s", ["t"])], a, Run("d", NEXT), b);
    TaskAside(v, "d", Place(["t"], Waiting));
    LockStep(CFG, b, "d", "s", ["t"], NEXT);
    LockedPlace(v);
    Then(v, [StartDispatch("d", "s", ["t"])] + [Run("d", NEXT)], b, Run("d", NEXT),
         SetTask(Inside(v), "d", Place(["t"], Position)));
    assert [StartDispatch("d", "s", ["t"])] + [Run("d", NEXT)] + [Run("d", NEXT)] == ENTER;
  }

  lemma LockedPlace(v: World)
    requires v.locks == map[]
    ensures var b := SetTask(v, "d", Place(["t"], Waiting));
      SetTask(b.(locks := b.locks["s" := "d"]), "d", Place(["t"], Position))
      == SetTask(Inside(v), "d", Place(["t"], Position))
  {
    assert v.tasks["d" := Place(["t"], Waiting)]["d" := Place(["t"], Position)]
      == v.tasks["d" := Place(["t"], Position)];
  }

  /** A whole dispatch over a topic whose mark is at or past its head changes nothing at all. */
  lemma PassesBy(v: World)
    requires Quiet(v) && |v.logs["t"].recs| <= Mark(v, "s", "t") + 1
    ensures Possible(CFG, v, DISPATCH) && Outcome(CFG, v, DISPATCH) == v
  {
    hide Possible, Outcome, Enabled, Apply, SetTask, EndTask, RunCatchUp, Fetch;
    Enters(v);
    var u, m := Inside(v), Mark(v, "s", "t");
    TaskAside(u, "d", Place(["t"], Position));
    var a, b := SetTask(u, "d", Place(["t"], Position)), SetTask(u, "d", Place(["t"], On(Fetching(m))));
    PositionStep(CFG, a, "d", "s", ["t"], NEXT);
    SetTwice(u, "d", Place(["t"], Position), Place(["t"], On(Fetching(m))));
    Then(v, ENTER, a, Run("d", NEXT), b);
    TaskAside(u, "d", Place(["t"], On(Fetching(m))));
    StageStep(CFG, b, "d", "s", ["t"], Fetching(m), NEXT);
    FetchWorld(CFG, b, "d", "s", ["t"], m, NEXT);
    NothingThere(v.logs["t"], v.clock, m, CFG.pageSize);
    assert ["t"][1..] == [];
    SetTwice(u, "d", Place(["t"], On(Fetching(m))), Place([], Position));
    var c := SetTask(u, "d", Place([], Position));
    Then(v, ENTER + [Run("d", NEXT)], b, Run("d", NEXT), c);
    TaskAside(u, "d", Place([], Position));
    PositionStep(CFG, c, "d", "s", [], NEXT);
    Left(v);
    Then(v, ENTER + [Run("d", NEXT)] + [Run("d", NEXT)], c, Run("d", NEXT), v);
  }

  lemma NothingThere(st: Stream, now: int, m: int, limit: int)
    requires |st.recs| <= m + 1
    ensures Fetch(st, now, m, |st.recs|, limit) == Range(0, 0)
  {
  }

  lemma Left(v: World)
    requires v.tasks == map[] && v.locks == map[]
    ensures Release(SetTask(Inside(v), "d", Place([], Position)), "d", "s") == v
  {
    assert map["s" := "d"] - {"s"} == map[];
    assert v.tasks["d" := Place([], Position)] - {"d"} == v.tasks;
  }

  // --- Passed by without an attempt -----------------------------------------------------------------

  /** A live event the subscription asked for, appended after it began, below its mark and never attempted. */
  ghost predicate Skipped(w: World) {
    && Quiet(w) && Deliverable(w, "s", "t", 0) && w.logs["t"].LiveAt(w.clock, 0)
    && "s" in w.hist.taken && "t" in w.hist.taken["s"].heads && w.hist.taken["s"].heads["t"] == 0
    && w.attempts == [] && w.queue == map[] && w.received == map[] && Mark(w, "s", "t") >= 0
    && Possible(CFG, w, DISPATCH) && Outcome(CFG, w, DISPATCH) == w
  }

  /**
   * Subscribing with a cursor past the head succeeds, and an event appended afterwards is passed by
   * silently: a whole dispatch finds nothing to do.
   */
  lemma SkippedSilently()
    ensures Initial(EMPTY)
    ensures exists es :: Possible(CFG, EMPTY, es) && Skipped(Outcome(CFG, EMPTY, es))
  {
    var v := Joined(After("t", 5), 5);
    assert StartOffset(EMPTY.logs["t"], 0, "t", After("t", 5)) == Some(5);
    Begins();
    Subscribed(After("t", 5), 5);
    assert Fresh(v, "id");
    Published(v, "id");
    var w := Appended(v, "t", Record("id", 0));
    assert w.logs["t"].recs == [Record("id", 0)];
    assert Quiet(w) && Mark(w, "s", "t") == 5 && Deliverable(w, "s", "t", 0);
    PassesBy(w);
    hide Quiet, Possible, Outcome, Joined, Appended, Deliverable;
    assert Reaches(w);
  }

  // --- An acked offset that goes back -----------------------------------------------------------------

  /** The events of one accepted ack. */
  function AckCall(cursor: string): seq<Event> {
    [StartAck("k", "s", cursor)] + [Run("k", NEXT)] + [Run("k", NEXT)] + [Run("k", NEXT)]
  }

  lemma Acks(v: World, cursor: string, o: nat)
    requires Quiet(v) && Split(cursor) == Success(("t", o))
    ensures Possible(CFG, v, AckCall(cursor)) && Outcome(CFG, v, AckCall(cursor)) == AckedBy(v, "s", "t", o, cursor)
  {
    hide Possible, Outcome, Enabled, Apply, SetTask, EndTask, Split, AdvanceCursor, SetMark, RunAck, AckBegun;
    AckStarts(CFG, v, "k", "s", cursor);
    assert ExpireIfDue(v, "s") == v;
    AckBegins(v, "k", "s", cursor);
    var y := AdvanceCursor(v, "s", "t", cursor);
    var a, b := Acking("s", "t", o, cursor, AckCursor), Acking("s", "t", o, cursor, AckRead);
    var c := Acking("s", "t", o, cursor, AckWrite(Mark(y, "s", "t")));
    var es := [StartAck("k", "s", cursor)];
    First(v, StartAck("k", "s", cursor), SetTask(v, "k", a));
    AckEnds(v, "k", a, b, c, "s", "t", o, cursor);
    TaskAside(v, "k", a);
    AckEnabled(CFG, SetTask(v, "k", a), "k", NEXT);
    AckWorld(SetTask(v, "k", a), "k", "s", "t", o, cursor, AckCursor);
    Then(v, es, SetTask(v, "k", a), Run("k", NEXT), SetTask(y, "k", b));
    TaskAside(y, "k", b);
    Advanced(v, cursor);
    AckEnabled(CFG, SetTask(y, "k", b), "k", NEXT);
    AckWorld(SetTask(y, "k", b), "k", "s", "t", o, cursor, AckRead);
    Then(v, es + [Run("k", NEXT)], SetTask(y, "k", b), Run("k", NEXT), SetTask(y, "k", c));
    TaskAside(y, "k", c);
    AckEnabled(CFG, SetTask(y, "k", c), "k", NEXT);
    AckWorld(SetTask(y, "k", c), "k", "s", "t", o, cursor, AckWrite(Mark(y, "s", "t")));
    Then(v, es + [Run("k", NEXT)] + [Run("k", NEXT)], SetTask(y, "k", c), Run("k", NEXT),
         AckedBy(v, "s", "t", o, cursor));
  }

  lemma Advanced(x: World, cursor: string)
    requires "s" in x.subs
    ensures var y := AdvanceCursor(x, "s", "t", cursor); "s" in y.subs && y.hist == x.hist && y.tasks == x.tasks
  {
    hide Less;
  }

  /** Three events published to a subscription from "earliest". */
  ghost const THREE :=
    Appended(Appended(Appended(Joined(Earliest, -1), "t", Record("a", 0)), "t", Record("b", 1)), "t", Record("c", 2))

  ghost const ACKED := AckedBy(THREE, "s", "t", 2, Encode("t", 2))

  ghost const BACK := AckedBy(ACKED, "s", "t", 1, "t:1")

  lemma ThreeShape()
    ensures var v := Joined(Earliest, -1);
      var v1 := Appended(v, "t", Record("a", 0)); var v2 := Appended(v1, "t", Record("b", 1));
      && v.tasks == map[] && v.clock == 0 && "p" !in v.subs && "q" !in v.hist.issued && "t" in v.logs
        && |v.logs["t"].recs| == 0
      && v1.tasks == map[] && v1.clock == 0 && v1.subs == v.subs && v1.hist == v.hist
      && "t" in v1.logs && v1.logs["t"].recs == [Record("a", 0)]
      && v2.tasks == map[] && v2.clock == 0 && v2.subs == v.subs && v2.hist == v.hist
      && "t" in v2.logs && v2.logs["t"].recs == [Record("a", 0), Record("b", 1)]
      && Fresh(v, "a") && Fresh(v1, "b") && Fresh(v2, "c")
      && THREE == Appended(v2, "t", Record("c", 2)) && Quiet(THREE) && THREE.subs["s"].cursors == map[]
  {
  }

  lemma ThreePublished()
    ensures Reaches(THREE) && Quiet(THREE) && THREE.subs["s"].cursors == map[]
  {
    hide Reaches, Appended;
    var v := Joined(Earliest, -1);
    Subscribed(Earliest, -1);
    ThreeShape();
    Published(v, "a");
    var v1 := Appended(v, "t", Record("a", 0));
    Published(v1, "b");
    Published(Appended(v1, "t", Record("b", 1)), "c");
  }

  lemma OneDigit()
    ensures Split("t:1") == Success(("t", 1)) && Less(Encode("t", 2), "t:1")
  {
    assert AllDigits("1") && "t" + ":" + "1" == "t:1";
    SplitDigits("t", "1");
    assert Number("1") == 1 by { assert "1"[..0] == ""; }
    PaddedDenotes(2);
    assert Padded(2)[0] == '0';
    LessAfterPrefix("t:", Padded(2), "1");
  }

  lemma CursorMoves(v: World, cursor: string, o: nat)
    requires Quiet(v) && (v.subs["s"].cursors == map[]
        || ("t" in v.subs["s"].cursors && Less(v.subs["s"].cursors["t"], cursor)))
    ensures var x := AckedBy(v, "s", "t", o, cursor);
      && Quiet(x) && "t" in x.subs["s"].cursors && x.subs["s"].cursors["t"] == cursor
  {
    hide Less;
  }

  /**
   * An explicit ack may carry a cursor the log never issued, and then the acked offset can go back:
   * after the event at offset 2 was acked, the ack of "t:1" is accepted and its cursor stored.
   */
  lemma UnpaddedAckGoesBack()
    ensures Initial(EMPTY) && Reaches(ACKED)
    ensures Possible(CFG, ACKED, AckCall("t:1")) && Outcome(CFG, ACKED, AckCall("t:1")) == BACK
    ensures "s" in ACKED.subs && "t" in ACKED.subs["s"].cursors && OffsetOf(ACKED.subs["s"].cursors["t"]) == Success(2)
    ensures "s" in BACK.subs && "t" in BACK.subs["s"].cursors && OffsetOf(BACK.subs["s"].cursors["t"]) == Success(1)
  {
    hide Reaches, Possible, Outcome, Quiet, AckedBy, Less, Encode, Split, AckCall;
    Begins();
    ThreePublished();
    SplitEncode("t", 2);
    OneDigit();
    Acks(THREE, Encode("t", 2), 2);
    Follow(THREE, AckCall(Encode("t", 2)), ACKED);
    CursorMoves(THREE, Encode("t", 2), 2);
    Acks(ACKED, "t:1", 1);
    CursorMoves(ACKED, "t:1", 1);
    assert "s" in ACKED.subs && "s" in BACK.subs by { QuietSub(ACKED); QuietSub(BACK); }
  }

  const WIDE_DIGITS := "00000000000000010"

  ghost const WIDE := AckedBy(THREE, "s", "t", 10, "t:" + WIDE_DIGITS)

  ghost const TAKEN_BACK := AckedBy(WIDE, "s", "t", 2, Encode("t", 2))

  lemma SeventeenDigits()
    ensures Split("t:" + WIDE_DIGITS) == Success(("t", 10)) && Less("t:" + WIDE_DIGITS, Encode("t", 2))
  {
    var p := "0000000000000001";
    assert WIDE_DIGITS == Zeros(15) + "10" && p == Zeros(15) + "1" && WIDE_DIGITS[..WIDTH] == p;
    assert Number("1") == 1 by { assert "1"[..0] == ""; }
    assert Number("10") == 10 by { assert "10"[..1] == "1" && Number("1") == 1; }
    PaddingDenotes(15, "10");
    PaddingDenotes(15, "1");
    PowerGrows(WIDTH);
    assert "t" + ":" + WIDE_DIGITS == "t:" + WIDE_DIGITS && "t" + ":" + Padded(2) == "t:" + Padded(2);
    hide Number, Power, Padded, Less;
    SplitDigits("t", WIDE_DIGITS);
    WideOrder(WIDE_DIGITS, 2);
    LessAfterPrefix("t:", WIDE_DIGITS, Padded(2));
  }

  /**
   * Sixteen digits or more are not enough once the stored cursor is one the log never issued: the ack
   * of offset 10 in seventeen digits is accepted, and the issued cursor of offset 2 then replaces it.
   */
  lemma WideAckTakenBack()
    ensures Initial(EMPTY) && Reaches(WIDE)
    ensures Possible(CFG, WIDE, AckCall(Encode("t", 2))) && Outcome(CFG, WIDE, AckCall(Encode("t", 2))) == TAKEN_BACK
    ensures "s" in WIDE.subs && "t" in WIDE.subs["s"].cursors && OffsetOf(WIDE.subs["s"].cursors["t"]) == Success(10)
    ensures "s" in TAKEN_BACK.subs && "t" in TAKEN_BACK.subs["s"].cursors
    ensures OffsetOf(TAKEN_BACK.subs["s"].cursors["t"]) == Success(2)
  {
    hide Reaches, Possible, Outcome, Quiet, AckedBy, Less, Encode, Split, AckCall;
    var wide := "t:" + WIDE_DIGITS;
    Begins();
    ThreePublished();
    SplitEncode("t", 2);
    SeventeenDigits();
    Acks(THREE, wide, 10);
    Follow(THREE, AckCall(wide), WIDE);
    CursorMoves(THREE, wide, 10);
    Acks(WIDE, Encode("t", 2), 2);
    CursorMoves(WIDE, Encode("t", 2), 2);
    assert "s" in WIDE.subs && "s" in TAKEN_BACK.subs by { QuietSub(WIDE); QuietSub(TAKEN_BACK); }
  }

  lemma QuietSub(v: World)
    requires Quiet(v)
    ensures "s" in v.subs
  {
  }

  // --- A retry lost by a lapsed lease ------------------------------------------------------------------

  const ITEM := RetryItem("r", "s", "t", 0, "id", 1, 10)

  const CLAIMED := ITEM.(nextRetryAt := 160)

  /** One event published to a subscription from "earliest". */
  ghost const ONE := Appended(Joined(Earliest, -1), "t", Record("id", 0))

  /** Its dispatch has read the page, recorded a failed attempt, queued the event, moved the mark. */
  ghost const SEEN := SeePage(Inside(ONE), "s", "t", 0, 1)

  ghost const TRIED := SEEN.(attempts := [DeliveryAttempt("s", "id", "t", 0, 1, Retry)])

  ghost const QUEUED := Enqueue(TRIED, ITEM)

  ghost const MARKED := SetMark(QUEUED, "s", "t", 0)

  ghost const HANDED := MARKED.(locks := map[])

  /** The lease runs out, a worker claims the item, drops it, completes it; the subscriber renews. */
  ghost const LATE := HANDED.(clock := 100)

  ghost const LAPSED := LATE.(subs := map["s" := SUB.(status := Expired)])

  ghost const TAKEN := LAPSED.(queue := map["r" := CLAIMED])

  ghost const DROPPED := Drop(TAKEN, CLAIMED)

  ghost const DONE := DROPPED.(queue := map[])

  ghost const RENEWED := DONE.(subs := map["s" := SUB.(leaseUntil := 1000)])

  /** The dispatch takes one step from `a` in stores `x` to `b` in stores `y`. */
  lemma Goes(x: World, a: Stage, inp: Input, y: World, topics: seq<string>, b: Stage)
    requires Reaches(SetTask(x, "d", Place(["t"], a))) && Enabled(CFG, SetTask(x, "d", Place(["t"], a)), Run("d", inp))
    requires Apply(CFG, SetTask(x, "d", Place(["t"], a)), Run("d", inp)) == SetTask(y, "d", Place(topics, b))
    ensures Reaches(SetTask(y, "d", Place(topics, b)))
  {
    hide Reaches, Enabled, Apply, SetTask;
    Step(SetTask(x, "d", Place(["t"], a)), Run("d", inp), SetTask(y, "d", Place(topics, b)));
  }

  /** Writes to stores and the task's next place: the earlier place does not show. */
  lemma ThenStores(x: World, a: Task, b: Task)
    ensures SetTask(SeePage(SetTask(x, "d", a), "s", "t", 0, 1), "d", b) == SetTask(SeePage(x, "s", "t", 0, 1), "d", b)
    ensures forall r :: SetTask(SetTask(x, "d", a).(attempts := r), "d", b) == SetTask(x.(attempts := r), "d", b)
    ensures forall i :: SetTask(Enqueue(SetTask(x, "d", a), i), "d", b) == SetTask(Enqueue(x, i), "d", b)
    ensures SetTask(SetMark(SetTask(x, "d", a), "s", "t", 0), "d", b) == SetTask(SetMark(x, "s", "t", 0), "d", b)
  {
    assert x.tasks["d" := a]["d" := b] == x.tasks["d" := b];
  }

  lemma GetSeen()
    ensures Reaches(SetTask(SEEN, "d", Place(["t"], On(Scanning(0, 1, -1)))))
  {
    var v := Joined(Earliest, -1);
    Subscribed(Earliest, -1);
    assert Fresh(v, "id");
    Published(v, "id");
    assert ONE.logs["t"].recs == [Record("id", 0)];
    assert Quiet(ONE) && Mark(ONE, "s", "t") == -1;
    assert Fetch(ONE.logs["t"], 0, -1, 1, 100) == Range(0, 1);
    hide Reaches, Possible, Outcome, Enabled, Apply, SetTask, Joined, Appended, RunCatchUp, Fetch, SeePage;
    Enters(ONE);
    var u := Inside(ONE);
    Follow(ONE, ENTER, SetTask(u, "d", Place(["t"], Position)));
    TaskAside(u, "d", Place(["t"], Position));
    PositionStep(CFG, SetTask(u, "d", Place(["t"], Position)), "d", "s", ["t"], NEXT);
    SetTwice(u, "d", Place(["t"], Position), Place(["t"], On(Fetching(-1))));
    Goes(u, Position, NEXT, u, ["t"], On(Fetching(-1)));
    var b := SetTask(u, "d", Place(["t"], On(Fetching(-1))));
    TaskAside(u, "d", Place(["t"], On(Fetching(-1))));
    StageStep(CFG, b, "d", "s", ["t"], Fetching(-1), NEXT);
    FetchWorld(CFG, b, "d", "s", ["t"], -1, NEXT);
    ThenStores(u, Place(["t"], On(Fetching(-1))), Place(["t"], On(Scanning(0, 1, -1))));
    Goes(u, On(Fetching(-1)), NEXT, SEEN, ["t"], On(Scanning(0, 1, -1)));
  }

  /** The phases of the one delivery, from the send to the mark. */
  lemma GetMarked()
    ensures Reaches(SetTask(MARKED, "d", Place(["t"], On(Scanning(1, 1, 0)))))
  {
    GetSeen();
    assert Matched(SEEN, "s", "t", 0) && SEEN.hist.issued == map[];
    hide Reaches, Enabled, Apply, SetTask, RunCatchUp, SeePage, Appended, Joined, Enqueue, SetMark, Phased, Arrived;
    var c := InDispatch("s", ["t"], 1);
    var at := Place(["t"], On(Scanning(0, 1, -1)));
    TaskAside(SEEN, "d", at);
    StageStep(CFG, SetTask(SEEN, "d", at), "d", "s", ["t"], Scanning(0, 1, -1), NEXT);
    ScanWorld(CFG, SetTask(SEEN, "d", at), "d", "s", ["t"], 0, 1, -1, NEXT);
    SetTwice(SEEN, "d", at, TaskAt(c, 0, Sending(1)));
    Goes(SEEN, On(Scanning(0, 1, -1)), NEXT, SEEN, ["t"], On(Handling(0, 1, Sending(1))));
    Sends();
    Goes(SEEN, On(Handling(0, 1, Sending(1))), NEXT, SEEN, ["t"], On(Handling(0, 1, Sent(1, false, true))));
    Records();
    Goes(SEEN, On(Handling(0, 1, Sent(1, false, true))), NEXT, TRIED, ["t"], On(Handling(0, 1, HandOver(1))));
    Queues();
    Goes(TRIED, On(Handling(0, 1, HandOver(1))), NO_ANSWER, QUEUED, ["t"], On(Handling(0, 1, HandedMark)));
    Marks();
    Goes(QUEUED, On(Handling(0, 1, HandedMark)), NEXT, MARKED, ["t"], On(Scanning(1, 1, 0)));
  }

  lemma Sends()
    ensures var w, v := SetTask(SEEN, "d", Place(["t"], On(Handling(0, 1, Sending(1))))),
                        SetTask(SEEN, "d", Place(["t"], On(Handling(0, 1, Sent(1, false, true)))));
      Enabled(CFG, w, Run("d", NEXT)) && Apply(CFG, w, Run("d", NEXT)) == v
  {
    var c := InDispatch("s", ["t"], 1);
    var w := SetTask(SEEN, "d", TaskAt(c, 0, Sending(1)));
    assert SEEN.hist.issued == map[] && Logged(SEEN, "t", 0) && "s" in SEEN.subs;
    assert Arrived(w.received, "e", Reply(false, false, true), "id") == w.received;
    hide Enabled, Apply, SetTask, Phased, Arrived, SeePage, Joined, Appended;
    TaskAside(SEEN, "d", TaskAt(c, 0, Sending(1)));
    PhaseStep(CFG, w, "d", c, "s", "t", 0, Sending(1), NEXT);
    SentWorld(CFG, w, "d", c, "s", "t", 0, 1, Reply(false, false, true), NEXT);
    SetTwice(SEEN, "d", TaskAt(c, 0, Sending(1)), TaskAt(c, 0, Sent(1, false, true)));
  }

  lemma Records()
    ensures var w, v := SetTask(SEEN, "d", Place(["t"], On(Handling(0, 1, Sent(1, false, true))))),
                        SetTask(TRIED, "d", Place(["t"], On(Handling(0, 1, HandOver(1)))));
      Enabled(CFG, w, Run("d", NEXT)) && Apply(CFG, w, Run("d", NEXT)) == v
  {
    var c := InDispatch("s", ["t"], 1);
    var at := TaskAt(c, 0, Sent(1, false, true));
    var w := SetTask(SEEN, "d", at);
    assert SEEN.hist.issued == map[] && Logged(SEEN, "t", 0) && "s" in SEEN.subs
      && SEEN.logs["t"].recs[0].eventId == "id";
    assert SEEN.attempts + TRIED.attempts == TRIED.attempts;
    hide Enabled, Apply, SetTask, Phased, SeePage, Joined, Appended;
    TaskAside(SEEN, "d", at);
    PhaseStep(CFG, w, "d", c, "s", "t", 0, Sent(1, false, true), NEXT);
    RecordedWorld(CFG, w, "d", c, "s", "t", 0, 1, Reply(false, false, true), NEXT);
    ThenStores(SEEN, at, TaskAt(c, 0, HandOver(1)));
  }

  lemma Queues()
    ensures var w, v := SetTask(TRIED, "d", Place(["t"], On(Handling(0, 1, HandOver(1))))),
                        SetTask(QUEUED, "d", Place(["t"], On(Handling(0, 1, HandedMark))));
      Enabled(CFG, w, Run("d", NO_ANSWER)) && Apply(CFG, w, Run("d", NO_ANSWER)) == v
  {
    var c := InDispatch("s", ["t"], 1);
    var at := TaskAt(c, 0, HandOver(1));
    var w := SetTask(TRIED, "d", at);
    assert TRIED.hist.issued == map[] && Logged(TRIED, "t", 0) && "s" in TRIED.subs
      && TRIED.logs["t"].recs[0].eventId == "id";
    hide Enabled, Apply, SetTask, Phased, SeePage, Joined, Appended, Enqueue;
    TaskAside(TRIED, "d", at);
    PhaseStep(CFG, w, "d", c, "s", "t", 0, HandOver(1), NO_ANSWER);
    HandedWorld(CFG, w, "d", c, "s", "t", 0, 1, NO_ANSWER);
    ThenStores(TRIED, at, TaskAt(c, 0, HandedMark));
  }

  lemma Marks()
    ensures var w, v := SetTask(QUEUED, "d", Place(["t"], On(Handling(0, 1, HandedMark)))),
                        SetTask(MARKED, "d", Place(["t"], On(Scanning(1, 1, 0))));
      Enabled(CFG, w, Run("d", NEXT)) && Apply(CFG, w, Run("d", NEXT)) == v
  {
    var c := InDispatch("s", ["t"], 1);
    var at := TaskAt(c, 0, HandedMark);
    var w := SetTask(QUEUED, "d", at);
    assert "q" !in QUEUED.hist.issued && Logged(QUEUED, "t", 0) && "s" in QUEUED.subs;
    hide Enabled, Apply, SetTask, Phased, SeePage, Joined, Appended, Enqueue, SetMark;
    TaskAside(QUEUED, "d", at);
    PhaseStep(CFG, w, "d", c, "s", "t", 0, HandedMark, NEXT);
    MarkedWorld(CFG, w, "d", c, "s", "t", 0, 0, NEXT);
    ThenStores(QUEUED, at, TaskDone(c, 0));
  }

  lemma MarkedShape()
    ensures Mark(MARKED, "s", "t") == 0 && "q" !in MARKED.hist.issued && MARKED.logs == ONE.logs && "s" in MARKED.subs
    ensures "t" in MARKED.logs && MARKED.logs["t"].recs == [Record("id", 0)]
    ensures MARKED.locks == map["s" := "d"] && MARKED.tasks == map[]
    ensures Inside(HANDED) == MARKED
  {
  }

  lemma EndsPage()
    requires Reaches(SetTask(MARKED, "d", Place(["t"], On(Scanning(1, 1, 0)))))
    ensures Reaches(SetTask(MARKED, "d", Place(["t"], On(Settling(0)))))
  {
    MarkedShape();
    hide Reaches, Enabled, Apply, SetTask, RunCatchUp, SeePage, Appended, Joined, Enqueue, SetMark, Fetch, Mark;
    var x := MARKED;
    var a, b := On(Scanning(1, 1, 0)), On(Settling(0));
    TaskAside(x, "d", Place(["t"], a));
    StageStep(CFG, SetTask(x, "d", Place(["t"], a)), "d", "s", ["t"], Scanning(1, 1, 0), NEXT);
    ScanWorld(CFG, SetTask(x, "d", Place(["t"], a)), "d", "s", ["t"], 1, 1, 0, NEXT);
    SetTwice(x, "d", Place(["t"], a), Place(["t"], b));
    Goes(x, a, NEXT, x, ["t"], b);
  }

  lemma Settles()
    requires Reaches(SetTask(MARKED, "d", Place(["t"], On(Settling(0)))))
    ensures Reaches(SetTask(MARKED, "d", Place(["t"], On(SettleMark(0, 0)))))
  {
    MarkedShape();
    hide Reaches, Enabled, Apply, SetTask, RunCatchUp, SeePage, Appended, Joined, Enqueue, SetMark, Fetch, Mark;
    var x := MARKED;
    var b, c := On(Settling(0)), On(SettleMark(0, 0));
    SameMark(x, Place(["t"], b));
    TaskAside(x, "d", Place(["t"], b));
    StageStep(CFG, SetTask(x, "d", Place(["t"], b)), "d", "s", ["t"], Settling(0), NEXT);
    SettleWorld(CFG, SetTask(x, "d", Place(["t"], b)), "d", "s", ["t"], 0, 0, NEXT);
    SetTwice(x, "d", Place(["t"], b), Place(["t"], c));
    Goes(x, b, NEXT, x, ["t"], c);
  }

  lemma Unmarked()
    requires Reaches(SetTask(MARKED, "d", Place(["t"], On(SettleMark(0, 0)))))
    ensures Reaches(SetTask(MARKED, "d", Place(["t"], Position)))
  {
    MarkedShape();
    hide Reaches, Enabled, Apply, SetTask, RunCatchUp, SeePage, Appended, Joined, Enqueue, SetMark, Fetch, Mark;
    var x := MARKED;
    var c := On(SettleMark(0, 0));
    TaskAside(x, "d", Place(["t"], c));
    StageStep(CFG, SetTask(x, "d", Place(["t"], c)), "d", "s", ["t"], SettleMark(0, 0), NEXT);
    SettleWorld(CFG, SetTask(x, "d", Place(["t"], c)), "d", "s", ["t"], 0, 0, NEXT);
    SetTwice(x, "d", Place(["t"], c), Place(["t"], Position));
    Goes(x, c, NEXT, x, ["t"], Position);
  }

  /** The end of the page, one more look, and the dispatch is over. */
  lemma GetHanded()
    ensures Reaches(HANDED)
  {
    GetMarked();
    MarkedShape();
    hide Reaches, SetTask, SeePage, Appended, Joined, Enqueue, SetMark;
    EndsPage();
    Settles();
    Unmarked();
    Leaves();
  }

  lemma SameMark(x: World, a: Task)
    ensures Mark(SetTask(x, "d", a), "s", "t") == Mark(x, "s", "t")
  {
  }

  lemma LooksOn()
    requires Reaches(SetTask(MARKED, "d", Place(["t"], Position)))
    ensures Reaches(SetTask(MARKED, "d", Place(["t"], On(Fetching(0)))))
  {
    MarkedShape();
    hide Reaches, Enabled, Apply, SetTask, RunCatchUp, SeePage, Appended, Joined, Enqueue, SetMark, Fetch, Mark;
    var x := MARKED;
    var a, b := Position, On(Fetching(0));
    TaskAside(x, "d", Place(["t"], a));
    SameMark(x, Place(["t"], a));
    PositionStep(CFG, SetTask(x, "d", Place(["t"], a)), "d", "s", ["t"], NEXT);
    SetTwice(x, "d", Place(["t"], a), Place(["t"], b));
    Goes(x, a, NEXT, x, ["t"], b);
  }

  lemma FindsNone()
    requires Reaches(SetTask(MARKED, "d", Place(["t"], On(Fetching(0)))))
    ensures Reaches(SetTask(MARKED, "d", Place([], Position)))
  {
    MarkedShape();
    hide Reaches, Enabled, Apply, SetTask, RunCatchUp, SeePage, Appended, Joined, Enqueue, SetMark, Fetch, Mark;
    var x := MARKED;
    var b := On(Fetching(0));
    TaskAside(x, "d", Place(["t"], b));
    StageStep(CFG, SetTask(x, "d", Place(["t"], b)), "d", "s", ["t"], Fetching(0), NEXT);
    FetchWorld(CFG, SetTask(x, "d", Place(["t"], b)), "d", "s", ["t"], 0, NEXT);
    NothingThere(x.logs["t"], x.clock, 0, CFG.pageSize);
    assert ["t"][1..] == [];
    SetTwice(x, "d", Place(["t"], b), Place([], Position));
    Goes(x, b, NEXT, x, [], Position);
  }

  lemma LetsGo()
    requires Reaches(SetTask(MARKED, "d", Place([], Position)))
    ensures Reaches(HANDED)
  {
    MarkedShape();
    hide Reaches, Enabled, Apply, SetTask, RunCatchUp, SeePage, Appended, Joined, Enqueue, SetMark, Fetch, Mark;
    var x := MARKED;
    TaskAside(x, "d", Place([], Position));
    PositionStep(CFG, SetTask(x, "d", Place([], Position)), "d", "s", [], NEXT);
    Left(HANDED);
    Step(SetTask(x, "d", Place([], Position)), Run("d", NEXT), HANDED);
  }

  lemma Leaves()
    requires Reaches(SetTask(MARKED, "d", Place(["t"], Position)))
    ensures Reaches(HANDED)
  {
    hide Reaches, SetTask, SeePage, Appended, Joined, Enqueue, SetMark;
    LooksOn();
    FindsNone();
    LetsGo();
  }

  lemma Waits(v: World)
    requires Reaches(v) && v.clock == 0
    ensures Reaches(v.(clock := 100))
  {
    hide Reaches;
    Step(v, Tick(100), v.(clock := 100));
  }

  lemma Expires()
    requires Reaches(LATE)
    ensures Reaches(LAPSED)
  {
    assert LATE.subs == map["s" := SUB];
    assert map["s" := SUB]["s" := SUB.(status := Expired)] == map["s" := SUB.(status := Expired)];
    hide Reaches, SeePage, Appended, Enqueue, SetMark, Joined;
    Step(LATE, Lapse("s"), LAPSED);
  }

  lemma Claims()
    requires Reaches(LAPSED)
    ensures Reaches(SetTask(TAKEN, "w", Working([CLAIMED], Reviewing)))
  {
    assert LAPSED.queue == map["r" := ITEM] && LAPSED.clock == 100 && LAPSED.tasks == map[];
    assert Leased(LAPSED, ["r"], 160) == TAKEN by {
      assert Leased(LAPSED, ["r"], 160).queue == map["r" := CLAIMED];
    }
    assert LeasedItems(LAPSED.queue, ["r"], 160) == [CLAIMED];
    hide Reaches, Enabled, Apply, SeePage, Appended, Enqueue, SetMark, Joined, Leased, LeasedItems, SetTask;
    ClaimStep(CFG, LAPSED, "w", ["r"], 160);
    Step(LAPSED, StartWork("w", ["r"], 160), SetTask(TAKEN, "w", Working([CLAIMED], Reviewing)));
  }

  /** The worker takes one step from `a` in stores `x` to `b` in stores `y`. */
  lemma Works(x: World, a: Task, y: World, b: Task)
    requires Reaches(SetTask(x, "w", a)) && a.Working? && "q" !in x.hist.issued
    requires RunWork(CFG, SetTask(x, "w", a), "w", NEXT) == SetTask(y, "w", b)
    ensures Reaches(SetTask(y, "w", b))
  {
    hide Reaches, Enabled, Apply, RunWork, SetTask;
    TaskAside(x, "w", a);
    WorkStep(CFG, SetTask(x, "w", a), "w", a.rest, a.work, NEXT);
    Step(SetTask(x, "w", a), Run("w", NEXT), SetTask(y, "w", b));
  }

  lemma DroppedShape()
    ensures "q" !in TAKEN.hist.issued && TAKEN.tasks == map[] && DROPPED.tasks == map[] && DONE.tasks == map[]
    ensures "q" !in DROPPED.hist.issued && "q" !in DONE.hist.issued
    ensures [CLAIMED][1..] == [] && map["r" := CLAIMED] - {"r"} == map[]
  {
  }

  lemma WorksOver()
    requires Reaches(SetTask(DONE, "w", Working([], Reviewing)))
    ensures Reaches(DONE)
  {
    DroppedShape();
    var c := Working([], Reviewing);
    hide Reaches, Enabled, Apply, SeePage, Appended, Enqueue, SetMark, Joined, RunWork, SetTask, EndTask;
    TaskAside(DONE, "w", c);
    WorkStep(CFG, SetTask(DONE, "w", c), "w", [], Reviewing, NEXT);
    EndSet(DONE, "w", c);
    WorkOver(SetTask(DONE, "w", c));
    Step(SetTask(DONE, "w", c), Run("w", NEXT), DONE);
  }

  lemma ClearsUp()
    requires Reaches(SetTask(DROPPED, "w", Working([CLAIMED], Completing)))
    ensures Reaches(DONE)
  {
    DroppedShape();
    var b, c := Working([CLAIMED], Completing), Working([], Reviewing);
    ThenDrops(DROPPED, b, c);
    hide Reaches, Enabled, Apply, SeePage, Appended, Enqueue, SetMark, Joined, RunWork, SetTask, EndTask;
    TaskAside(DROPPED, "w", b);
    CompleteWorld(CFG, SetTask(DROPPED, "w", b), "w", [CLAIMED], NEXT);
    Works(DROPPED, b, DONE, c);
    WorksOver();
  }

  lemma GivesUp()
    requires Reaches(SetTask(TAKEN, "w", Working([CLAIMED], Reviewing)))
    ensures Reaches(DONE)
  {
    assert Gone(TAKEN, "s") && "q" !in TAKEN.hist.issued && TAKEN.tasks == map[];
    var a, b := Working([CLAIMED], Reviewing), Working([CLAIMED], Completing);
    ThenDrops(TAKEN, a, b);
    hide Reaches, Enabled, Apply, SeePage, Appended, Enqueue, SetMark, Joined, RunWork, SetTask, EndTask;
    TaskAside(TAKEN, "w", a);
    ReviewWorld(CFG, SetTask(TAKEN, "w", a), "w", [CLAIMED], NEXT);
    Works(TAKEN, a, DROPPED, b);
    ClearsUp();
  }

  lemma ThenDrops(x: World, a: Task, b: Task)
    ensures SetTask(Drop(SetTask(x, "w", a), CLAIMED), "w", b) == SetTask(Drop(x, CLAIMED), "w", b)
    ensures SetTask(SetTask(x, "w", a).(queue := x.queue - {"r"}), "w", b)
        == SetTask(x.(queue := x.queue - {"r"}), "w", b)
  {
    assert x.tasks["w" := a]["w" := b] == x.tasks["w" := b];
  }

  lemma WorkOver(x: World)
    requires "w" in x.tasks && x.tasks["w"] == Working([], Reviewing)
    ensures RunWork(CFG, x, "w", NEXT) == EndTask(x, "w")
  {
    hide EndTask;
  }

  lemma Renews()
    requires Reaches(DONE)
    ensures Reaches(RENEWED)
  {
    assert DONE.subs == map["s" := SUB.(status := Expired)];
    hide Reaches, SeePage, Appended, Enqueue, SetMark, Joined;
    assert map["s" := SUB.(status := Expired)]["s" := SUB.(leaseUntil := 1000)] == map["s" := SUB.(leaseUntil := 1000)];
    Step(DONE, Renew("s", 1000), RENEWED);
  }

  /** An active subscription passed the event by, nothing is under way, and nobody owes it any more. */
  ghost predicate Forgotten(w: World, s: string, t: string, o: int) {
    && w.tasks == map[]
    && s in w.subs && w.subs[s].status == Active && w.clock < w.subs[s].leaseUntil
    && Start(w, s, t) < o <= Mark(w, s, t)
    && !AckedPast(w, s, t, o)
    && !Promised(w, s, t, o)
  }

  /**
   * Loss is possible: the lease lapses while a retry is queued, the worker drops the item because the
   * subscription is not active, and the subscriber renews.  Nothing will ever send the event again.
   */
  lemma RenewalAfterLapseLoses()
    ensures Initial(EMPTY)
    ensures exists es :: Possible(CFG, EMPTY, es) && Forgotten(Outcome(CFG, EMPTY, es), "s", "t", 0)
  {
    Begins();
    assert RENEWED.attempts == TRIED.attempts && RENEWED.queue == map[] && Mark(RENEWED, "s", "t") == 0;
    assert RENEWED.logs["t"].recs == [Record("id", 0)];
    assert Forgotten(RENEWED, "s", "t", 0);
    hide Forgotten, Possible, Outcome, SeePage, Appended, Enqueue, SetMark, Joined, SetTask;
    assert Reaches(RENEWED) by {
      hide Reaches;
      GetHanded();
      assert HANDED.clock == 0 by { StillZero(); }
      Waits(HANDED);
      Expires();
      Claims();
      GivesUp();
      Renews();
    }
  }

  lemma StillZero()
    ensures HANDED.clock == 0
  {
  }
}
