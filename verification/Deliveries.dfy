/** What the publisher's delivering and catching up do to the world. */
module Deliveries {
  import opened Contracts
  import opened Cursors
  import opened Stream
  import opened Dispatch
  import opened Steps
  import opened EventStore
  import opened Reads

  // Steps of one task in a row: only its last place shows.

  lemma ThenMark(x: World, task: string, a: Task, b: Task, s: string, t: string, o: nat)
    ensures SetTask(Raised(SetTask(x, task, a), s, t, o), task, b) == SetTask(Raised(x, s, t, o), task, b)
    ensures SetTask(SetMark(SetTask(x, task, a), s, t, o), task, b) == SetTask(SetMark(x, s, t, o), task, b)
  {
    MarkCommutes(x, task, a, s, t, o);
    SetTwice(Raised(x, s, t, o), task, a, b);
    SetTwice(SetMark(x, s, t, o), task, a, b);
    hide Raised, SetMark, SetTask;
  }

  lemma ThenAttempted(x: World, task: string, a: Task, b: Task, s: string, record: EventRecord, n: nat,
                      status: AttemptStatus)
    ensures SetTask(Attempted(SetTask(x, task, a), s, record, n, status), task, b)
         == SetTask(Attempted(x, s, record, n, status), task, b)
  {
    SetTwice(Attempted(x, s, record, n, status), task, a, b);
  }

  lemma ThenReceived(x: World, task: string, a: Task, b: Task, received: map<string, seq<string>>)
    ensures SetTask(SetTask(x, task, a).(received := received), task, b) == SetTask(x.(received := received), task, b)
  {
    SetTwice(x, task, a, b);
  }

  lemma SetTaskMark(x: World, task: string, a: Task, s: string, t: string)
    ensures Mark(SetTask(x, task, a), s, t) == Mark(x, s, t)
  {
  }

  lemma StandsIn(x: World, task: string, c: Context, s: string, t: string, o: nat, phase: Phase)
    requires Stands(x, task, c, s, t, o, phase)
    ensures About(c, s, t, o) && s in x.subs && Logged(x, t, o)
  {
    hide TaskAt;
  }

  lemma StandsTask(x: World, task: string, c: Context, s: string, t: string, o: nat, phase: Phase)
    requires Stands(x, task, c, s, t, o, phase)
    ensures task in x.tasks && x.tasks[task] == TaskAt(c, o, phase)
  {
    hide TaskAt;
  }

  /** The acked cursor moved, and the delivery goes on to read the mark. */
  lemma AdvancedPlace(x: World, task: string, c: Context, s: string, t: string, o: nat, cursor: string)
    requires About(c, s, t, o) && s in x.subs && Logged(x, t, o)
    ensures Stands(SetTask(AdvanceCursor(x, s, t, cursor), task, TaskAt(c, o, ReadMark)), task, c, s, t, o, ReadMark)
  {
    hide Less, About, TaskAt;
  }

  lemma ClosedIs(x: World, s: string, t: string, o: nat)
    requires s in x.subs
    ensures Closed(x, s, t, o, true) == Raised(AdvanceCursor(x, s, t, Encode(t, o)), s, t, o)
  {
    hide AdvanceCursor, Raised, Encode;
  }

  /** Whatever the stores now hold, the delivery stands at `phase`. */
  lemma StandsAt(x: World, task: string, c: Context, s: string, t: string, o: nat, phase: Phase)
    requires About(c, s, t, o) && s in x.subs && Logged(x, t, o)
    ensures Stands(SetTask(x, task, TaskAt(c, o, phase)), task, c, s, t, o, phase)
  {
  }

  ghost function Attempted(w: World, s: string, record: EventRecord, n: nat, status: AttemptStatus): World {
    w.(attempts := w.attempts + [DeliveryAttempt(s, record.eventId, record.topic, record.offset, n, status)])
  }

  lemma LoggedIn(w: World, x: World, t: string, o: nat)
    requires Logged(w, t, o) && x.logs == w.logs
    ensures Logged(x, t, o) && t in x.logs && o < |x.logs[t].recs|
  {
  }

  /** After the last attempt: the cursor and the mark for a delivered event, the mark for a dead letter. */
  ghost function Closed(w: World, s: string, t: string, o: nat, delivered: bool): World
    requires s in w.subs
  {
    if delivered then Raised(AdvanceCursor(w, s, t, Encode(t, o)), s, t, o) else SetMark(w, s, t, o)
  }

  /** The acked cursor of one topic moved if `cursor` is greater as a string, and its mark was raised to `o`. */
  ghost predicate MovedTo(u: World, w: World, s: string, t: string, o: nat, cursor: string) {
    && s in u.subs && w.logs == u.logs && w.clock == u.clock
    && w.subs == (if t in u.subs[s].cursors && !Less(u.subs[s].cursors[t], cursor) then u.subs
                  else u.subs[s := u.subs[s].(cursors := u.subs[s].cursors[t := cursor])])
    && Mark(w, s, t) == (if o > Mark(u, s, t) then o else Mark(u, s, t))
    && forall x, y :: (x, y) != (s, t) ==> Mark(w, x, y) == Mark(u, x, y)
  }

  /** The mark of one topic was set to `o`, and nothing else of the subscriptions changed. */
  ghost predicate PassedBy(u: World, w: World, s: string, t: string, o: nat) {
    && w.subs == u.subs && w.logs == u.logs && w.clock == u.clock
    && Mark(w, s, t) == o && forall x, y :: (x, y) != (s, t) ==> Mark(w, x, y) == Mark(u, x, y)
  }

  lemma AdvanceMoves(u: World, s: string, t: string, o: nat, cursor: string)
    requires s in u.subs
    ensures MovedTo(u, Raised(AdvanceCursor(u, s, t, cursor), s, t, o), s, t, o, cursor)
    ensures MovedTo(u, AckRaised(AdvanceCursor(u, s, t, cursor), s, t, o), s, t, o, cursor)
    ensures PassedBy(u, SetMark(u, s, t, o), s, t, o)
  {
    hide Less, SetMark, AckMark, AdvanceCursor, Mark;
    CursorMoves(u, s, t, cursor);
    SetMarkMeans(AdvanceCursor(u, s, t, cursor), s, t, o);
    SetMarkMeans(u, s, t, o);
  }

  lemma CursorMoves(u: World, s: string, t: string, cursor: string)
    requires s in u.subs
    ensures var x := AdvanceCursor(u, s, t, cursor);
      && x.logs == u.logs && x.clock == u.clock && (forall a, b :: Mark(x, a, b) == Mark(u, a, b))
      && x.subs == (if t in u.subs[s].cursors && !Less(u.subs[s].cursors[t], cursor) then u.subs
                    else u.subs[s := u.subs[s].(cursors := u.subs[s].cursors[t := cursor])])
  {
    hide Less;
  }

  lemma SetMarkMeans(x: World, s: string, t: string, o: nat)
    ensures var w := SetMark(x, s, t, o);
      && w.subs == x.subs && w.logs == x.logs && w.clock == x.clock
      && Mark(w, s, t) == o && (forall a, b :: (a, b) != (s, t) ==> Mark(w, a, b) == Mark(x, a, b))
      && var v := AckMark(x, s, t, o);
         v.subs == x.subs && v.logs == x.logs && v.clock == x.clock && forall a, b :: Mark(v, a, b) == Mark(w, a, b)
  {
  }

  /** Where the task stands, what was recorded and what the endpoints hold does not matter here. */
  lemma MovesAside(u: World, v: World, x: World, w: World, s: string, t: string, o: nat, cursor: string)
    requires v.subs == u.subs && v.marks == u.marks && v.logs == u.logs && v.clock == u.clock
    requires w.subs == x.subs && w.marks == x.marks && w.logs == x.logs && w.clock == x.clock
    ensures MovedTo(v, x, s, t, o, cursor) ==> MovedTo(u, w, s, t, o, cursor)
    ensures PassedBy(v, x, s, t, o) ==> PassedBy(u, w, s, t, o)
  {
    hide Less;
  }

  /** What the end of a chain does to the subscriptions. */
  lemma ClosedMoves(u: World, v: World, task: string, a: Task, s: string, t: string, o: nat, delivered: bool)
    requires s in u.subs && v.subs == u.subs && v.marks == u.marks && v.logs == u.logs && v.clock == u.clock
    ensures var w := SetTask(Closed(v, s, t, o, delivered), task, a);
      if delivered then MovedTo(u, w, s, t, o, Encode(t, o)) else PassedBy(u, w, s, t, o)
  {
    hide Less, Encode, Raised, AdvanceCursor, SetMark, MovedTo, PassedBy, SetTask;
    AdvanceMoves(v, s, t, o, Encode(t, o));
    var x := Closed(v, s, t, o, delivered);
    TaskAside(x, task, a);
    MovesAside(u, v, x, SetTask(x, task, a), s, t, o, Encode(t, o));
  }

  lemma ThenClosed(x: World, task: string, a: Task, b: Task, s: string, t: string, o: nat, delivered: bool)
    requires s in x.subs
    ensures SetTask(Closed(SetTask(x, task, a), s, t, o, delivered), task, b)
        == SetTask(Closed(x, s, t, o, delivered), task, b)
  {
    AdvanceCommutes(x, task, a, s, t, Encode(t, o));
    ThenMark(AdvanceCursor(x, s, t, Encode(t, o)), task, a, b, s, t, o);
    ThenMark(x, task, a, b, s, t, o);
    hide Raised, SetMark, SetTask, AdvanceCursor;
  }

  /** The records of `k` attempts, all but the last to be retried. */
  ghost function Chain(s: string, record: EventRecord, k: nat, delivered: bool): seq<DeliveryAttempt> {
    seq(k, i requires 0 <= i < k =>
      DeliveryAttempt(s, record.eventId, record.topic, record.offset, i + 1,
                      if i + 1 < k then Retry else if delivered then Delivered else DeadLetter))
  }

  ghost function Retries(s: string, record: EventRecord, k: nat): seq<DeliveryAttempt> {
    seq(k, i requires 0 <= i < k =>
      DeliveryAttempt(s, record.eventId, record.topic, record.offset, i + 1, Retry))
  }

  lemma ChainEnds(s: string, record: EventRecord, k: nat, delivered: bool)
    ensures Retries(s, record, 0) == []
    ensures Chain(s, record, k + 1, delivered) ==
            Retries(s, record, k) + [DeliveryAttempt(s, record.eventId, record.topic, record.offset, k + 1,
                                                     if delivered then Delivered else DeadLetter)]
    ensures Retries(s, record, k + 1) ==
            Retries(s, record, k) + [DeliveryAttempt(s, record.eventId, record.topic, record.offset, k + 1, Retry)]
  {
  }

  /** After `k` attempts that are to be retried; `received` is what the endpoints hold by then. */
  ghost function Tried(w: World, s: string, record: EventRecord, k: nat, received: map<string, seq<string>>): World {
    w.(attempts := w.attempts + Retries(s, record, k), received := received)
  }

  /** After a whole chain of `k` attempts. */
  ghost function Ended(w: World, s: string, record: EventRecord, k: nat, delivered: bool,
                       received: map<string, seq<string>>): World
    requires s in w.subs
  {
    Closed(w.(attempts := w.attempts + Chain(s, record, k, delivered), received := received),
           s, record.topic, record.offset, delivered)
  }

  /** What a whole chain does to the subscriptions. */
  lemma EndedMoves(u: World, task: string, a: Task, s: string, record: EventRecord, k: nat, delivered: bool,
                   received: map<string, seq<string>>)
    requires s in u.subs
    ensures var w := SetTask(Ended(u, s, record, k, delivered, received), task, a);
      var t, o := record.topic, record.offset;
      if delivered then MovedTo(u, w, s, t, o, Encode(t, o)) else PassedBy(u, w, s, t, o)
  {
    hide Closed, SetTask, MovedTo, PassedBy;
    ClosedMoves(u, u.(attempts := u.attempts + Chain(s, record, k, delivered), received := received), task, a, s,
                record.topic, record.offset, delivered);
  }

  lemma TriedOnce(w: World, s: string, record: EventRecord, k: nat, received: map<string, seq<string>>)
    ensures Tried(w, s, record, 0, w.received) == w
    ensures Attempted(Tried(w, s, record, k, received), s, record, k + 1, Retry) == Tried(w, s, record, k + 1, received)
    ensures s in w.subs ==>
              && Closed(Attempted(Tried(w, s, record, k, received), s, record, k + 1, Delivered),
                        s, record.topic, record.offset, true) == Ended(w, s, record, k + 1, true, received)
              && Closed(Attempted(Tried(w, s, record, k, received), s, record, k + 1, DeadLetter),
                        s, record.topic, record.offset, false) == Ended(w, s, record, k + 1, false, received)
  {
    ChainEnds(s, record, k, true);
    ChainEnds(s, record, k, false);
    hide Closed;
    assert w.attempts + [] == w.attempts;
    var r := Retries(s, record, k);
    forall a: DeliveryAttempt ensures w.attempts + r + [a] == w.attempts + (r + [a]) {}
    hide Retries, Chain;
  }

  lemma ThenConcluded(x: World, task: string, a: Task, b: Task, s: string, record: EventRecord, n: nat, delivered: bool)
    requires s in x.subs
    ensures var status := if delivered then Delivered else DeadLetter;
      SetTask(Closed(Attempted(SetTask(x, task, a), s, record, n, status), s, record.topic, record.offset, delivered),
              task, b)
      == SetTask(Closed(Attempted(x, s, record, n, status), s, record.topic, record.offset, delivered), task, b)
  {
    var status := if delivered then Delivered else DeadLetter;
    assert Attempted(SetTask(x, task, a), s, record, n, status) == SetTask(Attempted(x, s, record, n, status), task, a);
    ThenClosed(Attempted(x, s, record, n, status), task, a, b, s, record.topic, record.offset, delivered);
    hide Closed, SetTask;
  }

  lemma SetSame(w: World, task: string)
    requires task in w.tasks
    ensures SetTask(w, task, w.tasks[task]) == w
  {
    assert w.tasks[task := w.tasks[task]] == w.tasks;
  }

  lemma EnqueueStores(x: World, item: RetryItem)
    ensures var v := Enqueue(x, item);
      && v.clock == x.clock && v.logs == x.logs && v.subs == x.subs && v.marks == x.marks && v.attempts == x.attempts
      && v.queue == x.queue[item.retryId := item] && v.received == x.received && v.locks == x.locks
      && forall r :: r in v.hist.issued <==> r in x.hist.issued || r == item.retryId
  {
  }

  lemma ThenEnqueued(x: World, task: string, a: Task, b: Task, item: RetryItem)
    ensures SetTask(Enqueue(SetTask(x, task, a), item), task, b) == SetTask(Enqueue(x, item), task, b)
  {
    SetTwice(Enqueue(x, item), task, a, b);
  }

  /** Only this delivery, or catch-up, moved on: nothing of another topic, subscription or task changed. */
  ghost predicate Kept(u: World, v: World, task: string, s: string, t: string) {
    && v.clock == u.clock && v.logs == u.logs && v.locks == u.locks && v.hist.starts == u.hist.starts
    && v.subs.Keys == u.subs.Keys && (forall x :: x in u.subs ==> v.subs[x] == u.subs[x].(cursors := v.subs[x].cursors))
    && (forall x, y :: (x, y) != (s, t) ==> Mark(v, x, y) == Mark(u, x, y))
    && v.tasks.Keys == u.tasks.Keys && (forall x :: x in u.tasks && x != task ==> v.tasks[x] == u.tasks[x])
  }

  lemma KeptOn(u: World, v: World, w: World, task: string, s: string, t: string)
    requires Kept(u, v, task, s, t) && Kept(v, w, task, s, t)
    ensures Kept(u, w, task, s, t)
  {
    hide Mark;
  }

  lemma KeptTask(u: World, v: World, task: string, s: string, t: string)
    requires Kept(u, v, task, s, t) && task in u.tasks
    ensures task in v.tasks
  {
    hide Mark;
  }

  lemma SetTaskKeeps(u: World, task: string, a: Task, s: string, t: string)
    requires task in u.tasks
    ensures task in SetTask(u, task, a).tasks && SetTask(u, task, a).tasks[task] == a
    ensures Kept(u, SetTask(u, task, a), task, s, t) && Mark(SetTask(u, task, a), s, t) == Mark(u, s, t)
  {
  }

  lemma AdvanceKeeps(u: World, task: string, s: string, t: string, cursor: string)
    requires s in u.subs
    ensures Kept(u, AdvanceCursor(u, s, t, cursor), task, s, t)
    ensures Mark(AdvanceCursor(u, s, t, cursor), s, t) == Mark(u, s, t)
  {
    hide Less;
  }

  lemma MarkKeeps(u: World, task: string, s: string, t: string, o: nat)
    ensures Kept(u, SetMark(u, s, t, o), task, s, t) && Mark(SetMark(u, s, t, o), s, t) == o
    ensures Kept(u, Raised(u, s, t, o), task, s, t) && Mark(Raised(u, s, t, o), s, t) == Max(Mark(u, s, t), o)
  {
  }

  /** Nothing but attempts, the queue and what the endpoints hold differs. */
  ghost predicate Aside(u: World, v: World) {
    && v.clock == u.clock && v.logs == u.logs && v.locks == u.locks && v.subs == u.subs && v.marks == u.marks
    && v.tasks == u.tasks && v.hist.starts == u.hist.starts
  }

  lemma AsideKeeps(u: World, v: World, task: string, s: string, t: string)
    requires Aside(u, v)
    ensures Kept(u, v, task, s, t) && Mark(v, s, t) == Mark(u, s, t)
  {
  }

  lemma ClosedKeeps(u: World, v: World, task: string, a: Task, s: string, t: string, o: nat, delivered: bool)
    requires s in u.subs && task in u.tasks && Mark(u, s, t) <= o && Aside(u, v)
    ensures var x := SetTask(Closed(v, s, t, o, delivered), task, a);
      Kept(u, x, task, s, t) && Mark(x, s, t) == o && task in x.tasks && x.tasks[task] == a
  {
    var y := AdvanceCursor(v, s, t, Encode(t, o));
    var z := Closed(v, s, t, o, delivered);
    AsideKeeps(u, v, task, s, t);
    AdvanceKeeps(v, task, s, t, Encode(t, o));
    MarkKeeps(y, task, s, t, o);
    MarkKeeps(v, task, s, t, o);
    hide AdvanceCursor, SetMark, Raised, Mark;
    if delivered { KeptOn(v, y, z, task, s, t); }
    hide Kept, Closed;
    KeptOn(u, v, z, task, s, t);
    assert task in z.tasks by { KeptTask(u, z, task, s, t); }
    SetTaskKeeps(z, task, a, s, t);
    hide SetTask;
    KeptOn(u, z, SetTask(z, task, a), task, s, t);
  }

  /** After a first attempt that failed and was handed to the retry queue. */
  ghost function HandedOver(w: World, s: string, record: EventRecord, received: map<string, seq<string>>,
                            item: RetryItem)
    : World
  {
    SetMark(Enqueue(Attempted(w.(received := received), s, record, 1, Retry), item), s, record.topic, record.offset)
  }

  /** Handing an event over to the retry queue passes it by. */
  lemma HandedMoves(u: World, task: string, a: Task, s: string, record: EventRecord,
                    received: map<string, seq<string>>, item: RetryItem)
    requires s in u.subs
    ensures PassedBy(u, SetTask(HandedOver(u, s, record, received, item), task, a), s, record.topic, record.offset)
  {
    var v := Enqueue(Attempted(u.(received := received), s, record, 1, Retry), item);
    ClosedMoves(u, v, task, a, s, record.topic, record.offset, false);
    hide SetMark, SetTask, PassedBy;
  }

  lemma ThenHanded(x: World, task: string, a: Task, b: Task, s: string, record: EventRecord, item: RetryItem)
    ensures SetTask(SetMark(Enqueue(Attempted(SetTask(x, task, a), s, record, 1, Retry), item), s, record.topic,
                            record.offset), task, b)
         == SetTask(SetMark(Enqueue(Attempted(x, s, record, 1, Retry), item), s, record.topic, record.offset), task, b)
  {
    var y := Enqueue(Attempted(x, s, record, 1, Retry), item);
    assert Enqueue(Attempted(SetTask(x, task, a), s, record, 1, Retry), item) == SetTask(y, task, a);
    ThenMark(y, task, a, b, s, record.topic, record.offset);
    hide SetMark, SetTask, Enqueue, Attempted;
  }

  // --- Catching up ------------------------------------------------------------------------------------

  /** How many live events of a log lie past a position. */
  ghost function Backlog(st: Stream, now: int, mark: int): nat {
    Max(0, |st.recs| - Max(mark + 1, st.FirstLive(now)))
  }

  /** Only the task and what the loops were handed differ. */
  ghost predicate Silent(u: World, v: World) {
    v == u.(tasks := v.tasks, hist := u.hist.(scanned := v.hist.scanned))
  }

  lemma OpenedSilent(u: World, task: string, s: string, topics: seq<string>, lo: nat, hi: nat, position: int)
    requires topics != []
    ensures Silent(u, Opened(u, task, s, topics, lo, hi, position))
    ensures var x := Opened(u, task, s, topics, lo, hi, position);
      && task in x.tasks && x.tasks == u.tasks[task := x.tasks[task]]
      && x.tasks[task] == if lo < hi then Dispatching(s, topics, On(Scanning(lo, hi, position)))
                          else Dispatching(s, topics[1..], Position)
  {
  }

  lemma OpenedKeeps(u: World, task: string, s: string, topics: seq<string>, lo: nat, hi: nat, position: int)
    requires topics != [] && task in u.tasks
    ensures var x := Opened(u, task, s, topics, lo, hi, position);
      && Kept(u, x, task, s, topics[0]) && Mark(x, s, topics[0]) == Mark(u, s, topics[0])
      && x.logs == u.logs && x.subs == u.subs && task in x.tasks
      && x.tasks[task] == if lo < hi then Dispatching(s, topics, On(Scanning(lo, hi, position)))
                          else Dispatching(s, topics[1..], Position)
  {
    OpenedSilent(u, task, s, topics, lo, hi, position);
    hide Opened;
  }

  lemma KeptLogs(u: World, v: World, task: string, s: string, t: string)
    requires Kept(u, v, task, s, t)
    ensures v.logs == u.logs && v.clock == u.clock && v.locks == u.locks
  {
  }

  lemma KeptSub(u: World, v: World, task: string, s: string, t: string)
    requires Kept(u, v, task, s, t) && s in u.subs
    ensures s in v.subs
  {
    hide Mark;
  }

  lemma LoopTopic(w: World, task: string, s: string, topics: seq<string>, page: PageStage)
    requires InLoop(w, task, s, topics, page)
    ensures topics != [] && topics[0] in w.logs
  {
  }

  lemma LoopStays(u: World, v: World, task: string, s: string, t: string, topics: seq<string>, page: PageStage)
    requires Kept(u, v, task, s, t) && topics != [] && topics[0] in u.logs && s in u.subs
    requires task in v.tasks && v.tasks[task] == Dispatching(s, topics, On(page))
    ensures InLoop(v, task, s, topics, page)
  {
    hide Mark;
  }

  lemma HandedKeeps(u: World, task: string, a: Task, s: string, record: EventRecord, received: map<string, seq<string>>,
                    item: RetryItem)
    requires task in u.tasks
    ensures var x := SetTask(HandedOver(u, s, record, received, item), task, a);
      && Kept(u, x, task, s, record.topic) && Mark(x, s, record.topic) == record.offset
      && task in x.tasks && x.tasks[task] == a
  {
    var v := Enqueue(Attempted(u.(received := received), s, record, 1, Retry), item);
    var z := SetMark(v, s, record.topic, record.offset);
    AsideKeeps(u, v, task, s, record.topic);
    MarkKeeps(v, task, s, record.topic, record.offset);
    hide SetMark, Mark, Enqueue, Attempted;
    KeptOn(u, v, z, task, s, record.topic);
    assert task in z.tasks by { KeptTask(u, z, task, s, record.topic); }
    SetTaskKeeps(z, task, a, s, record.topic);
    hide Kept, SetTask;
    KeptOn(u, z, SetTask(z, task, a), task, s, record.topic);
  }

  lemma EndedKeeps(u: World, task: string, a: Task, s: string, record: EventRecord, k: nat, delivered: bool,
                   received: map<string, seq<string>>)
    requires s in u.subs && task in u.tasks && Mark(u, s, record.topic) <= record.offset
    ensures var x := SetTask(Ended(u, s, record, k, delivered, received), task, a);
      && Kept(u, x, task, s, record.topic) && Mark(x, s, record.topic) == record.offset
      && task in x.tasks && x.tasks[task] == a
  {
    var v := u.(attempts := u.attempts + Chain(s, record, k, delivered), received := received);
    ClosedKeeps(u, v, task, a, s, record.topic, record.offset, delivered);
    hide Kept, SetTask, Closed;
  }

  /** The end of a page raises the mark to the scan position, and changes nothing else. */
  lemma SettleKeeps(u: World, task: string, s: string, topics: seq<string>, t: string, scan: nat)
    requires task in u.tasks && Mark(u, s, t) <= scan
    ensures var w1 := SetTask(u, task, Dispatching(s, topics, On(Settling(scan))));
      var w2 := SetTask(Raised(w1, s, t, scan), task, Dispatching(s, topics, Position));
      && Kept(u, w2, task, s, t) && Mark(w2, s, t) == scan
      && task in w2.tasks && w2.tasks[task] == Dispatching(s, topics, Position)
  {
    var x := Raised(u, s, t, scan);
    ThenMark(u, task, Dispatching(s, topics, On(Settling(scan))), Dispatching(s, topics, Position), s, t, scan);
    MarkKeeps(u, task, s, t, scan);
    KeptTask(u, x, task, s, t);
    SetTaskKeeps(x, task, Dispatching(s, topics, Position), s, t);
    hide Kept, Raised, SetTask;
    KeptOn(u, x, SetTask(x, task, Dispatching(s, topics, Position)), task, s, t);
  }

  /** A page takes its events off the backlog; an empty page means there is none. */
  lemma PageTakes(st: Stream, now: int, position: int, limit: int)
    ensures var b := Bounds(st, now, position, limit);
      if b.0 < b.1 then position < b.0 && Backlog(st, now, position) == b.1 - b.0 + Backlog(st, now, b.1 - 1)
      else Backlog(st, now, position) == 0
  {
  }

  lemma PageShape(topic: string, st: Stream, lo: nat, hi: nat)
    requires lo <= hi <= |st.recs|
    requires forall i :: 0 <= i < |st.recs| ==> st.recs[i].topic == topic && st.recs[i].offset == i
    ensures forall i :: 0 <= i < hi - lo ==> st.recs[lo..hi][i].offset == lo + i && st.recs[lo..hi][i].topic == topic
  {
  }

  lemma ThenOpened(u: World, task: string, a: Task, s: string, topics: seq<string>, lo: nat, hi: nat, position: int)
    requires topics != []
    ensures Opened(SetTask(u, task, a), task, s, topics, lo, hi, position)
        == Opened(u, task, s, topics, lo, hi, position)
  {
    SetTwice(u, task, a, Dispatching(s, topics[1..], Position));
    if lo < hi {
      SetTwice(SeePage(u, s, topics[0], lo, hi), task, a, Dispatching(s, topics, On(Scanning(lo, hi, position))));
    }
  }

  // --- Dispatching a subscription ---------------------------------------------------------------------

  /** The live events past a subscription's positions on `topics`. */
  ghost function Owed(w: World, s: string, topics: seq<string>): nat
    requires forall t :: t in topics ==> t in w.logs
  {
    if topics == [] then 0
    else Backlog(w.logs[topics[0]], w.clock, Mark(w, s, topics[0])) + Owed(w, s, topics[1..])
  }

  /** Only the dispatch of `s` moved on. */
  ghost predicate KeptFor(u: World, v: World, task: string, s: string) {
    && v.clock == u.clock && v.logs == u.logs && v.locks == u.locks && v.hist.starts == u.hist.starts
    && v.subs.Keys == u.subs.Keys && (forall x :: x in u.subs ==> v.subs[x] == u.subs[x].(cursors := v.subs[x].cursors))
    && (forall x, y :: x != s ==> Mark(v, x, y) == Mark(u, x, y))
    && v.tasks.Keys == u.tasks.Keys && (forall x :: x in u.tasks && x != task ==> v.tasks[x] == u.tasks[x])
  }

  lemma KeptForOn(u: World, v: World, w: World, task: string, s: string, t: string)
    requires KeptFor(u, v, task, s) && Kept(v, w, task, s, t)
    ensures KeptFor(u, w, task, s) && forall y :: y != t ==> Mark(w, s, y) == Mark(v, s, y)
  {
    hide Mark;
  }

  lemma KeptForSame(u: World, task: string, s: string)
    ensures KeptFor(u, u, task, s)
  {
    assert forall x :: x in u.subs ==> u.subs[x] == u.subs[x].(cursors := u.subs[x].cursors);
  }

  lemma KeptForKeys(u: World, v: World, task: string, s: string)
    requires KeptFor(u, v, task, s)
    ensures v.logs == u.logs && v.subs.Keys == u.subs.Keys && v.clock == u.clock
    ensures v.tasks.Keys == u.tasks.Keys && v.locks == u.locks
  {
    hide Mark;
  }

  lemma {:induction false} OwedEnd(w: World, s: string, topics: seq<string>, t: string)
    requires t in w.logs && forall x :: x in topics ==> x in w.logs
    ensures Owed(w, s, topics + [t]) == Owed(w, s, topics) + Backlog(w.logs[t], w.clock, Mark(w, s, t))
  {
    hide Backlog, Mark;
    if topics != [] {
      assert (topics + [t])[1..] == topics[1..] + [t];
      OwedEnd(w, s, topics[1..], t);
    } else {
      assert topics + [t] == [t] && [t][1..] == [];
    }
  }

  lemma OwedSame(u: World, v: World, s: string, topics: seq<string>)
    requires v.logs == u.logs && v.clock == u.clock && forall t :: t in topics ==> t in u.logs
    requires forall t :: t in topics ==> Mark(v, s, t) == Mark(u, s, t)
    ensures Owed(v, s, topics) == Owed(u, s, topics)
  {
    hide Backlog, Mark;
  }

  /** Between two calls: only `s` was dispatched, and nothing else is under way. */
  ghost predicate Dispatched(u: World, v: World, s: string) {
    && v.clock == u.clock && v.logs == u.logs && v.locks == u.locks && v.tasks == u.tasks
    && v.subs.Keys == u.subs.Keys && v.hist.starts == u.hist.starts
    && (forall x :: x in u.subs ==> v.subs[x] == u.subs[x].(cursors := v.subs[x].cursors, status := v.subs[x].status))
    && (forall x :: x in u.subs ==> (Serving(v, x) <==> Serving(u, x)))
    && (forall x, y :: x != s ==> Mark(v, x, y) == Mark(u, x, y))
  }

  lemma SameMarks(u: World, v: World)
    requires v.marks == u.marks
    ensures forall s, t :: Mark(v, s, t) == Mark(u, s, t)
  {
  }

  lemma ExpiredSubs(u: World, s: string)
    requires s in u.subs
    ensures var v := ExpireIfDue(u, s);
      && v == u.(subs := v.subs) && v.subs.Keys == u.subs.Keys
      && (forall x :: x in u.subs && x != s ==> v.subs[x] == u.subs[x])
      && v.subs[s] == u.subs[s].(status := v.subs[s].status)
      && (Serving(v, s) <==> Serving(u, s)) && (v.subs[s].status == Active <==> Serving(u, s))
  {
  }

  /** After the check of a dispatch: expired if due, and waiting for the lock or over. */
  ghost function CheckedWorld(w: World, s: string, topics: seq<string>, task: string, allowed: bool): World
    requires s in w.subs
  {
    var x := ExpireIfDue(w, s);
    if Serving(w, s) && allowed then SetTask(x, task, Dispatching(s, topics, Waiting))
    else EndTask(x.(hist := x.hist.(lapsed := x.hist.lapsed + {s})), task)
  }

  lemma CheckedAside(w: World, s: string, topics: seq<string>, task: string, allowed: bool)
    requires s in w.subs
    ensures var v := CheckedWorld(w, s, topics, task, allowed);
      && v.clock == w.clock && v.logs == w.logs && v.subs == ExpireIfDue(w, s).subs && v.marks == w.marks
      && v.attempts == w.attempts && v.queue == w.queue && v.received == w.received && v.locks == w.locks
      && v.hist.issued == w.hist.issued
  {
    hide ExpireIfDue, Serving;
    ExpiredSubs(w, s);
  }

  lemma CheckWorld(cfg: Config, w: World, task: string, s: string, topics: seq<string>, inp: Input)
    requires task in w.tasks && w.tasks[task] == Dispatching(s, topics, Checking) && s in w.subs
    requires (inp.ack ==> inp.taken) && inp.retryId !in w.hist.issued
    ensures Enabled(cfg, w, Run(task, inp))
        && Apply(cfg, w, Run(task, inp)) == CheckedWorld(w, s, topics, task, inp.allowed)
  {
    hide Apply, Enabled, SetTask, EndTask, ExpireIfDue;
    CheckStep(cfg, w, task, s, topics, inp);
  }

  lemma ExpiredDispatched(u: World, s: string, lapsed: set<string>)
    requires s in u.subs
    ensures var v := ExpireIfDue(u, s).(hist := u.hist.(lapsed := lapsed));
      Dispatched(u, v, s) && forall y :: Mark(v, s, y) == Mark(u, s, y)
  {
    ExpiredSubs(u, s);
    SameMarks(u, ExpireIfDue(u, s).(hist := u.hist.(lapsed := lapsed)));
    hide ExpireIfDue, Mark;
  }

  lemma SameAfterExpiry(u: World, s: string)
    requires s in u.subs
    ensures ExpireIfDue(u, s).logs == u.logs && ExpireIfDue(u, s).hist == u.hist
  {
  }

  lemma LockedWorld(u: World, task: string, s: string, topics: seq<string>)
    requires s in u.subs && Serving(u, s) && s !in u.locks && forall t :: t in topics ==> t in u.logs
    ensures ExpireIfDue(u, s) == u
    ensures var a := SetTask(u, task, Dispatching(s, topics, Waiting));
      && task in a.tasks && a.tasks[task] == Dispatching(s, topics, Waiting) && s in a.subs && s !in a.locks
      && SetTask(a.(locks := a.locks[s := task]), task, Dispatching(s, topics, Position))
         == SetTask(u.(locks := u.locks[s := task]), task, Dispatching(s, topics, Position))
    ensures var x := SetTask(u.(locks := u.locks[s := task]), task, Dispatching(s, topics, Position));
      && s in x.subs && x.logs == u.logs && x.clock == u.clock
      && task in x.tasks && x.tasks[task] == Dispatching(s, topics, Position)
      && Owed(x, s, topics) == Owed(u, s, topics)
  {
    SetTwice(u.(locks := u.locks[s := task]), task, Dispatching(s, topics, Waiting), Dispatching(s, topics, Position));
    OwedSame(u, SetTask(u.(locks := u.locks[s := task]), task, Dispatching(s, topics, Position)), s, topics);
    hide Owed;
  }

  lemma PlaceMarks(w: World, task: string, a: Task)
    ensures forall x, y :: Mark(SetTask(w, task, a), x, y) == Mark(w, x, y)
  {
  }

  lemma LockMarks(w: World, locks: map<string, string>)
    ensures forall x, y :: Mark(w.(locks := locks), x, y) == Mark(w, x, y)
  {
  }

  lemma ReleaseKeeps(w: World, task: string, s: string)
    ensures var v := Release(w, task, s);
      && v.clock == w.clock && v.logs == w.logs && v.subs == w.subs
      && v.tasks == w.tasks - {task} && v.locks == w.locks - {s} && v.hist == w.hist
      && forall x, y :: Mark(v, x, y) == Mark(w, x, y)
  {
  }

  lemma PlaceTasks(w: World, task: string, a: Task)
    ensures SetTask(w, task, a).tasks == w.tasks[task := a] && SetTask(w, task, a).hist == w.hist
  {
  }

  lemma ServesOn(u: World, v: World)
    requires v.clock == u.clock && v.subs.Keys == u.subs.Keys
    requires forall x :: x in u.subs ==> v.subs[x] == u.subs[x].(cursors := v.subs[x].cursors)
    ensures forall x :: x in u.subs ==> (Serving(v, x) <==> Serving(u, x))
  {
  }

  /** From the start of a dispatch to its end. */
  lemma WholeDispatch(u: World, v: World, task: string, s: string, topics: seq<string>)
    requires s in u.subs && task !in u.tasks && s !in u.locks && Serving(u, s)
    requires var x := SetTask(u.(locks := u.locks[s := task]), task, Dispatching(s, topics, Position));
      KeptFor(x, v, task, s)
    ensures Dispatched(u, Release(v, task, s), s)
    ensures forall y :: Mark(Release(v, task, s), s, y) == Mark(v, s, y)
  {
    hide Mark, Release, SetTask, Serving, KeptFor, Dispatched;
    var y := u.(locks := u.locks[s := task]);
    var a := Dispatching(s, topics, Position);
    PlaceMarks(y, task, a);
    LockMarks(u, u.locks[s := task]);
    ReleaseKeeps(v, task, s);
    TaskAside(y, task, a);
    PlaceTasks(y, task, a);
    DispatchOver(u, SetTask(y, task, a), v, Release(v, task, s), task, s);
  }

  lemma DispatchOver(u: World, x: World, v: World, w: World, task: string, s: string)
    requires s in u.subs && task !in u.tasks && s !in u.locks && KeptFor(x, v, task, s)
    requires x.clock == u.clock && x.logs == u.logs && x.subs == u.subs && x.hist.starts == u.hist.starts
    requires x.locks == u.locks[s := task] && x.tasks.Keys == u.tasks.Keys + {task}
    requires forall y :: y in u.tasks ==> x.tasks[y] == u.tasks[y]
    requires forall a, b :: Mark(x, a, b) == Mark(u, a, b)
    requires w.clock == v.clock && w.logs == v.logs && w.subs == v.subs && w.hist.starts == v.hist.starts
    requires w.tasks == v.tasks - {task} && w.locks == v.locks - {s}
    requires forall a, b :: Mark(w, a, b) == Mark(v, a, b)
    ensures Dispatched(u, w, s)
  {
    hide Mark, Serving, KeptFor, Dispatched;
    OverSubs(u, x, v, w, task, s);
    OverMarks(u, x, v, w, task, s);
    OverTasks(u, x, v, task, s);
    OverLocks(x, v, task, s);
    assert u.locks[s := task] - {s} == u.locks;
    OverIs(u, w, s);
  }

  lemma OverIs(u: World, w: World, s: string)
    requires w.clock == u.clock && w.logs == u.logs && w.locks == u.locks && w.tasks == u.tasks
    requires w.subs.Keys == u.subs.Keys && w.hist.starts == u.hist.starts
    requires forall y :: y in u.subs ==>
               w.subs[y] == u.subs[y].(cursors := w.subs[y].cursors, status := w.subs[y].status)
    requires forall y :: y in u.subs ==> (Serving(w, y) <==> Serving(u, y))
    requires forall a, b :: a != s ==> Mark(w, a, b) == Mark(u, a, b)
    ensures Dispatched(u, w, s)
  {
    hide Mark, Serving;
  }

  lemma OverSubs(u: World, x: World, v: World, w: World, task: string, s: string)
    requires KeptFor(x, v, task, s) && x.subs == u.subs && x.clock == u.clock && x.logs == u.logs
    requires w.subs == v.subs && w.clock == v.clock && w.logs == v.logs
    ensures w.clock == u.clock && w.logs == u.logs && w.subs.Keys == u.subs.Keys
    ensures forall y :: y in u.subs ==>
              w.subs[y] == u.subs[y].(cursors := w.subs[y].cursors, status := w.subs[y].status)
    ensures forall y :: y in u.subs ==> (Serving(w, y) <==> Serving(u, y))
  {
    hide Mark, Serving;
    ServesOn(u, w);
  }

  lemma OverLocks(x: World, v: World, task: string, s: string)
    requires KeptFor(x, v, task, s)
    ensures v.locks == x.locks && v.hist.starts == x.hist.starts
  {
    hide Mark;
  }

  lemma OverMarks(u: World, x: World, v: World, w: World, task: string, s: string)
    requires KeptFor(x, v, task, s)
    requires forall a, b :: Mark(x, a, b) == Mark(u, a, b)
    requires forall a, b :: Mark(w, a, b) == Mark(v, a, b)
    ensures forall a, b :: a != s ==> Mark(w, a, b) == Mark(u, a, b)
  {
    hide Mark;
  }

  lemma OverTasks(u: World, x: World, v: World, task: string, s: string)
    requires KeptFor(x, v, task, s) && task !in u.tasks
    requires x.tasks.Keys == u.tasks.Keys + {task} && forall y :: y in u.tasks ==> x.tasks[y] == u.tasks[y]
    ensures v.tasks - {task} == u.tasks
  {
    hide Mark;
  }

  /** What dispatching every subscription of `ids` has to process. */
  ghost function OwedAll(w: World, authorised: string -> bool, ids: seq<string>): nat
    requires Declared(w) && forall s :: s in ids ==> s in w.subs
  {
    if ids == [] then 0
    else (if Serving(w, ids[0]) && authorised(ids[0]) then Owed(w, ids[0], w.subs[ids[0]].topics) else 0)
         + OwedAll(w, authorised, ids[1..])
  }

  /** Subscriptions name declared topics, each once. */
  ghost predicate Declared(w: World) {
    forall s :: s in w.subs ==>
      && (forall t :: t in w.subs[s].topics ==> t in w.logs)
      && forall i, j :: 0 <= i < j < |w.subs[s].topics| ==> w.subs[s].topics[i] != w.subs[s].topics[j]
  }

  /** Nothing is owed to any subscription that may be served. */
  ghost predicate CaughtUp(w: World, authorised: string -> bool)
    requires Declared(w)
  {
    forall s, t :: s in w.subs && Serving(w, s) && authorised(s) && t in w.subs[s].topics ==>
      Backlog(w.logs[t], w.clock, Mark(w, s, t)) == 0
  }

  lemma {:induction false} NothingOwed(w: World, s: string, topics: seq<string>)
    requires forall t :: t in topics ==> t in w.logs && Backlog(w.logs[t], w.clock, Mark(w, s, t)) == 0
    ensures Owed(w, s, topics) == 0
  {
    hide Backlog, Mark;
    if topics != [] { NothingOwed(w, s, topics[1..]); }
  }

  lemma {:induction false} NothingOwedAll(w: World, authorised: string -> bool, ids: seq<string>)
    requires Declared(w) && CaughtUp(w, authorised) && forall s :: s in ids ==> s in w.subs
    ensures OwedAll(w, authorised, ids) == 0
  {
    hide Backlog, Mark;
    if ids != [] {
      if Serving(w, ids[0]) && authorised(ids[0]) { NothingOwed(w, ids[0], w.subs[ids[0]].topics); }
      NothingOwedAll(w, authorised, ids[1..]);
    }
  }

  lemma {:induction false} OwedAllEnd(w: World, authorised: string -> bool, ids: seq<string>, s: string)
    requires Declared(w) && s in w.subs && forall x :: x in ids ==> x in w.subs
    ensures OwedAll(w, authorised, ids + [s])
         == OwedAll(w, authorised, ids)
            + if Serving(w, s) && authorised(s) then Owed(w, s, w.subs[s].topics) else 0
  {
    hide Owed, Serving;
    if ids != [] {
      assert (ids + [s])[1..] == ids[1..] + [s];
      OwedAllEnd(w, authorised, ids[1..], s);
    } else {
      assert ids + [s] == [s] && [s][1..] == [];
    }
  }

  /** Several dispatches in a row. */
  ghost predicate DispatchedAll(u: World, v: World, done: set<string>) {
    && v.clock == u.clock && v.logs == u.logs && v.locks == u.locks && v.tasks == u.tasks
    && v.subs.Keys == u.subs.Keys && v.hist.starts == u.hist.starts
    && (forall x :: x in u.subs ==> v.subs[x] == u.subs[x].(cursors := v.subs[x].cursors, status := v.subs[x].status))
    && (forall x :: x in u.subs ==> (Serving(v, x) <==> Serving(u, x)))
    && (forall x, y :: x !in done ==> Mark(v, x, y) == Mark(u, x, y))
  }

  lemma OneMoreDispatched(u: World, v: World, w: World, done: set<string>, s: string)
    requires DispatchedAll(u, v, done) && Dispatched(v, w, s)
    ensures DispatchedAll(u, w, done + {s}) && forall x, y :: x != s ==> Mark(w, x, y) == Mark(v, x, y)
  {
    hide Mark;
  }

  lemma DispatchedNone(u: World)
    ensures DispatchedAll(u, u, {})
  {
    assert forall x :: x in u.subs ==>
      u.subs[x] == u.subs[x].(cursors := u.subs[x].cursors, status := u.subs[x].status);
  }

  lemma OwedNone(u: World, authorised: string -> bool)
    requires Declared(u)
    ensures OwedAll(u, authorised, []) == 0 && Settled(u, u, authorised, {})
  {
  }

  /** The subscriptions of `done` have nothing left. */
  ghost predicate Settled(u: World, w: World, authorised: string -> bool, done: set<string>) {
    forall s, t ::
      s in done && s in u.subs && Serving(u, s) && authorised(s) && t in u.subs[s].topics && t in w.logs ==>
      Backlog(w.logs[t], w.clock, Mark(w, s, t)) == 0
  }

  lemma NextReady(u: World, v: World, s: string, done: set<string>)
    requires Declared(u) && DispatchedAll(u, v, done) && s in u.subs && s !in done
    ensures s in v.subs && v.subs[s].topics == u.subs[s].topics && (Serving(v, s) <==> Serving(u, s))
    ensures forall t :: t in u.subs[s].topics ==> t in v.logs
    ensures forall i, j :: 0 <= i < j < |u.subs[s].topics| ==> u.subs[s].topics[i] != u.subs[s].topics[j]
    ensures v.clock == u.clock && v.logs == u.logs
    ensures Owed(v, s, u.subs[s].topics) == Owed(u, s, u.subs[s].topics)
  {
    OwedSame(u, v, s, u.subs[s].topics);
    hide Owed, Serving;
  }

  lemma OneMoreSettled(u: World, v: World, w: World, authorised: string -> bool, done: set<string>, s: string)
    requires Settled(u, v, authorised, done) && s in u.subs && s !in done
    requires w.logs == v.logs == u.logs && w.clock == v.clock
    requires forall x, y :: x != s ==> Mark(w, x, y) == Mark(v, x, y)
    requires Serving(u, s) && authorised(s) ==>
               forall t :: t in u.subs[s].topics && t in w.logs ==> Backlog(w.logs[t], w.clock, Mark(w, s, t)) == 0
    ensures Settled(u, w, authorised, done + {s})
  {
    hide Backlog, Mark, Serving;
  }

  lemma AllSettled(u: World, w: World, authorised: string -> bool, done: set<string>)
    requires Declared(u) && DispatchedAll(u, w, done) && Settled(u, w, authorised, done) && done == u.subs.Keys
    ensures Declared(w) && CaughtUp(w, authorised) && w.logs == u.logs && w.tasks == u.tasks
  {
    hide Backlog, Mark, Serving;
  }

  lemma ChecksOut(u: World, task: string, s: string, topics: seq<string>)
    requires task !in u.tasks && s in u.subs
    ensures var a := SetTask(u, task, Dispatching(s, topics, Checking));
      && SetTask(ExpireIfDue(a, s), task, Dispatching(s, topics, Waiting))
         == SetTask(ExpireIfDue(u, s), task, Dispatching(s, topics, Waiting))
      && EndTask(ExpireIfDue(a, s).(hist := a.hist.(lapsed := a.hist.lapsed + {s})), task)
         == ExpireIfDue(u, s).(hist := u.hist.(lapsed := u.hist.lapsed + {s}))
  {
    var a := SetTask(u, task, Dispatching(s, topics, Checking));
    assert a.tasks - {task} == u.tasks;
    SetTwice(ExpireIfDue(u, s), task, Dispatching(s, topics, Checking), Dispatching(s, topics, Waiting));
  }
}
