/** What the retry worker's calls do to the world. */
module Retries {
  import opened Contracts
  import opened Cursors
  import opened Stream
  import opened Dispatch
  import opened Steps
  import opened Deliveries
  import opened Reads
  import Backoff
  import RetryQueue

  ghost predicate StillLive(w: World, t: string, o: nat) {
    t in w.logs && o < |w.logs[t].recs| && w.logs[t].LiveAt(w.clock, o)
  }

  lemma LiveIs(w: World, t: string, o: nat)
    ensures LiveRecord(w.logs, t, o, w.clock) == if StillLive(w, t, o) then Some(w.logs[t].recs[o]) else None
  {
  }

  lemma NowLive(w: World, s: string, t: string, o: nat)
    ensures !Gone(w, s) ==> s in w.subs
    ensures StillLive(w, t, o) ==> Logged(w, t, o)
  {
  }

  /** The predecessor of the item's event has expired, so a second read is needed. */
  ghost predicate NeedsReload(w: World, t: string, o: nat) {
    t in w.logs && Fetch(w.logs[t], w.clock, o - 1, o, 1).Stale?
  }

  lemma NeedsSame(u: World, v: World, t: string, o: nat)
    requires v.logs == u.logs && v.clock == u.clock
    ensures NeedsReload(v, t, o) == NeedsReload(u, t, o) && StillLive(v, t, o) == StillLive(u, t, o)
  {
  }

  ghost function Loaded(w: World, rest: seq<RetryItem>): Task
    requires rest != []
  {
    Working(rest, if StillLive(w, rest[0].topic, rest[0].offset) then Redelivering(Sending(rest[0].attempt + 1))
                  else Completing)
  }

  lemma LoadedSame(u: World, v: World, rest: seq<RetryItem>)
    requires rest != [] && v.logs == u.logs && v.clock == u.clock
    ensures Loaded(v, rest) == Loaded(u, rest)
  {
  }

  lemma LoadWorld(cfg: Config, w: World, task: string, rest: seq<RetryItem>, work: WorkStage, inp: Input)
    requires AtWork(w, task, rest, work) && (work.Loading? || work.Reloading?)
    requires rest[0].topic in w.logs ==> w.logs[rest[0].topic].Ordered()
    requires work.Reloading? ==> NeedsReload(w, rest[0].topic, rest[0].offset)
    ensures RunWork(cfg, w, task, inp)
         == SetTask(w, task, if work.Loading? && NeedsReload(w, rest[0].topic, rest[0].offset)
                             then Working(rest, Reloading)
                             else Loaded(w, rest))
  {
    var item := rest[0];
    if item.topic in w.logs { LoadFinds(w.logs[item.topic], w.clock, item.offset); }
    hide Fetch;
  }

  ghost function Without(w: World, q: string): World { w.(queue := w.queue - {q}) }

  /** After one more recorded attempt of a queued delivery: it is over, or put off until `at`. */
  ghost function Judged(x: World, item: RetryItem, record: EventRecord, status: AttemptStatus, at: int): World
    requires item.sub in x.subs
  {
    var y := Attempted(x, item.sub, record, item.attempt + 1, status);
    if status.Retry? then PostponedIn(y, item.retryId, item.attempt + 1, at)
    else Without(Closed(y, item.sub, record.topic, record.offset, status.Delivered?), item.retryId)
  }

  lemma Untouched(x: World, s: string, record: EventRecord, n: nat, status: AttemptStatus)
    ensures Attempted(x, s, record, n, status).subs == x.subs && Attempted(x, s, record, n, status).logs == x.logs
    ensures Attempted(x, s, record, n, status).marks == x.marks && Attempted(x, s, record, n, status).clock == x.clock
  {
  }

  /** When a retry is attempted at all, read off the stores. */
  lemma AttemptedWhen(w: World, item: RetryItem)
    ensures !Gone(w, item.sub) && StillLive(w, item.topic, item.offset) <==>
            && item.sub in w.subs && w.subs[item.sub].status == Active
            && item.topic in w.logs && item.offset < |w.logs[item.topic].recs|
            && var log := w.logs[item.topic];
               (log.retention <= 0 || log.recs[item.offset].createdAt >= w.clock - log.retention)
  {
  }

  /** What a turn of the worker makes of its item, the record and the subscriptions, by how it ended. */
  ghost predicate TurnLeaves(u: World, w: World, item: RetryItem, status: Option<AttemptStatus>, next: int) {
    && w.logs == u.logs && w.clock == u.clock
    && w.queue == (if status != Some(Retry) then u.queue - {item.retryId}
                   else if item.retryId !in u.queue then u.queue
                   else u.queue[item.retryId :=
                          u.queue[item.retryId].(attempt := item.attempt + 1, nextRetryAt := next)])
    && match status
       case None => w.attempts == u.attempts && w.subs == u.subs && w.marks == u.marks
       case Some(st) =>
         && Logged(u, item.topic, item.offset)
         && w.attempts == u.attempts + [DeliveryAttempt(item.sub, u.logs[item.topic].recs[item.offset].eventId,
                                                        item.topic, item.offset, item.attempt + 1, st)]
         && match st
            case Delivered =>
              MovedTo(u, w, item.sub, item.topic, item.offset, Encode(item.topic, item.offset))
            case DeadLetter => PassedBy(u, w, item.sub, item.topic, item.offset)
            case Retry => w.subs == u.subs && w.marks == u.marks
  }

  lemma NoneLeaves(u: World, item: RetryItem, task: string, a: Task, next: int)
    ensures TurnLeaves(u, SetTask(Without(u, item.retryId), task, a), item, None, next)
    ensures TurnLeaves(u, SetTask(Without(Drop(u, item), item.retryId), task, a), item, None, next)
  {
    hide MovedTo, PassedBy;
  }

  lemma JudgedLeaves(u: World, item: RetryItem, record: EventRecord, status: AttemptStatus, next: int,
                     received: map<string, seq<string>>, task: string, a: Task)
    requires item.sub in u.subs && Logged(u, item.topic, item.offset)
    requires record == u.logs[item.topic].recs[item.offset]
    requires record.topic == item.topic && record.offset == item.offset
    ensures TurnLeaves(u, SetTask(Judged(u.(received := received), item, record, status,
                                         if status.Retry? then next else 0), task, a), item, Some(status), next)
  {
    hide MovedTo, PassedBy, Encode;
    var y := Attempted(u.(received := received), item.sub, record, item.attempt + 1, status);
    if status.Retry? {
      PostponedStores(y, item.retryId, item.attempt + 1, next);
      hide PostponedIn;
    } else {
      var z := Closed(y, item.sub, item.topic, item.offset, status.Delivered?);
      ClosedMoves(u, y, task, a, item.sub, item.topic, item.offset, status.Delivered?);
      ClosedStores(y, item.sub, item.topic, item.offset, status.Delivered?);
      MovesAside(u, u, SetTask(z, task, a), SetTask(Without(z, item.retryId), task, a), item.sub, item.topic,
                 item.offset, Encode(item.topic, item.offset));
      hide Closed;
    }
  }

  lemma ClosedStores(y: World, s: string, t: string, o: nat, delivered: bool)
    requires s in y.subs
    ensures var z := Closed(y, s, t, o, delivered);
      z.logs == y.logs && z.clock == y.clock && z.queue == y.queue && z.attempts == y.attempts
  {
    hide AdvanceCursor, SetMark, Mark, Encode;
    CursorStores(y, s, t, Encode(t, o));
    MarkStores(AdvanceCursor(y, s, t, Encode(t, o)), s, t, o);
    MarkStores(y, s, t, o);
  }

  lemma CursorStores(y: World, s: string, t: string, cursor: string)
    requires s in y.subs
    ensures var z := AdvanceCursor(y, s, t, cursor);
      z.logs == y.logs && z.clock == y.clock && z.queue == y.queue && z.attempts == y.attempts
  {
    hide Less;
  }

  lemma MarkStores(y: World, s: string, t: string, o: nat)
    ensures var z := SetMark(y, s, t, o);
      z.logs == y.logs && z.clock == y.clock && z.queue == y.queue && z.attempts == y.attempts
  {
  }

  lemma AtWorkNow(x: World, task: string, rest: seq<RetryItem>, work: WorkStage)
    requires rest != []
    ensures AtWork(SetTask(x, task, Working(rest, work)), task, rest, work)
    ensures SetTask(x, task, Working(rest, work)).subs == x.subs && SetTask(x, task, Working(rest, work)).logs == x.logs
  {
  }

  lemma WorkRest(x: World, task: string, rest: seq<RetryItem>, work: WorkStage)
    requires AtWork(x, task, rest, work)
    ensures rest != []
  {
  }

  lemma ThenWithout(x: World, task: string, a: Task, b: Task, q: string)
    ensures SetTask(Without(SetTask(x, task, a), q), task, b) == SetTask(Without(x, q), task, b)
  {
    SetTwice(Without(x, q), task, a, b);
  }

  lemma PostponedStores(x: World, q: string, n: nat, at: int)
    ensures PostponedIn(x, q, n, at)
         == x.(queue := if q in x.queue then x.queue[q := x.queue[q].(attempt := n, nextRetryAt := at)] else x.queue)
  {
  }

  lemma ThenPostponed(x: World, task: string, a: Task, b: Task, q: string, n: nat, at: int)
    ensures SetTask(PostponedIn(SetTask(x, task, a), q, n, at), task, b) == SetTask(PostponedIn(x, q, n, at), task, b)
  {
    SetTwice(PostponedIn(x, q, n, at), task, a, b);
  }

  lemma AttemptedCommutes(x: World, task: string, a: Task, s: string, record: EventRecord, n: nat,
                          status: AttemptStatus)
    ensures Attempted(SetTask(x, task, a), s, record, n, status) == SetTask(Attempted(x, s, record, n, status), task, a)
  {
  }

  lemma ThenOver(y: World, task: string, a: Task, b: Task, s: string, t: string, o: nat, d: bool, q: string)
    requires s in y.subs
    ensures SetTask(Without(Closed(SetTask(y, task, a), s, t, o, d), q), task, b)
         == SetTask(Without(Closed(y, s, t, o, d), q), task, b)
  {
    ClosedCommutes(y, task, a, s, t, o, d);
    ThenWithout(Closed(y, s, t, o, d), task, a, b, q);
    hide Closed, SetTask, Without;
  }

  lemma ThenJudged(x: World, task: string, a: Task, b: Task, item: RetryItem, record: EventRecord,
                   status: AttemptStatus, at: int)
    requires item.sub in x.subs
    ensures SetTask(Judged(SetTask(x, task, a), item, record, status, at), task, b)
         == SetTask(Judged(x, item, record, status, at), task, b)
  {
    var n := item.attempt + 1;
    var y, z := Attempted(x, item.sub, record, n, status), Attempted(SetTask(x, task, a), item.sub, record, n, status);
    AttemptedCommutes(x, task, a, item.sub, record, n, status);
    Untouched(x, item.sub, record, n, status);
    Untouched(SetTask(x, task, a), item.sub, record, n, status);
    if status.Retry? {
      ThenPostponed(y, task, a, b, item.retryId, n, at);
      assert Judged(x, item, record, status, at) == PostponedIn(y, item.retryId, n, at);
      assert Judged(SetTask(x, task, a), item, record, status, at) == PostponedIn(z, item.retryId, n, at);
      hide Judged, PostponedIn, SetTask, Attempted;
    } else {
      var d := status.Delivered?;
      ThenOver(y, task, a, b, item.sub, record.topic, record.offset, d, item.retryId);
      hide Closed, Without, Attempted;
      assert Judged(x, item, record, status, at)
          == Without(Closed(y, item.sub, record.topic, record.offset, d), item.retryId);
      assert Judged(SetTask(x, task, a), item, record, status, at)
          == Without(Closed(z, item.sub, record.topic, record.offset, d), item.retryId);
      hide Judged, SetTask;
    }
  }

  lemma ClosedCommutes(x: World, task: string, a: Task, s: string, t: string, o: nat, delivered: bool)
    requires s in x.subs
    ensures Closed(SetTask(x, task, a), s, t, o, delivered) == SetTask(Closed(x, s, t, o, delivered), task, a)
  {
    AdvanceCommutes(x, task, a, s, t, Encode(t, o));
    MarkCommutes(AdvanceCursor(x, s, t, Encode(t, o)), task, a, s, t, o);
    MarkCommutes(x, task, a, s, t, o);
    hide AdvanceCursor, Raised, SetMark;
  }

  /** The stores a worker does not touch; of a subscription it changes no more than the cursors. */
  ghost predicate WorkedOn(u: World, v: World) {
    && v.clock == u.clock && v.logs == u.logs && v.locks == u.locks
    && v.subs.Keys == u.subs.Keys && (forall x :: x in u.subs ==> v.subs[x] == u.subs[x].(cursors := v.subs[x].cursors))
  }

  /** The record one processed retry leaves: none for one that was dropped. */
  ghost function Made(w: World, item: RetryItem, end: Option<AttemptStatus>): seq<DeliveryAttempt> {
    if end.Some? && StillLive(w, item.topic, item.offset) then
      var record := w.logs[item.topic].recs[item.offset];
      [DeliveryAttempt(item.sub, record.eventId, record.topic, record.offset, item.attempt + 1, end.value)]
    else []
  }

  /** What a processed retry leaves in the queue: itself with one more attempt, due later, or nothing. */
  ghost function Remains(item: RetryItem, end: Option<AttemptStatus>, now: int, initial: int,
                         max: int): Option<RetryItem> {
    if end != Some(Retry) then None
    else Some(item.(attempt := item.attempt + 1, nextRetryAt := now + Backoff.Delay(initial, max, item.attempt + 1)))
  }

  ghost function At(queue: map<string, RetryItem>, q: string): Option<RetryItem> {
    if q in queue then Some(queue[q]) else None
  }

  /** One claimed retry was processed: dropped, aged out, over, or put off. */
  ghost predicate Turned(u: World, v: World, item: RetryItem, end: Option<AttemptStatus>, initial: int, max: int) {
    && WorkedOn(u, v) && v.attempts == u.attempts + Made(u, item, end)
    && (end.None? <==> Gone(u, item.sub) || !StillLive(u, item.topic, item.offset))
    && (At(u.queue, item.retryId) == Some(item) ==>
          At(v.queue, item.retryId) == Remains(item, end, u.clock, initial, max))
    && forall q :: q != item.retryId ==> At(v.queue, q) == At(u.queue, q)
  }

  lemma DroppedTurn(u: World, item: RetryItem, initial: int, max: int)
    requires Gone(u, item.sub) || !StillLive(u, item.topic, item.offset)
    ensures Turned(u, Without(if Gone(u, item.sub) then Drop(u, item) else u, item.retryId), item, None, initial, max)
  {
    hide Gone, StillLive;
  }

  lemma AttemptedFrame(u: World, received: map<string, seq<string>>, s: string, record: EventRecord, n: nat,
                       status: AttemptStatus)
    ensures var v := Attempted(u.(received := received), s, record, n, status);
      && WorkedOn(u, v) && v.queue == u.queue && v.subs == u.subs
      && v.attempts == u.attempts + [DeliveryAttempt(s, record.eventId, record.topic, record.offset, n, status)]
  {
  }

  lemma QueueFrame(u: World, v: World, queue: map<string, RetryItem>)
    requires WorkedOn(u, v)
    ensures WorkedOn(u, v.(queue := queue))
  {
  }

  lemma JudgedTurn(u: World, item: RetryItem, status: AttemptStatus, received: map<string, seq<string>>, initial: int,
                   max: int)
    requires !Gone(u, item.sub) && StillLive(u, item.topic, item.offset)
    ensures item.sub in u.subs && Logged(u, item.topic, item.offset)
    ensures Turned(u, Judged(u.(received := received), item, u.logs[item.topic].recs[item.offset], status,
                             if status.Retry? then u.clock + Backoff.Delay(initial, max, item.attempt + 1) else 0),
                   item, Some(status), initial, max)
  {
    NowLive(u, item.sub, item.topic, item.offset);
    hide Gone, StillLive, Closed, Mark, Backoff.Delay, WorkedOn, Attempted;
    var record, n := u.logs[item.topic].recs[item.offset], item.attempt + 1;
    AttemptedFrame(u, received, item.sub, record, n, status);
    var y := Attempted(u.(received := received), item.sub, record, n, status);
    if status.Retry? {
      QueueFrame(u, y, PostponedIn(y, item.retryId, n, u.clock + Backoff.Delay(initial, max, n)).queue);
    } else {
      ClosedFrame(y, item.sub, record.topic, record.offset, status.Delivered?);
      var z := Closed(y, item.sub, record.topic, record.offset, status.Delivered?);
      WorkedOnOn(u, y, z);
      QueueFrame(u, z, z.queue - {item.retryId});
    }
  }

  ghost function AllMade(w: World, items: seq<RetryItem>, ends: seq<Option<AttemptStatus>>): seq<DeliveryAttempt>
    requires |ends| <= |items|
  {
    if ends == [] then []
    else AllMade(w, items, ends[..|ends| - 1]) + Made(w, items[|ends| - 1], ends[|ends| - 1])
  }

  ghost function Ids(items: seq<RetryItem>): set<string> { set item | item in items :: item.retryId }

  /** The first claimed items were processed, as `ends` says: one record for each that was tried, in order, and in the
      queue the rest as claimed, the postponed ones due later, and everything unclaimed as it was. */
  ghost predicate Through(u: World, v: World, items: seq<RetryItem>, ends: seq<Option<AttemptStatus>>, initial: int,
                          max: int) {
    && |ends| <= |items| && WorkedOn(u, v) && v.attempts == u.attempts + AllMade(u, items, ends)
    && (forall i :: 0 <= i < |ends| ==>
          (ends[i].None? <==> Gone(u, items[i].sub) || !StillLive(u, items[i].topic, items[i].offset)))
    && (forall i :: 0 <= i < |items| ==>
          At(v.queue, items[i].retryId)
          == if i < |ends| then Remains(items[i], ends[i], u.clock, initial, max) else Some(items[i]))
    && forall q :: q !in Ids(items) ==> At(v.queue, q) == At(u.queue, q)
  }

  lemma SameWork(u: World, v: World, item: RetryItem, end: Option<AttemptStatus>)
    requires WorkedOn(u, v)
    ensures Gone(v, item.sub) == Gone(u, item.sub)
    ensures StillLive(v, item.topic, item.offset) == StillLive(u, item.topic, item.offset)
    ensures Made(v, item, end) == Made(u, item, end)
  {
  }

  lemma WorkedOnOn(u: World, v: World, w: World)
    requires WorkedOn(u, v) && WorkedOn(v, w)
    ensures WorkedOn(u, w)
  {
  }

  lemma ThroughMore(u: World, v: World, w: World, items: seq<RetryItem>, ends: seq<Option<AttemptStatus>>,
                    end: Option<AttemptStatus>, initial: int, max: int)
    requires Through(u, v, items, ends, initial, max) && |ends| < |items|
    requires forall i, j :: 0 <= i < j < |items| ==> items[i].retryId != items[j].retryId
    requires Turned(v, w, items[|ends|], end, initial, max)
    ensures Through(u, w, items, ends + [end], initial, max)
  {
    hide Gone, StillLive, Made, WorkedOn, Remains, At, Ids;
    var item, more := items[|ends|], ends + [end];
    SameWork(u, v, item, end);
    SameClock(u, v);
    WorkedOnOn(u, v, w);
    assert more[..|more| - 1] == ends;
    assert item in items;
    IdIn(items, item);
  }

  lemma SameClock(u: World, v: World)
    requires WorkedOn(u, v)
    ensures v.clock == u.clock
  {
  }

  lemma IdIn(items: seq<RetryItem>, item: RetryItem)
    requires item in items
    ensures item.retryId in Ids(items)
  {
  }

  lemma ThroughStart(u: World, claimed: seq<string>, leased: int, initial: int, max: int)
    requires forall c :: c in claimed ==> c in u.queue && u.queue[c].retryId == c
    ensures var items := LeasedItems(u.queue, claimed, leased);
      && Through(u, Leased(u, claimed, leased), items, [], initial, max)
      && |items| == |claimed|
      && forall i :: 0 <= i < |claimed| ==>
        items[i].retryId == claimed[i] && items[i].topic == u.queue[claimed[i]].topic
  {
    var items, v := LeasedItems(u.queue, claimed, leased), Leased(u, claimed, leased);
    assert forall x :: x in u.subs ==> u.subs[x] == u.subs[x].(cursors := u.subs[x].cursors);
    forall q | q !in Ids(items) ensures At(v.queue, q) == At(u.queue, q) {
      if q in claimed {
        var i :| 0 <= i < |claimed| && claimed[i] == q;
        IdIn(items, items[i]);
      }
    }
    hide Ids;
    assert u.attempts + [] == u.attempts;
  }

  /** Only the task differs. */
  lemma TurnedAside(u: World, v: World, task: string, a: Task, item: RetryItem, end: Option<AttemptStatus>,
                    initial: int, max: int)
    requires Turned(u, v, item, end, initial, max)
    ensures Turned(u, SetTask(v, task, a), item, end, initial, max)
  {
    hide Gone, StillLive, Made, Remains, At;
  }

  lemma ThroughAside(u: World, v: World, task: string, items: seq<RetryItem>, ends: seq<Option<AttemptStatus>>,
                     initial: int, max: int)
    requires Through(u, v, items, ends, initial, max)
    ensures Through(u, EndTask(v, task), items, ends, initial, max)
    ensures forall a :: Through(u, SetTask(v, task, a), items, ends, initial, max)
  {
    hide Gone, StillLive, Made, AllMade, Remains, At, Ids;
  }

  lemma AdvanceSubs(x: World, s: string, t: string, cursor: string)
    requires s in x.subs
    ensures AdvanceCursor(x, s, t, cursor) == x.(subs := AdvanceCursor(x, s, t, cursor).subs)
  {
    hide Less;
  }

  lemma AdvanceFrame(x: World, s: string, t: string, cursor: string)
    requires s in x.subs
    ensures var v := AdvanceCursor(x, s, t, cursor);
      WorkedOn(x, v) && v.tasks == x.tasks && v.queue == x.queue && v.attempts == x.attempts
  {
    hide Less, AdvanceCursor, Mark;
    AdvanceKeeps(x, "", s, t, cursor);
    AdvanceSubs(x, s, t, cursor);
  }

  lemma MarkFrame(x: World, s: string, t: string, o: nat)
    ensures SetMark(x, s, t, o) == x.(marks := SetMark(x, s, t, o).marks)
    ensures Raised(x, s, t, o) == x.(marks := Raised(x, s, t, o).marks)
  {
  }

  lemma ClosedFrame(x: World, s: string, t: string, o: nat, delivered: bool)
    requires s in x.subs
    ensures var v := Closed(x, s, t, o, delivered);
      WorkedOn(x, v) && v.tasks == x.tasks && v.queue == x.queue && v.attempts == x.attempts
  {
    hide AdvanceCursor, SetMark, Raised;
    AdvanceFrame(x, s, t, Encode(t, o));
    MarkFrame(x, s, t, o);
    MarkFrame(AdvanceCursor(x, s, t, Encode(t, o)), s, t, o);
    assert forall y :: y in x.subs ==> x.subs[y] == x.subs[y].(cursors := x.subs[y].cursors);
  }

  lemma ClaimEnabled(cfg: Config, w: World, queue: RetryQueue.Queue, now: int, batch: nat, task: string, leased: int)
    requires queue.Valid() && queue.items == w.queue && now == w.clock && task !in w.tasks
    ensures var ids := RetryQueue.Claimed(queue, now, batch);
      && (forall c :: c in ids ==> c in w.queue)
      && Enabled(cfg, w, StartWork(task, ids, leased))
      && Apply(cfg, w, StartWork(task, ids, leased))
         == SetTask(Leased(w, ids, leased), task, Working(LeasedItems(w.queue, ids, leased), Reviewing))
  {
    RetryQueue.ClaimedDue(queue, now, batch);
    RetryQueue.ClaimedOnce(queue, now, batch);
    hide RetryQueue.Claimed, RetryQueue.Queue.Valid;
    ClaimStep(cfg, w, task, RetryQueue.Claimed(queue, now, batch), leased);
    hide Enabled, Apply;
  }

  lemma LeasedFrame(w: World, claimed: seq<string>, leased: int)
    ensures Leased(w, claimed, leased) == w.(queue := Leased(w, claimed, leased).queue)
  {
  }

  lemma LeasedAgree(w: World, claimed: seq<string>, leased: int, items: seq<RetryItem>)
    requires forall c :: c in claimed ==> c in w.queue
    requires |items| == |claimed|
    requires var q := RetryQueue.Leased(w.queue, claimed, leased);
      forall i :: 0 <= i < |claimed| ==> claimed[i] in q && items[i] == q[claimed[i]]
    ensures RetryQueue.Leased(w.queue, claimed, leased) == Leased(w, claimed, leased).queue
    ensures items == LeasedItems(w.queue, claimed, leased)
  {
    var q := RetryQueue.Leased(w.queue, claimed, leased);
    forall i | 0 <= i < |claimed| ensures items[i] == w.queue[claimed[i]].(nextRetryAt := leased) {
      assert claimed[i] in claimed;
    }
  }
}
