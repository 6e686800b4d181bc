/**
 * No event is lost: in every run, with any interleaving and a crash between any two store
 * writes, everything at or below a subscription's high-water mark is accounted for.
 */
module NoLoss {
  import opened Contracts
  import opened Cursors
  import opened Stream
  import opened Dispatch

  // --- Being accounted for -----------------------------------------------------------

  ghost predicate Missed(w: World, s: string, t: string, o: int) {
    s in w.subs && Logged(w, t, o) && !w.subs[s].selector(w.logs[t].recs[o].content)
  }

  predicate Ends(a: DeliveryAttempt, s: string, t: string, o: int) {
    a.sub == s && a.topic == t && a.offset == o && a.status != Retry
  }

  /** A "delivered" or "dead_letter" attempt is on record. */
  ghost predicate Finished(w: World, s: string, t: string, o: int) {
    exists i :: 0 <= i < |w.attempts| && Ends(w.attempts[i], s, t, o)
  }

  predicate Holds(item: RetryItem, s: string, t: string, o: int) {
    item.sub == s && item.topic == t && item.offset == o
  }

  ghost predicate Queued(w: World, s: string, t: string, o: int) {
    exists q :: q in w.queue && Holds(w.queue[q], s, t, o)
  }

  /** An explicit ack wrote a mark at least this far. */
  ghost predicate AckedPast(w: World, s: string, t: string, o: int) {
    exists c :: c in w.hist.acked && c.sub == s && c.topic == t && o <= c.offset
  }

  ghost predicate Aged(w: World, t: string, o: int) {
    Logged(w, t, o) && !w.logs[t].LiveAt(w.clock, o)
  }

  ghost predicate Dropped(w: World, s: string, t: string, o: int) {
    o >= 0 && Spot(s, t, o) in w.hist.dropped
  }

  /** Accounted for without the retry queue. */
  ghost predicate Settled(w: World, s: string, t: string, o: int) {
    Missed(w, s, t, o) || Finished(w, s, t, o) || AckedPast(w, s, t, o) || Aged(w, t, o) || Dropped(w, s, t, o)
  }

  ghost predicate Accounted(w: World, s: string, t: string, o: int) {
    Settled(w, s, t, o) || Queued(w, s, t, o)
  }

  /** Everything the subscription is owed up to `n` is accounted for. */
  ghost predicate AccountedUpTo(w: World, s: string, t: string, n: int) {
    forall o :: Start(w, s, t) < o <= n ==> Accounted(w, s, t, o)
  }

  /** The property: nothing at or below any high-water mark is unaccounted for. */
  ghost predicate NothingLost(w: World) {
    forall s, t :: s in w.subs && t in w.subs[s].topics ==> AccountedUpTo(w, s, t, Mark(w, s, t))
  }

  // --- What each part of the world keeps ---------------------------------------------

  ghost predicate LogsOk(w: World) {
    forall t :: t in w.logs ==>
      && w.logs[t].Ordered()
      && forall o :: 0 <= o < |w.logs[t].recs| ==>
           && w.logs[t].recs[o].createdAt <= w.clock
           && w.logs[t].recs[o].topic == t
           && w.logs[t].recs[o].offset == o
  }

  /** A delivery of this event to this subscription makes sense. */
  ghost predicate Deliverable(w: World, s: string, t: string, o: int) {
    Matched(w, s, t, o) && t in w.subs[s].topics
  }

  ghost predicate AttemptOk(cfg: Config, w: World, a: DeliveryAttempt) {
    && Deliverable(w, a.sub, a.topic, a.offset)
    && a.eventId == w.logs[a.topic].recs[a.offset].eventId
    && 1 <= a.attempt <= cfg.maxAttempts
    && (a.status == Retry ==> a.attempt < cfg.maxAttempts)
    && (a.status == Delivered ==> a.eventId in Received(w, w.subs[a.sub].endpoint))
  }

  ghost predicate ItemOk(cfg: Config, w: World, item: RetryItem) {
    && Deliverable(w, item.sub, item.topic, item.offset)
    && item.retryId in w.hist.issued
    && w.hist.issued[item.retryId] == Spot(item.sub, item.topic, item.offset)
    && 1 <= item.attempt < cfg.maxAttempts
    && AccountedUpTo(w, item.sub, item.topic, item.offset)
  }

  ghost predicate PhaseOk(cfg: Config, w: World, s: string, t: string, o: nat, phase: Phase)
    requires Deliverable(w, s, t, o)
  {
    match phase
    case Sending(n) => 1 <= n <= cfg.maxAttempts
    case Sent(n, ack, _) =>
      && 1 <= n <= cfg.maxAttempts
      && (ack ==> w.logs[t].recs[o].eventId in Received(w, w.subs[s].endpoint))
    case Acknowledge => Finished(w, s, t, o)
    case ReadMark => Finished(w, s, t, o)
    case WriteMark(_) => Finished(w, s, t, o)
    case BuryMark => Finished(w, s, t, o)
    case HandOver(n) => 1 <= n < cfg.maxAttempts
    case HandedMark => Accounted(w, s, t, o)
  }

  ghost predicate PageOk(cfg: Config, w: World, s: string, t: string, page: PageStage)
    requires t in w.logs
  {
    match page
    case Fetching(position) => AccountedUpTo(w, s, t, position)
    case Refetching(position) => AccountedUpTo(w, s, t, position) && Aged(w, t, position)
    case Scanning(next, hi, scan) =>
      scan < next <= hi <= |w.logs[t].recs| && AccountedUpTo(w, s, t, next - 1)
    case Handling(next, hi, phase) =>
      && next < hi <= |w.logs[t].recs|
      && Deliverable(w, s, t, next)
      && AccountedUpTo(w, s, t, next - 1)
      && PhaseOk(cfg, w, s, t, next, phase)
    case Settling(scan) => AccountedUpTo(w, s, t, scan)
    case SettleMark(scan, _) => AccountedUpTo(w, s, t, scan)
  }

  ghost predicate TaskOk(cfg: Config, w: World, task: Task) {
    match task
    case Publishing(_, _) => true
    case Subscribing(s, sub, from, todo, starts, heads) =>
      && (forall t :: t in sub.topics ==> t in w.logs)
      && (forall t :: t in starts ==> starts[t] >= -1)
    case Dispatching(s, topics, stage) =>
      && s in w.subs
      && (forall t :: t in topics ==> t in w.subs[s].topics)
      && (stage.On? ==> topics != [] && topics[0] in w.logs && PageOk(cfg, w, s, topics[0], stage.page))
    case Working(rest, work) =>
      && (forall i :: 0 <= i < |rest| ==> ItemOk(cfg, w, rest[i]))
      && (rest != [] ==> WorkOk(cfg, w, rest[0], work))
    case Acking(s, _, _, _, _) => s in w.subs
  }

  ghost predicate WorkOk(cfg: Config, w: World, item: RetryItem, work: WorkStage) {
    match work
    case Reviewing => true
    case Loading => true
    case Reloading => item.offset > 0 && Aged(w, item.topic, item.offset - 1)
    case Redelivering(phase) =>
      && Deliverable(w, item.sub, item.topic, item.offset)
      && !phase.HandedMark?
      && PhaseOk(cfg, w, item.sub, item.topic, item.offset, phase)
    case Completing => Settled(w, item.sub, item.topic, item.offset)
  }

  ghost predicate SubsOk(w: World) {
    && (forall s :: s in w.subs ==> forall t :: t in w.subs[s].topics ==> t in w.logs)
    && (forall s :: s in w.hist.starts ==> forall t :: t in w.hist.starts[s] ==> w.hist.starts[s][t] >= -1)
  }

  ghost predicate Invariant(cfg: Config, w: World) {
    && cfg.maxAttempts >= 1
    && LogsOk(w)
    && SubsOk(w)
    && NothingLost(w)
    && (forall i :: 0 <= i < |w.attempts| ==> AttemptOk(cfg, w, w.attempts[i]))
    && (forall q :: q in w.queue ==> w.queue[q].retryId == q && ItemOk(cfg, w, w.queue[q]))
    && (forall id :: id in w.tasks ==> TaskOk(cfg, w, w.tasks[id]))
  }

  // --- Growing: facts no later step takes back -----------------------------------------

  ghost predicate Grows(w: World, v: World) {
    && w.clock <= v.clock
    && (forall t :: t in w.logs ==>
          t in v.logs && v.logs[t].retention == w.logs[t].retention && w.logs[t].recs <= v.logs[t].recs)
    && (forall s :: s in w.subs ==> s in v.subs && SameTerms(w.subs[s], v.subs[s]))
    && (forall s, t :: s in w.subs ==> Start(v, s, t) == Start(w, s, t))
    && w.attempts <= v.attempts
    && (forall e, x :: x in Received(w, e) ==> x in Received(v, e))
    && w.hist.acked <= v.hist.acked
    && w.hist.dropped <= v.hist.dropped
    && (forall r :: r in w.hist.issued ==> r in v.hist.issued && v.hist.issued[r] == w.hist.issued[r])
    && (forall q :: q in w.queue ==> StillHeld(w.queue[q], q, v))
  }

  ghost predicate SameTerms(a: Subscription, b: Subscription) {
    a.topics == b.topics && a.selector == b.selector && a.endpoint == b.endpoint
  }

  /** A queued item stays in the queue, or its event is settled without it. */
  ghost predicate StillHeld(item: RetryItem, q: string, v: World) {
    || (q in v.queue && Holds(v.queue[q], item.sub, item.topic, item.offset))
    || Settled(v, item.sub, item.topic, item.offset)
  }

  lemma SettledStays(w: World, v: World, s: string, t: string, o: int)
    requires Grows(w, v) && s in w.subs && Settled(w, s, t, o)
    ensures Settled(v, s, t, o)
  {
    if Finished(w, s, t, o) {
      var i :| 0 <= i < |w.attempts| && Ends(w.attempts[i], s, t, o);
      assert v.attempts[i] == w.attempts[i];
    } else if Missed(w, s, t, o) || Aged(w, t, o) {
      assert v.logs[t].recs[o] == w.logs[t].recs[o];
    }
  }

  lemma AccountedStays(w: World, v: World, s: string, t: string, o: int)
    requires Grows(w, v) && s in w.subs && Accounted(w, s, t, o)
    ensures Accounted(v, s, t, o)
  {
    if Settled(w, s, t, o) {
      SettledStays(w, v, s, t, o);
    } else {
      var q :| q in w.queue && Holds(w.queue[q], s, t, o);
      assert StillHeld(w.queue[q], q, v);
    }
  }

  lemma UpToStays(w: World, v: World, s: string, t: string, n: int)
    requires Grows(w, v) && s in w.subs && AccountedUpTo(w, s, t, n)
    ensures AccountedUpTo(v, s, t, n)
  {
    forall o | Start(v, s, t) < o <= n ensures Accounted(v, s, t, o) {
      AccountedStays(w, v, s, t, o);
    }
  }

  lemma DeliverableStays(w: World, v: World, s: string, t: string, o: int)
    requires Grows(w, v) && Deliverable(w, s, t, o)
    ensures Deliverable(v, s, t, o)
    ensures v.logs[t].recs[o] == w.logs[t].recs[o]
    ensures v.subs[s].endpoint == w.subs[s].endpoint
  {
  }

  lemma PhaseStays(cfg: Config, w: World, v: World, s: string, t: string, o: nat, phase: Phase)
    requires Grows(w, v) && Deliverable(w, s, t, o) && PhaseOk(cfg, w, s, t, o, phase)
    ensures Deliverable(v, s, t, o) && PhaseOk(cfg, v, s, t, o, phase)
  {
    DeliverableStays(w, v, s, t, o);
    if Finished(w, s, t, o) {
      var i :| 0 <= i < |w.attempts| && Ends(w.attempts[i], s, t, o);
      assert v.attempts[i] == w.attempts[i];
    }
    if Accounted(w, s, t, o) { AccountedStays(w, v, s, t, o); }
  }

  lemma ItemStays(cfg: Config, w: World, v: World, item: RetryItem)
    requires Grows(w, v) && ItemOk(cfg, w, item)
    ensures ItemOk(cfg, v, item)
  {
    DeliverableStays(w, v, item.sub, item.topic, item.offset);
    UpToStays(w, v, item.sub, item.topic, item.offset);
  }

  lemma WorkStays(cfg: Config, w: World, v: World, item: RetryItem, work: WorkStage)
    requires Grows(w, v) && ItemOk(cfg, w, item) && WorkOk(cfg, w, item, work)
    ensures WorkOk(cfg, v, item, work)
  {
    match work
    case Reviewing =>
    case Loading =>
    case Reloading => assert v.logs[item.topic].recs[item.offset - 1] == w.logs[item.topic].recs[item.offset - 1];
    case Redelivering(phase) => PhaseStays(cfg, w, v, item.sub, item.topic, item.offset, phase);
    case Completing => SettledStays(w, v, item.sub, item.topic, item.offset);
  }

  lemma PageStays(cfg: Config, w: World, v: World, s: string, t: string, page: PageStage)
    requires Grows(w, v) && s in w.subs && t in w.logs && PageOk(cfg, w, s, t, page)
    ensures t in v.logs && PageOk(cfg, v, s, t, page)
  {
    match page
    case Fetching(position) => UpToStays(w, v, s, t, position);
    case Refetching(position) =>
      UpToStays(w, v, s, t, position);
      assert v.logs[t].recs[position] == w.logs[t].recs[position];
    case Scanning(next, hi, scan) => UpToStays(w, v, s, t, next - 1);
    case Handling(next, hi, phase) =>
      UpToStays(w, v, s, t, next - 1);
      PhaseStays(cfg, w, v, s, t, next, phase);
    case Settling(scan) => UpToStays(w, v, s, t, scan);
    case SettleMark(scan, _) => UpToStays(w, v, s, t, scan);
  }

  lemma TaskStays(cfg: Config, w: World, v: World, task: Task)
    requires Grows(w, v) && TaskOk(cfg, w, task)
    ensures TaskOk(cfg, v, task)
  {
    match task
    case Publishing(_, _) =>
    case Subscribing(_, _, _, _, _, _) =>
    case Dispatching(s, topics, stage) =>
      if stage.On? { PageStays(cfg, w, v, s, topics[0], stage.page); }
    case Working(rest, work) =>
      forall i | 0 <= i < |rest| ensures ItemOk(cfg, v, rest[i]) { ItemStays(cfg, w, v, rest[i]); }
      if rest != [] { WorkStays(cfg, w, v, rest[0], work); }
    case Acking(_, _, _, _, _) =>
  }

  lemma AttemptStays(cfg: Config, w: World, v: World, a: DeliveryAttempt)
    requires Grows(w, v) && AttemptOk(cfg, w, a)
    ensures AttemptOk(cfg, v, a)
  {
    DeliverableStays(w, v, a.sub, a.topic, a.offset);
  }

  /** A step that grows the world keeps the invariant if what it newly wrote is in order. */
  lemma Frame(cfg: Config, w: World, v: World)
    requires Invariant(cfg, w) && Grows(w, v)
    requires LogsOk(v) && SubsOk(v)
    requires forall s, t :: s in v.subs && t in v.subs[s].topics ==>
               (s in w.subs && Mark(v, s, t) == Mark(w, s, t)) || AccountedUpTo(v, s, t, Mark(v, s, t))
    requires forall i :: |w.attempts| <= i < |v.attempts| ==> AttemptOk(cfg, v, v.attempts[i])
    requires forall q :: q in v.queue ==>
               (q in w.queue && SameItem(w.queue[q], v.queue[q]))
                 || (v.queue[q].retryId == q && ItemOk(cfg, v, v.queue[q]))
    requires forall id :: id in v.tasks ==>
               (id in w.tasks && v.tasks[id] == w.tasks[id]) || TaskOk(cfg, v, v.tasks[id])
    ensures Invariant(cfg, v)
  {
    hide AccountedUpTo, AttemptOk, ItemOk, TaskOk, LogsOk, SubsOk, Grows, Mark, SameItem;
    forall s, t | s in v.subs && t in v.subs[s].topics ensures AccountedUpTo(v, s, t, Mark(v, s, t)) {
      if s in w.subs && Mark(v, s, t) == Mark(w, s, t) { MarkStays(w, v, s, t); }
    }
    forall i | 0 <= i < |v.attempts| ensures AttemptOk(cfg, v, v.attempts[i]) {
      if i < |w.attempts| { EarlierStays(cfg, w, v, i); }
    }
    forall q | q in v.queue ensures v.queue[q].retryId == q && ItemOk(cfg, v, v.queue[q]) {
      if q in w.queue && SameItem(w.queue[q], v.queue[q]) {
        ItemStays(cfg, w, v, w.queue[q]);
        SameItemOk(cfg, v, w.queue[q], v.queue[q]);
      }
    }
    forall id | id in v.tasks ensures TaskOk(cfg, v, v.tasks[id]) {
      if id in w.tasks && v.tasks[id] == w.tasks[id] { TaskStays(cfg, w, v, w.tasks[id]); }
    }
  }

  lemma MarkStays(w: World, v: World, s: string, t: string)
    requires NothingLost(w) && Grows(w, v) && s in w.subs && s in v.subs && t in v.subs[s].topics
    requires Mark(v, s, t) == Mark(w, s, t)
    ensures AccountedUpTo(v, s, t, Mark(v, s, t))
  {
    assert t in w.subs[s].topics;
    hide Grows, AccountedUpTo, Mark;
    assert AccountedUpTo(w, s, t, Mark(w, s, t));
    UpToStays(w, v, s, t, Mark(w, s, t));
  }

  lemma EarlierStays(cfg: Config, w: World, v: World, i: nat)
    requires Grows(w, v) && i < |w.attempts| && i < |v.attempts| && AttemptOk(cfg, w, w.attempts[i])
    ensures AttemptOk(cfg, v, v.attempts[i])
  {
    assert v.attempts[i] == w.attempts[i];
    hide Grows, AttemptOk;
    AttemptStays(cfg, w, v, w.attempts[i]);
  }

  lemma SameItemOk(cfg: Config, w: World, a: RetryItem, b: RetryItem)
    requires ItemOk(cfg, w, a) && SameItem(a, b)
    ensures ItemOk(cfg, w, b) && b.retryId == a.retryId
  {
    hide AccountedUpTo, Deliverable;
  }

  /** What the invariant says of the logs and the subscriptions. */
  lemma InvariantStores(cfg: Config, w: World)
    requires Invariant(cfg, w)
    ensures cfg.maxAttempts >= 1 && LogsOk(w) && SubsOk(w)
  {
  }

  lemma HeldStill(w: World, v: World)
    requires v.queue == w.queue
    ensures forall q :: q in w.queue ==> StillHeld(w.queue[q], q, v)
  {
    hide Settled;
  }

  /** Logs, marks, attempts, queue and tasks stay; the rest may change in its one direction. */
  ghost predicate Aside(w: World, v: World) {
    && v.logs == w.logs && w.clock <= v.clock && v.marks == w.marks && v.attempts == w.attempts && v.queue == w.queue
    && v.tasks == w.tasks && v.hist.starts == w.hist.starts && v.hist.issued == w.hist.issued
    && w.hist.acked <= v.hist.acked && w.hist.dropped <= v.hist.dropped
    && v.subs.Keys == w.subs.Keys && (forall s :: s in w.subs ==> SameTerms(w.subs[s], v.subs[s]))
    && (forall e, x :: x in Received(w, e) ==> x in Received(v, e))
  }

  lemma AsideGrows(w: World, v: World)
    requires Aside(w, v)
    ensures Grows(w, v)
  {
    hide StillHeld;
    HeldStill(w, v);
  }

  lemma AsideOk(cfg: Config, w: World, v: World)
    requires Invariant(cfg, w) && Aside(w, v)
    ensures Invariant(cfg, v) && Grows(w, v)
  {
    hide Invariant, Grows, AttemptOk, ItemOk, TaskOk, AccountedUpTo;
    InvariantStores(cfg, w);
    AsideGrows(w, v);
    assert LogsOk(v) && SubsOk(v);
    hide LogsOk, SubsOk, SameTerms;
    Frame(cfg, w, v);
  }

  predicate SameItem(a: RetryItem, b: RetryItem) {
    b == a.(nextRetryAt := b.nextRetryAt)
  }

  // --- Steps that move tasks only --------------------------------------------------------

  /** `v` differs from `w` in tasks, locks and bookkeeping that no obligation mentions. */
  ghost predicate SameStores(w: World, v: World) {
    && v.clock == w.clock && v.logs == w.logs && v.subs == w.subs && v.marks == w.marks
    && v.attempts == w.attempts && v.queue == w.queue && v.received == w.received
    && v.hist.starts == w.hist.starts && v.hist.acked == w.hist.acked && v.hist.dropped == w.hist.dropped
    && v.hist.issued == w.hist.issued && v.hist.taken == w.hist.taken
  }

  lemma SeePageSame(w: World, s: string, t: string, lo: nat, hi: nat)
    requires lo <= hi
    ensures SameStores(w, SeePage(w, s, t, lo, hi))
  {
  }

  lemma SetTaskSame(w: World, v: World, id: string, task: Task)
    requires SameStores(w, v)
    ensures SameStores(w, SetTask(v, id, task))
  {
  }

  lemma OpenPageSame(w: World, id: string, s: string, topics: seq<string>, page: Page, position: int)
    requires topics != [] && page.Range? && page.lo <= page.hi
    ensures SameStores(w, OpenPage(w, id, s, topics, page, position))
  {
    hide SameStores, SetTask, SeePage;
    if page.lo == page.hi {
      assert SameStores(w, w) by { SelfSame(w); }
      SetTaskSame(w, w, id, Dispatching(s, topics[1..], Position));
    } else {
      SeePageSame(w, s, topics[0], page.lo, page.hi);
      SetTaskSame(w, SeePage(w, s, topics[0], page.lo, page.hi), id,
                  Dispatching(s, topics, On(Scanning(page.lo, page.hi, position))));
    }
  }

  lemma SelfSame(w: World)
    ensures SameStores(w, w)
  {
  }

  lemma OnPageSame(w: World, id: string, s: string, topics: seq<string>, page: PageStage)
    ensures SameStores(w, OnPage(w, id, s, topics, page))
  {
  }

  /** Outside delivery and the page's final write the catch-up loop only moves its own task. */
  lemma CatchUpMoves(cfg: Config, w: World, id: string, s: string, topics: seq<string>, page: PageStage, inp: Input)
    requires s in w.subs && topics != [] && topics[0] in w.logs && !page.Handling? && !page.SettleMark?
    ensures SameStores(w, RunCatchUp(cfg, w, id, s, topics, page, inp))
  {
    hide OpenPage, OnPage, SameStores;
    var log := w.logs[topics[0]];
    match page
    case Fetching(position) =>
      var p := Fetch(log, w.clock, position, |log.recs|, cfg.pageSize);
      if p.Stale? { OnPageSame(w, id, s, topics, Refetching(position)); }
      else { OpenPageSame(w, id, s, topics, p, position); }
    case Refetching(position) =>
      OpenPageSame(w, id, s, topics, Fetch(log, w.clock, -1, |log.recs|, cfg.pageSize), position);
    case Scanning(next, hi, scan) =>
      if next >= hi { OnPageSame(w, id, s, topics, Settling(scan)); }
      else if next <= scan { OnPageSame(w, id, s, topics, Scanning(next + 1, hi, scan)); }
      else if Matched(w, s, topics[0], next) { OnPageSame(w, id, s, topics, Handling(next, hi, Sending(1))); }
      else { OnPageSame(w, id, s, topics, Scanning(next + 1, hi, next)); }
    case Settling(scan) => OnPageSame(w, id, s, topics, SettleMark(scan, Mark(w, s, topics[0])));
  }

  lemma SameStoresGrow(w: World, v: World)
    requires SameStores(w, v)
    ensures Grows(w, v)
  {
    forall q | q in w.queue ensures StillHeld(w.queue[q], q, v) {
      assert Holds(v.queue[q], w.queue[q].sub, w.queue[q].topic, w.queue[q].offset);
    }
  }

  /** Moving tasks is harmless as long as every new task is in order. */
  lemma MoveTasks(cfg: Config, w: World, v: World)
    requires Invariant(cfg, w) && SameStores(w, v)
    requires forall id :: id in v.tasks ==> (id in w.tasks && v.tasks[id] == w.tasks[id]) || TaskOk(cfg, w, v.tasks[id])
    ensures Invariant(cfg, v) && Grows(w, v)
  {
    SameStoresGrow(w, v);
    forall id | id in v.tasks && TaskOk(cfg, w, v.tasks[id]) ensures TaskOk(cfg, v, v.tasks[id]) {
      TaskStays(cfg, w, v, v.tasks[id]);
    }
    Frame(cfg, w, v);
  }

  // --- Steps that write a store -----------------------------------------------------------

  lemma UpToNext(w: World, s: string, t: string, o: int)
    requires AccountedUpTo(w, s, t, o - 1) && Accounted(w, s, t, o)
    ensures AccountedUpTo(w, s, t, o)
  {
  }

  /** A write that leaves the logs, the queue and the history alone. */
  lemma PlainWriteGrows(w: World, v: World)
    requires v == w.(subs := v.subs, marks := v.marks, attempts := v.attempts, received := v.received)
    requires w.subs.Keys <= v.subs.Keys && forall s :: s in w.subs ==> SameTerms(w.subs[s], v.subs[s])
    requires w.attempts <= v.attempts
    requires forall e, x :: x in Received(w, e) ==> x in Received(v, e)
    ensures Grows(w, v)
  {
    forall q | q in w.queue ensures StillHeld(w.queue[q], q, v) {
      assert Holds(v.queue[q], w.queue[q].sub, w.queue[q].topic, w.queue[q].offset);
    }
  }

  lemma MarkAfterSet(w: World, s: string, t: string, o: int, s': string, t': string)
    ensures Mark(SetMark(w, s, t, o), s', t') == if s' == s && t' == t then o else Mark(w, s', t')
  {
  }

  /** A high-water mark may be set wherever everything up to it is accounted for. */
  lemma SetMarkOk(cfg: Config, w: World, s: string, t: string, o: int)
    requires Invariant(cfg, w) && s in w.subs && AccountedUpTo(w, s, t, o)
    ensures Invariant(cfg, SetMark(w, s, t, o)) && Grows(w, SetMark(w, s, t, o))
  {
    var v := SetMark(w, s, t, o);
    PlainWriteGrows(w, v);
    UpToStays(w, v, s, t, o);
    forall s', t' | s' in v.subs && t' in v.subs[s'].topics
      ensures (s' in w.subs && Mark(v, s', t') == Mark(w, s', t')) || AccountedUpTo(v, s', t', Mark(v, s', t'))
    {
      MarkAfterSet(w, s, t, o, s', t');
    }
    Frame(cfg, w, v);
  }

  lemma AdvanceTerms(w: World, s: string, t: string, cursor: string)
    requires s in w.subs
    ensures var v := AdvanceCursor(w, s, t, cursor);
      && v == w.(subs := v.subs) && v.subs.Keys == w.subs.Keys
      && forall x :: x in w.subs ==> SameTerms(w.subs[x], v.subs[x])
  {
    hide Less;
  }

  lemma AdvanceCursorOk(cfg: Config, w: World, s: string, t: string, cursor: string)
    requires Invariant(cfg, w) && s in w.subs
    ensures Invariant(cfg, AdvanceCursor(w, s, t, cursor)) && Grows(w, AdvanceCursor(w, s, t, cursor))
  {
    hide Invariant, Grows, Less;
    AdvanceTerms(w, s, t, cursor);
    hide AdvanceCursor, SameTerms;
    SubsChange(cfg, w, AdvanceCursor(w, s, t, cursor));
  }

  /** Status, lease and acked cursors can change freely. */
  lemma SubsChange(cfg: Config, w: World, v: World)
    requires Invariant(cfg, w) && v == w.(subs := v.subs)
    requires v.subs.Keys == w.subs.Keys
    requires forall s :: s in w.subs ==> SameTerms(w.subs[s], v.subs[s])
    ensures Invariant(cfg, v) && Grows(w, v)
  {
    hide Invariant, Grows;
    AsideOk(cfg, w, v);
  }

  lemma {:induction false} ReceiveKeeps(w: World, endpoint: string, eventId: string, e: string, x: string)
    ensures x in Received(w, e) ==> x in Received(Receive(w, endpoint, eventId), e)
    ensures eventId in Received(Receive(w, endpoint, eventId), endpoint)
  {
    var v := Receive(w, endpoint, eventId);
    if eventId !in Received(w, endpoint) {
      assert Received(v, endpoint) == Received(w, endpoint) + [eventId];
    }
  }

  lemma ReceiveOk(cfg: Config, w: World, endpoint: string, eventId: string)
    requires Invariant(cfg, w)
    ensures Invariant(cfg, Receive(w, endpoint, eventId)) && Grows(w, Receive(w, endpoint, eventId))
    ensures eventId in Received(Receive(w, endpoint, eventId), endpoint)
  {
    var v := Receive(w, endpoint, eventId);
    forall e, x ensures x in Received(w, e) ==> x in Received(v, e) {
      ReceiveKeeps(w, endpoint, eventId, e, x);
    }
    ReceiveKeeps(w, endpoint, eventId, endpoint, eventId);
    ReceivedChange(cfg, w, v);
  }

  lemma ReceivedChange(cfg: Config, w: World, v: World)
    requires Invariant(cfg, w) && v == w.(received := v.received)
    requires forall e, x :: x in Received(w, e) ==> x in Received(v, e)
    ensures Invariant(cfg, v) && Grows(w, v)
  {
    hide Invariant, Grows;
    AsideOk(cfg, w, v);
  }

  lemma RecordGrows(w: World, v: World, a: DeliveryAttempt)
    requires v == w.(attempts := w.attempts + [a])
    ensures Grows(w, v)
  {
    hide StillHeld;
    HeldStill(w, v);
  }

  lemma RecordOk(cfg: Config, w: World, s: string, t: string, o: nat, n: nat, status: AttemptStatus)
    requires Invariant(cfg, w) && Deliverable(w, s, t, o)
    requires AttemptOk(cfg, w, DeliveryAttempt(s, w.logs[t].recs[o].eventId, t, o, n, status))
    ensures Invariant(cfg, RecordAttempt(w, s, t, o, n, status)) && Grows(w, RecordAttempt(w, s, t, o, n, status))
    ensures status != Retry ==> Finished(RecordAttempt(w, s, t, o, n, status), s, t, o)
  {
    hide Invariant, Grows, ItemOk, TaskOk, AccountedUpTo, AttemptOk;
    var v := RecordAttempt(w, s, t, o, n, status);
    var a := DeliveryAttempt(s, w.logs[t].recs[o].eventId, t, o, n, status);
    InvariantStores(cfg, w);
    RecordGrows(w, v, a);
    assert Ends(v.attempts[|w.attempts|], s, t, o) || status == Retry;
    assert LogsOk(v) && SubsOk(v);
    hide LogsOk, SubsOk;
    AttemptStays(cfg, w, v, a);
    Frame(cfg, w, v);
  }

  lemma EnqueueGrows(w: World, item: RetryItem)
    requires item.retryId !in w.hist.issued && item.retryId !in w.queue
    ensures Grows(w, Enqueue(w, item))
    ensures Accounted(Enqueue(w, item), item.sub, item.topic, item.offset)
  {
    var v := Enqueue(w, item);
    forall q | q in w.queue ensures StillHeld(w.queue[q], q, v) {
      assert Holds(v.queue[q], w.queue[q].sub, w.queue[q].topic, w.queue[q].offset);
    }
    assert Holds(v.queue[item.retryId], item.sub, item.topic, item.offset);
  }

  lemma QueueIds(cfg: Config, w: World)
    requires Invariant(cfg, w)
    ensures forall q :: q in w.queue ==> w.queue[q].retryId == q && q in w.hist.issued
  {
    hide AccountedUpTo, LogsOk, SubsOk, NothingLost, AttemptOk, TaskOk, Deliverable;
    forall q | q in w.queue ensures q in w.hist.issued { assert ItemOk(cfg, w, w.queue[q]); }
  }

  /** Handing an event to the retry queue accounts for it. */
  lemma EnqueueOk(cfg: Config, w: World, item: RetryItem)
    requires Invariant(cfg, w) && item.retryId !in w.hist.issued
    requires Deliverable(w, item.sub, item.topic, item.offset)
    requires 1 <= item.attempt < cfg.maxAttempts && AccountedUpTo(w, item.sub, item.topic, item.offset - 1)
    ensures Invariant(cfg, Enqueue(w, item)) && Grows(w, Enqueue(w, item))
    ensures Accounted(Enqueue(w, item), item.sub, item.topic, item.offset)
  {
    hide Invariant, Grows, TaskOk, AttemptOk, Accounted;
    var v := Enqueue(w, item);
    InvariantStores(cfg, w);
    assert item.retryId !in w.queue by { QueueIds(cfg, w); }
    EnqueueGrows(w, item);
    UpToStays(w, v, item.sub, item.topic, item.offset - 1);
    UpToNext(v, item.sub, item.topic, item.offset);
    hide AccountedUpTo;
    DeliverableStays(w, v, item.sub, item.topic, item.offset);
    assert ItemOk(cfg, v, item);
    assert LogsOk(v) && SubsOk(v);
    hide LogsOk, SubsOk, ItemOk;
    Frame(cfg, w, v);
  }

  predicate Requeued(cfg: Config, a: RetryItem, b: RetryItem) {
    b.retryId == a.retryId && Holds(b, a.sub, a.topic, a.offset) && 1 <= b.attempt < cfg.maxAttempts
  }

  lemma InvariantItem(cfg: Config, w: World, q: string)
    requires Invariant(cfg, w) && q in w.queue
    ensures w.queue[q].retryId == q && ItemOk(cfg, w, w.queue[q])
  {
    hide ItemOk;
  }

  lemma RequeuedOk(cfg: Config, w: World, a: RetryItem, b: RetryItem)
    requires ItemOk(cfg, w, a) && Requeued(cfg, a, b)
    ensures ItemOk(cfg, w, b) && b.retryId == a.retryId
  {
    hide AccountedUpTo, Deliverable;
  }

  /** Queued items may be leased or rescheduled, and removed once settled. */
  lemma QueueChange(cfg: Config, w: World, v: World)
    requires Invariant(cfg, w) && v == w.(queue := v.queue)
    requires forall q :: q in v.queue ==> q in w.queue && Requeued(cfg, w.queue[q], v.queue[q])
    requires forall q :: q in w.queue && q !in v.queue ==>
               Settled(w, w.queue[q].sub, w.queue[q].topic, w.queue[q].offset)
    ensures Invariant(cfg, v) && Grows(w, v)
  {
    hide Invariant, Grows, Settled, Requeued, AttemptOk, TaskOk, AccountedUpTo;
    InvariantStores(cfg, w);
    QueueChangeGrows(cfg, w, v);
    assert LogsOk(v) && SubsOk(v);
    hide LogsOk, SubsOk, ItemOk;
    forall q | q in v.queue ensures v.queue[q].retryId == q && ItemOk(cfg, v, v.queue[q]) {
      InvariantItem(cfg, w, q);
      ItemStays(cfg, w, v, w.queue[q]);
      RequeuedOk(cfg, v, w.queue[q], v.queue[q]);
    }
    Frame(cfg, w, v);
  }

  lemma QueueChangeGrows(cfg: Config, w: World, v: World)
    requires v == w.(queue := v.queue)
    requires forall q :: q in v.queue ==> q in w.queue && Requeued(cfg, w.queue[q], v.queue[q])
    requires forall q :: q in w.queue && q !in v.queue ==>
               Settled(w, w.queue[q].sub, w.queue[q].topic, w.queue[q].offset)
    ensures Grows(w, v)
  {
    forall q | q in w.queue ensures StillHeld(w.queue[q], q, v) {
      if q in v.queue {
        assert Requeued(cfg, w.queue[q], v.queue[q]);
      } else {
        SettledWithoutQueue(w, v, w.queue[q].sub, w.queue[q].topic, w.queue[q].offset);
      }
    }
  }

  lemma SettledWithoutQueue(w: World, v: World, s: string, t: string, o: int)
    requires v == w.(queue := v.queue) && Settled(w, s, t, o)
    ensures Settled(v, s, t, o)
  {
    if Finished(w, s, t, o) {
      var i :| 0 <= i < |w.attempts| && Ends(w.attempts[i], s, t, o);
      assert Ends(v.attempts[i], s, t, o);
    }
  }

  /** What a delivery step leaves behind: the next phase in order, or the event accounted for. */
  ghost predicate Handled(cfg: Config, v: World, s: string, t: string, o: nat, phase: Phase, next: Option<Phase>)
    requires Deliverable(v, s, t, o)
  {
    match next
    case Some(p) => PhaseOk(cfg, v, s, t, o, p) && (p.HandedMark? ==> phase.HandOver?)
    case None => Accounted(v, s, t, o) && (phase.HandedMark? || Settled(v, s, t, o))
  }

  lemma SendPhaseOk(cfg: Config, w: World, s: string, t: string, o: nat, n: nat, inp: Input)
    requires Invariant(cfg, w) && Deliverable(w, s, t, o) && 1 <= n <= cfg.maxAttempts && (inp.ack ==> inp.taken)
    ensures var v := Effect(cfg, w, s, t, o, Sending(n), inp);
      && Invariant(cfg, v) && Grows(w, v) && Deliverable(v, s, t, o)
      && PhaseOk(cfg, v, s, t, o, Sent(n, inp.ack, inp.retry))
  {
    hide Invariant, Grows, Receive;
    if inp.taken {
      ReceiveOk(cfg, w, w.subs[s].endpoint, w.logs[t].recs[o].eventId);
    } else {
      SelfSame(w);
      SameStoresGrow(w, w);
    }
    DeliverableStays(w, Effect(cfg, w, s, t, o, Sending(n), inp), s, t, o);
  }

  lemma RecordPhaseOk(cfg: Config, w: World, s: string, t: string, o: nat, n: nat, ack: bool, retry: bool, inp: Input)
    requires Invariant(cfg, w) && Deliverable(w, s, t, o) && PhaseOk(cfg, w, s, t, o, Sent(n, ack, retry))
    ensures var v := Effect(cfg, w, s, t, o, Sent(n, ack, retry), inp);
      && Invariant(cfg, v) && Grows(w, v) && Deliverable(v, s, t, o)
      && Handled(cfg, v, s, t, o, Sent(n, ack, retry), NextPhase(cfg, w, s, t, Sent(n, ack, retry), inp))
  {
    hide Invariant, Grows, RecordAttempt, Finished, Accounted, Settled;
    RecordOk(cfg, w, s, t, o, n, StatusOf(cfg, n, ack, retry));
    DeliverableStays(w, Effect(cfg, w, s, t, o, Sent(n, ack, retry), inp), s, t, o);
  }

  lemma AckPhaseOk(cfg: Config, w: World, s: string, t: string, o: nat, phase: Phase, inp: Input)
    requires Invariant(cfg, w) && Deliverable(w, s, t, o) && Finished(w, s, t, o)
        && (phase.Acknowledge? || phase.ReadMark?)
    ensures var v := Effect(cfg, w, s, t, o, phase, inp);
      && Invariant(cfg, v) && Grows(w, v) && Deliverable(v, s, t, o)
      && Handled(cfg, v, s, t, o, phase, NextPhase(cfg, w, s, t, phase, inp))
  {
    hide Invariant, Grows, AdvanceCursor, Finished, Accounted, Settled;
    var v := Effect(cfg, w, s, t, o, phase, inp);
    if phase.Acknowledge? {
      AdvanceCursorOk(cfg, w, s, t, Encode(t, o));
    } else {
      SelfSame(w);
      SameStoresGrow(w, w);
    }
    DeliverableStays(w, v, s, t, o);
    FinishedStays(w, v, s, t, o);
  }

  lemma FinishedStays(w: World, v: World, s: string, t: string, o: int)
    requires Grows(w, v) && Finished(w, s, t, o)
    ensures Finished(v, s, t, o)
  {
    var i :| 0 <= i < |w.attempts| && Ends(w.attempts[i], s, t, o);
    assert v.attempts[i] == w.attempts[i];
  }

  lemma QueuePhaseOk(cfg: Config, w: World, s: string, t: string, o: nat, n: nat, inp: Input)
    requires Invariant(cfg, w) && Deliverable(w, s, t, o) && AccountedUpTo(w, s, t, o - 1) && 1 <= n < cfg.maxAttempts
    requires inp.retryId !in w.hist.issued
    ensures var v := Effect(cfg, w, s, t, o, HandOver(n), inp);
      && Invariant(cfg, v) && Grows(w, v) && Deliverable(v, s, t, o)
      && Handled(cfg, v, s, t, o, HandOver(n), NextPhase(cfg, w, s, t, HandOver(n), inp))
  {
    hide Invariant, Grows, Enqueue, Accounted, AccountedUpTo;
    if cfg.queued {
      EnqueueOk(cfg, w, RetryItem(inp.retryId, s, t, o, w.logs[t].recs[o].eventId, 1, inp.at));
    } else {
      SelfSame(w);
      SameStoresGrow(w, w);
    }
    DeliverableStays(w, Effect(cfg, w, s, t, o, HandOver(n), inp), s, t, o);
  }

  lemma MarkPhaseOk(cfg: Config, w: World, s: string, t: string, o: nat, phase: Phase, inp: Input)
    requires Invariant(cfg, w) && Deliverable(w, s, t, o) && AccountedUpTo(w, s, t, o - 1)
        && PhaseOk(cfg, w, s, t, o, phase)
    requires phase.WriteMark? || phase.BuryMark? || phase.HandedMark?
    ensures var v := Effect(cfg, w, s, t, o, phase, inp);
      && Invariant(cfg, v) && Grows(w, v) && Deliverable(v, s, t, o)
      && Handled(cfg, v, s, t, o, phase, NextPhase(cfg, w, s, t, phase, inp))
  {
    hide Invariant, Grows, SetMark, AccountedUpTo, Finished;
    MarkStepOk(cfg, w, s, t, o, if phase.WriteMark? then o > phase.mark else true);
  }

  /** One step of delivering one event keeps the invariant and accounts for the event at its end. */
  lemma EffectOk(cfg: Config, w: World, s: string, t: string, o: nat, phase: Phase, inp: Input)
    requires Invariant(cfg, w)
    requires Deliverable(w, s, t, o) && AccountedUpTo(w, s, t, o - 1) && PhaseOk(cfg, w, s, t, o, phase)
    requires inp.ack ==> inp.taken
    requires inp.retryId !in w.hist.issued
    ensures var v := Effect(cfg, w, s, t, o, phase, inp);
      && Invariant(cfg, v)
      && Grows(w, v)
      && Deliverable(v, s, t, o)
      && Handled(cfg, v, s, t, o, phase, NextPhase(cfg, w, s, t, phase, inp))
  {
    hide Invariant, Grows, Effect, AccountedUpTo, Finished, Accounted;
    match phase
    case Sending(n) => SendPhaseOk(cfg, w, s, t, o, n, inp);
    case Sent(n, ack, retry) => RecordPhaseOk(cfg, w, s, t, o, n, ack, retry, inp);
    case Acknowledge => AckPhaseOk(cfg, w, s, t, o, phase, inp);
    case ReadMark => AckPhaseOk(cfg, w, s, t, o, phase, inp);
    case WriteMark(_) => MarkPhaseOk(cfg, w, s, t, o, phase, inp);
    case BuryMark => MarkPhaseOk(cfg, w, s, t, o, phase, inp);
    case HandOver(n) => QueuePhaseOk(cfg, w, s, t, o, n, inp);
    case HandedMark => MarkPhaseOk(cfg, w, s, t, o, phase, inp);
  }

  /** The high-water write at the end of a delivery. */
  lemma MarkStepOk(cfg: Config, w: World, s: string, t: string, o: nat, write: bool)
    requires Invariant(cfg, w)
    requires Deliverable(w, s, t, o) && AccountedUpTo(w, s, t, o - 1) && Accounted(w, s, t, o)
    ensures var v := if write then SetMark(w, s, t, o) else w;
      && Invariant(cfg, v)
      && Grows(w, v)
      && Deliverable(v, s, t, o)
      && Accounted(v, s, t, o)
      && (Settled(w, s, t, o) ==> Settled(v, s, t, o))
  {
    var v := if write then SetMark(w, s, t, o) else w;
    UpToNext(w, s, t, o);
    if write { SetMarkOk(cfg, w, s, t, o); } else { SameStoresGrow(w, v); }
    AccountedStays(w, v, s, t, o);
    if Settled(w, s, t, o) { SettledStays(w, v, s, t, o); }
  }

  // --- Every event keeps the invariant ------------------------------------------------------

  lemma SetTaskOk(cfg: Config, w: World, id: string, task: Task)
    requires Invariant(cfg, w) && TaskOk(cfg, w, task)
    ensures Invariant(cfg, SetTask(w, id, task))
  {
    MoveTasks(cfg, w, SetTask(w, id, task));
  }

  lemma EndTaskOk(cfg: Config, w: World, id: string)
    requires Invariant(cfg, w)
    ensures Invariant(cfg, EndTask(w, id))
  {
    MoveTasks(cfg, w, EndTask(w, id));
  }

  lemma ReleaseOk(cfg: Config, w: World, id: string, s: string)
    requires Invariant(cfg, w)
    ensures Invariant(cfg, Release(w, id, s))
  {
    MoveTasks(cfg, w, Release(w, id, s));
  }

  /** Past a position everything before the page is either behind the position or aged. */
  lemma GapAged(w: World, s: string, t: string, position: int, lo: int)
    requires LogsOk(w) && t in w.logs && AccountedUpTo(w, s, t, position)
    requires SubsOk(w) && position < lo <= |w.logs[t].recs|
    requires lo <= Max(position + 1, w.logs[t].FirstLive(w.clock))
    ensures AccountedUpTo(w, s, t, lo - 1)
  {
    forall o | Start(w, s, t) < o <= lo - 1 ensures Accounted(w, s, t, o) {
      if o > position { assert Aged(w, t, o); }
    }
  }

  lemma OpenPageOk(cfg: Config, w: World, id: string, s: string, topics: seq<string>, page: Page, position: int)
    requires Invariant(cfg, w) && s in w.subs && topics != [] && topics[0] in w.logs
    requires forall t :: t in topics ==> t in w.subs[s].topics
    requires page.Range? && page.lo <= page.hi <= |w.logs[topics[0]].recs|
    requires page.lo < page.hi ==> position < page.lo && AccountedUpTo(w, s, topics[0], page.lo - 1)
    ensures Invariant(cfg, OpenPage(w, id, s, topics, page, position))
  {
    var v := OpenPage(w, id, s, topics, page, position);
    assert TaskOk(cfg, w, v.tasks[id]);
    MoveTasks(cfg, w, v);
  }

  lemma FetchingOk(cfg: Config, w: World, id: string, s: string, topics: seq<string>, position: int, inp: Input)
    requires Invariant(cfg, w) && TaskOk(cfg, w, Dispatching(s, topics, On(Fetching(position))))
    ensures Invariant(cfg, RunCatchUp(cfg, w, id, s, topics, Fetching(position), inp))
  {
    var t := topics[0];
    var log := w.logs[t];
    var page := Fetch(log, w.clock, position, |log.recs|, cfg.pageSize);
    if page.Stale? {
      assert Aged(w, t, position);
      hide Invariant;
      SetTaskOk(cfg, w, id, Dispatching(s, topics, On(Refetching(position))));
    } else {
      if page.lo < page.hi { GapAged(w, s, t, position, page.lo); }
      hide Invariant;
      OpenPageOk(cfg, w, id, s, topics, page, position);
    }
  }

  lemma RefetchingOk(cfg: Config, w: World, id: string, s: string, topics: seq<string>, position: int, inp: Input)
    requires Invariant(cfg, w) && TaskOk(cfg, w, Dispatching(s, topics, On(Refetching(position))))
    ensures Invariant(cfg, RunCatchUp(cfg, w, id, s, topics, Refetching(position), inp))
  {
    var t := topics[0];
    var log := w.logs[t];
    var page := Fetch(log, w.clock, -1, |log.recs|, cfg.pageSize);
    if page.lo < page.hi {
      LiveTail(log, w.clock);
      GapAged(w, s, t, position, page.lo);
    }
    hide Invariant;
    OpenPageOk(cfg, w, id, s, topics, page, position);
  }

  lemma ScanningOk(cfg: Config, w: World, id: string, s: string, topics: seq<string>,
                   next: nat, hi: nat, scan: int, inp: Input)
    requires Invariant(cfg, w) && TaskOk(cfg, w, Dispatching(s, topics, On(Scanning(next, hi, scan))))
    ensures Invariant(cfg, RunCatchUp(cfg, w, id, s, topics, Scanning(next, hi, scan), inp))
  {
    var t := topics[0];
    if next < hi && !Matched(w, s, t, next) { UpToNext(w, s, t, next); }
    assert cfg.maxAttempts >= 1;
    hide Invariant;
    if next >= hi {
      SetTaskOk(cfg, w, id, Dispatching(s, topics, On(Settling(scan))));
    } else if Matched(w, s, t, next) {
      SetTaskOk(cfg, w, id, Dispatching(s, topics, On(Handling(next, hi, Sending(1)))));
    } else {
      SetTaskOk(cfg, w, id, Dispatching(s, topics, On(Scanning(next + 1, hi, next))));
    }
  }

  lemma CatchUpOk(cfg: Config, w: World, id: string, s: string, topics: seq<string>, stage: PageStage, inp: Input)
    requires Invariant(cfg, w) && TaskOk(cfg, w, Dispatching(s, topics, On(stage)))
    requires (inp.ack ==> inp.taken) && inp.retryId !in w.hist.issued
    ensures Invariant(cfg, RunCatchUp(cfg, w, id, s, topics, stage, inp))
  {
    hide Invariant;
    var t := topics[0];
    match stage
    case Fetching(position) => FetchingOk(cfg, w, id, s, topics, position, inp);
    case Refetching(position) => RefetchingOk(cfg, w, id, s, topics, position, inp);
    case Scanning(next, hi, scan) => ScanningOk(cfg, w, id, s, topics, next, hi, scan, inp);
    case Handling(next, hi, phase) => HandlingOk(cfg, w, id, s, topics, next, hi, phase, inp);
    case Settling(scan) => SetTaskOk(cfg, w, id, Dispatching(s, topics, On(SettleMark(scan, Mark(w, s, t)))));
    case SettleMark(scan, mark) =>
      var v := if scan > mark then SetMark(w, s, t, scan) else w;
      if scan > mark { SetMarkOk(cfg, w, s, t, scan); }
      SetTaskOk(cfg, v, id, Dispatching(s, topics, Position));
  }

  lemma TopicsStay(w: World, v: World, s: string, topics: seq<string>)
    requires Grows(w, v) && s in w.subs && forall t :: t in topics ==> t in w.subs[s].topics
    ensures s in v.subs && forall t :: t in topics ==> t in v.subs[s].topics
    ensures topics != [] && topics[0] in w.logs ==>
              topics[0] in v.logs && |w.logs[topics[0]].recs| <= |v.logs[topics[0]].recs|
  {
  }

  lemma HandlingOk(cfg: Config, w: World, id: string, s: string, topics: seq<string>,
                   next: nat, hi: nat, phase: Phase, inp: Input)
    requires Invariant(cfg, w) && TaskOk(cfg, w, Dispatching(s, topics, On(Handling(next, hi, phase))))
    requires (inp.ack ==> inp.taken) && inp.retryId !in w.hist.issued
    ensures Invariant(cfg, RunCatchUp(cfg, w, id, s, topics, Handling(next, hi, phase), inp))
  {
    hide Invariant, Grows, Effect, AccountedUpTo, Finished, Accounted, Settled, SetTask;
    var t := topics[0];
    var v := Effect(cfg, w, s, t, next, phase, inp);
    EffectOk(cfg, w, s, t, next, phase, inp);
    UpToStays(w, v, s, t, next - 1);
    TopicsStay(w, v, s, topics);
    var n := NextPhase(cfg, w, s, t, phase, inp);
    hide NextPhase, PhaseOk;
    match n
    case Some(p) =>
      SetTaskOk(cfg, v, id, Dispatching(s, topics, On(Handling(next, hi, p))));
    case None =>
      UpToNext(v, s, t, next);
      SetTaskOk(cfg, v, id, Dispatching(s, topics, On(Scanning(next + 1, hi, next))));
  }

  lemma LapsedOk(cfg: Config, w: World, s: string)
    requires Invariant(cfg, w)
    ensures Invariant(cfg, w.(hist := w.hist.(lapsed := w.hist.lapsed + {s})))
  {
    hide Invariant, Grows;
    AsideOk(cfg, w, w.(hist := w.hist.(lapsed := w.hist.lapsed + {s})));
  }

  lemma CheckingOk(cfg: Config, w: World, id: string, inp: Input)
    requires Invariant(cfg, w) && id in w.tasks && w.tasks[id].Dispatching? && w.tasks[id].stage.Checking?
    requires TaskOk(cfg, w, w.tasks[id])
    ensures Invariant(cfg, RunDispatch(cfg, w, id, inp))
  {
    hide Invariant, Grows, SetTask, EndTask;
    var Dispatching(s, topics, stage) := w.tasks[id];
    var w1 := ExpireIfDue(w, s);
    var w2 := w1.(hist := w1.hist.(lapsed := w1.hist.lapsed + {s}));
    ExpireOk(cfg, w, s);
    LapsedOk(cfg, w1, s);
    TopicsStay(w, w1, s, topics);
    hide ExpireIfDue;
    SetTaskOk(cfg, w1, id, Dispatching(s, topics, Waiting));
    EndTaskOk(cfg, w2, id);
  }

  lemma LockingOk(cfg: Config, w: World, s: string, id: string)
    requires Invariant(cfg, w)
    ensures Invariant(cfg, w.(locks := w.locks[s := id]))
  {
    hide Invariant, Grows;
    AsideOk(cfg, w, w.(locks := w.locks[s := id]));
  }

  lemma DispatchOk(cfg: Config, w: World, id: string, inp: Input)
    requires Invariant(cfg, w) && id in w.tasks && w.tasks[id].Dispatching?
    requires (inp.ack ==> inp.taken) && inp.retryId !in w.hist.issued
    ensures Invariant(cfg, RunDispatch(cfg, w, id, inp))
  {
    hide Invariant, SetTask, PageOk, RunCatchUp;
    var Dispatching(s, topics, stage) := w.tasks[id];
    InvariantTask(cfg, w, id);
    match stage
    case Checking => CheckingOk(cfg, w, id, inp);
    case Waiting =>
      LockingOk(cfg, w, s, id);
      SetTaskOk(cfg, w.(locks := w.locks[s := id]), id, Dispatching(s, topics, Position));
    case Position =>
      if topics == [] {
        ReleaseOk(cfg, w, id, s);
      } else {
        InvariantStores(cfg, w);
        PositionOk(cfg, w, s, topics[0]);
        SetTaskOk(cfg, w, id, Dispatching(s, topics, On(Fetching(Mark(w, s, topics[0])))));
      }
    case On(page) => CatchUpOk(cfg, w, id, s, topics, page, inp);
  }

  /** A stored high-water mark is a position a catch-up may start from. */
  lemma PositionOk(cfg: Config, w: World, s: string, t: string)
    requires Invariant(cfg, w) && s in w.subs && t in w.subs[s].topics
    ensures PageOk(cfg, w, s, t, Fetching(Mark(w, s, t)))
  {
    assert AccountedUpTo(w, s, t, Mark(w, s, t));
  }

  // --- The retry worker ------------------------------------------------------------------------

  lemma NextItemOk(cfg: Config, w: World, id: string, rest: seq<RetryItem>)
    requires Invariant(cfg, w) && rest != []
    requires forall i :: 0 <= i < |rest| ==> ItemOk(cfg, w, rest[i])
    ensures Invariant(cfg, NextItem(w, id, rest))
  {
    SetTaskOk(cfg, w, id, Working(rest[1..], Reviewing));
  }

  lemma WorkOn(cfg: Config, w: World, id: string, rest: seq<RetryItem>, work: WorkStage)
    requires Invariant(cfg, w) && rest != []
    requires forall i :: 0 <= i < |rest| ==> ItemOk(cfg, w, rest[i])
    requires WorkOk(cfg, w, rest[0], work)
    ensures Invariant(cfg, SetTask(w, id, Working(rest, work)))
  {
    SetTaskOk(cfg, w, id, Working(rest, work));
  }

  lemma ItemsStay(cfg: Config, w: World, v: World, rest: seq<RetryItem>)
    requires Grows(w, v) && forall i :: 0 <= i < |rest| ==> ItemOk(cfg, w, rest[i])
    ensures forall i :: 0 <= i < |rest| ==> ItemOk(cfg, v, rest[i])
  {
    forall i | 0 <= i < |rest| ensures ItemOk(cfg, v, rest[i]) { ItemStays(cfg, w, v, rest[i]); }
  }

  lemma DropOk(cfg: Config, w: World, id: string, rest: seq<RetryItem>)
    requires Invariant(cfg, w) && rest != []
    requires forall i :: 0 <= i < |rest| ==> ItemOk(cfg, w, rest[i])
    ensures var spot := Spot(rest[0].sub, rest[0].topic, rest[0].offset);
      Invariant(cfg, SetTask(w.(hist := w.hist.(dropped := w.hist.dropped + {spot})), id, Working(rest, Completing)))
  {
    var spot := Spot(rest[0].sub, rest[0].topic, rest[0].offset);
    var v := w.(hist := w.hist.(dropped := w.hist.dropped + {spot}));
    hide Invariant, Grows, ItemOk, SetTask;
    AsideOk(cfg, w, v);
    ItemsStay(cfg, w, v, rest);
    assert WorkOk(cfg, v, rest[0], Completing);
    hide WorkOk;
    WorkOn(cfg, v, id, rest, Completing);
  }

  /** Loading an event by its cursor fails only when the event has left retention. */
  lemma LoadingOk(cfg: Config, w: World, id: string, rest: seq<RetryItem>, work: WorkStage, inp: Input)
    requires Invariant(cfg, w) && id in w.tasks && w.tasks[id] == Working(rest, work) && rest != []
    requires TaskOk(cfg, w, w.tasks[id]) && (work.Loading? || work.Reloading?)
    ensures Invariant(cfg, RunWork(cfg, w, id, inp))
  {
    hide Invariant, AccountedUpTo, Grows, SetTask;
    var item := rest[0];
    InvariantStores(cfg, w);
    assert ItemOk(cfg, w, item) && w.logs[item.topic].Ordered();
    hide LogsOk, SubsOk, ItemOk;
    LiveTail(w.logs[item.topic], w.clock);
    if work.Loading? {
      match Fetch(w.logs[item.topic], w.clock, item.offset - 1, item.offset, 1)
      case Stale => WorkOn(cfg, w, id, rest, Reloading);
      case Range(lo, hi) =>
        if lo < hi && lo == item.offset {
          WorkOn(cfg, w, id, rest, Redelivering(Sending(item.attempt + 1)));
        } else {
          assert Aged(w, item.topic, item.offset);
          WorkOn(cfg, w, id, rest, Completing);
        }
    } else {
      var page := Fetch(w.logs[item.topic], w.clock, -1, item.offset, 1);
      if page.Range? && page.lo < page.hi && page.lo == item.offset {
        WorkOn(cfg, w, id, rest, Redelivering(Sending(item.attempt + 1)));
      } else {
        assert Aged(w, item.topic, item.offset);
        WorkOn(cfg, w, id, rest, Completing);
      }
    }
  }

  lemma ItemAccounted(cfg: Config, w: World, item: RetryItem)
    requires ItemOk(cfg, w, item)
    ensures Deliverable(w, item.sub, item.topic, item.offset)
    ensures AccountedUpTo(w, item.sub, item.topic, item.offset - 1)
  {
    hide Accounted;
  }

  lemma RedeliveringOk(cfg: Config, w: World, id: string, rest: seq<RetryItem>, phase: Phase, inp: Input)
    requires Invariant(cfg, w) && id in w.tasks && w.tasks[id] == Working(rest, Redelivering(phase)) && rest != []
    requires TaskOk(cfg, w, w.tasks[id]) && (inp.ack ==> inp.taken) && inp.retryId !in w.hist.issued
    ensures Invariant(cfg, RunWork(cfg, w, id, inp))
  {
    hide Invariant, Grows, Effect, AccountedUpTo, Finished, Accounted, Settled, SetTask, ItemOk;
    var item := rest[0];
    if phase.HandOver? {
      if item.retryId in w.queue {
        var v := w.(queue := w.queue[item.retryId :=
                      w.queue[item.retryId].(attempt := phase.n, nextRetryAt := inp.at)]);
        RescheduleOk(cfg, w, v, item.retryId);
        ItemsStay(cfg, w, v, rest);
        NextItemOk(cfg, v, id, rest);
      } else {
        NextItemOk(cfg, w, id, rest);
      }
    } else {
      var v := Effect(cfg, w, item.sub, item.topic, item.offset, phase, inp);
      ItemAccounted(cfg, w, item);
      EffectOk(cfg, w, item.sub, item.topic, item.offset, phase, inp);
      ItemsStay(cfg, w, v, rest);
      var n := NextPhase(cfg, w, item.sub, item.topic, phase, inp);
      hide NextPhase, PhaseOk;
      match n
      case Some(p) => WorkOn(cfg, v, id, rest, Redelivering(p));
      case None => WorkOn(cfg, v, id, rest, Completing);
    }
  }

  lemma RescheduleOk(cfg: Config, w: World, v: World, q: string)
    requires Invariant(cfg, w) && v == w.(queue := v.queue) && q in w.queue && q in v.queue
    requires v.queue == w.queue[q := v.queue[q]] && Requeued(cfg, w.queue[q], v.queue[q])
    ensures Invariant(cfg, v) && Grows(w, v)
  {
    hide Invariant, Grows, Requeued, Settled;
    forall p | p in v.queue ensures p in w.queue && Requeued(cfg, w.queue[p], v.queue[p]) {
      InvariantItem(cfg, w, p);
      ItemRequeued(cfg, w, w.queue[p]);
    }
    QueueChange(cfg, w, v);
  }

  lemma ItemRequeued(cfg: Config, w: World, item: RetryItem)
    requires ItemOk(cfg, w, item)
    ensures Requeued(cfg, item, item)
  {
    hide AccountedUpTo, Deliverable;
  }

  lemma SameSpot(cfg: Config, w: World, a: RetryItem, b: RetryItem)
    requires ItemOk(cfg, w, a) && ItemOk(cfg, w, b) && a.retryId == b.retryId
    ensures Holds(b, a.sub, a.topic, a.offset)
  {
    hide AccountedUpTo, Deliverable;
  }

  /** A completed item is the one that was claimed: retry ids are never reused. */
  lemma CompletingOk(cfg: Config, w: World, id: string, rest: seq<RetryItem>, inp: Input)
    requires Invariant(cfg, w) && id in w.tasks && w.tasks[id] == Working(rest, Completing) && rest != []
    requires TaskOk(cfg, w, w.tasks[id])
    ensures Invariant(cfg, RunWork(cfg, w, id, inp))
  {
    hide Invariant, Grows, Settled, SetTask, Requeued;
    var r := rest[0].retryId;
    var v := w.(queue := w.queue - {r});
    forall p | p in v.queue ensures p in w.queue && Requeued(cfg, w.queue[p], v.queue[p]) {
      InvariantItem(cfg, w, p);
      ItemRequeued(cfg, w, w.queue[p]);
    }
    assert ItemOk(cfg, w, rest[0]);
    if r in w.queue {
      InvariantItem(cfg, w, r);
      SameSpot(cfg, w, rest[0], w.queue[r]);
    }
    hide ItemOk;
    QueueChange(cfg, w, v);
    ItemsStay(cfg, w, v, rest);
    NextItemOk(cfg, v, id, rest);
  }

  // --- The other calls ------------------------------------------------------------------------

  lemma InvariantTask(cfg: Config, w: World, id: string)
    requires Invariant(cfg, w) && id in w.tasks
    ensures TaskOk(cfg, w, w.tasks[id])
  {
    hide TaskOk;
  }

  lemma WorkKeeps(cfg: Config, w: World, id: string, inp: Input)
    requires Invariant(cfg, w) && id in w.tasks && w.tasks[id].Working?
    requires (inp.ack ==> inp.taken) && inp.retryId !in w.hist.issued
    ensures Invariant(cfg, RunWork(cfg, w, id, inp))
  {
    hide Invariant, SetTask, ItemOk, Settled;
    var Working(rest, work) := w.tasks[id];
    InvariantTask(cfg, w, id);
    if rest == [] {
      EndTaskOk(cfg, w, id);
    } else {
      match work
      case Reviewing =>
        var item := rest[0];
        if item.sub !in w.subs || w.subs[item.sub].status != Active { DropOk(cfg, w, id, rest); }
        else { WorkOn(cfg, w, id, rest, Loading); }
      case Loading => LoadingOk(cfg, w, id, rest, work, inp);
      case Reloading => LoadingOk(cfg, w, id, rest, work, inp);
      case Redelivering(phase) => RedeliveringOk(cfg, w, id, rest, phase, inp);
      case Completing => CompletingOk(cfg, w, id, rest, inp);
    }
  }

  lemma AcceptAckOk(cfg: Config, w: World, spot: Spot)
    requires Invariant(cfg, w)
    ensures Invariant(cfg, w.(hist := w.hist.(acked := w.hist.acked + {spot})))
  {
    hide Invariant, Grows;
    AsideOk(cfg, w, w.(hist := w.hist.(acked := w.hist.acked + {spot})));
  }

  lemma AckMarkOk(cfg: Config, w: World, s: string, t: string, o: nat)
    requires Invariant(cfg, w) && s in w.subs
    ensures Invariant(cfg, AckMark(w, s, t, o))
  {
    hide Invariant;
    var x := w.(hist := w.hist.(acked := w.hist.acked + {Spot(s, t, o)}));
    AcceptAckOk(cfg, w, Spot(s, t, o));
    forall k | Start(x, s, t) < k <= o ensures Accounted(x, s, t, k) {
      assert Spot(s, t, o) in x.hist.acked;
      assert AckedPast(x, s, t, k);
    }
    SetMarkOk(cfg, x, s, t, o);
    assert AckMark(w, s, t, o) == SetMark(x, s, t, o);
  }

  lemma AckKeeps(cfg: Config, w: World, id: string)
    requires Invariant(cfg, w) && id in w.tasks && w.tasks[id].Acking?
    ensures Invariant(cfg, RunAck(w, id))
  {
    var Acking(s, t, o, cursor, stage) := w.tasks[id];
    assert TaskOk(cfg, w, w.tasks[id]);
    hide Invariant;
    match stage
    case AckCursor =>
      var v := AdvanceCursor(w, s, t, cursor);
      AdvanceCursorOk(cfg, w, s, t, cursor);
      SetTaskOk(cfg, v, id, Acking(s, t, o, cursor, AckRead));
    case AckRead => SetTaskOk(cfg, w, id, Acking(s, t, o, cursor, AckWrite(Mark(w, s, t))));
    case AckWrite(mark) =>
      if o > mark { AckMarkOk(cfg, w, s, t, o); }
      EndTaskOk(cfg, if o > mark then AckMark(w, s, t, o) else w, id);
  }

  lemma AddGrows(w: World, s: string, sub: Subscription, starts: map<string, int>, taken: Taken)
    requires s !in w.subs
    ensures Grows(w, Added(w, s, sub, starts, taken))
  {
    hide StillHeld;
    HeldStill(w, Added(w, s, sub, starts, taken));
  }

  lemma AddOk(cfg: Config, w: World, s: string, sub: Subscription, starts: map<string, int>, taken: Taken)
    requires Invariant(cfg, w) && s !in w.subs
    requires forall t :: t in starts ==> starts[t] >= -1
    requires forall t :: t in sub.topics ==> t in w.logs
    ensures Invariant(cfg, Added(w, s, sub, starts, taken))
  {
    hide Invariant, Grows, AttemptOk, ItemOk, TaskOk, SameTerms;
    var v := Added(w, s, sub, starts, taken);
    InvariantStores(cfg, w);
    AddGrows(w, s, sub, starts, taken);
    assert LogsOk(v) && SubsOk(v);
    hide LogsOk, SubsOk, Accounted;
    forall s', t | s' in v.subs && t in v.subs[s'].topics
      ensures (s' in w.subs && Mark(v, s', t) == Mark(w, s', t)) || AccountedUpTo(v, s', t, Mark(v, s', t))
    {
      if s' == s { assert Mark(v, s, t) == Start(v, s, t); }
    }
    hide AccountedUpTo, Mark, Start;
    Frame(cfg, w, v);
  }

  lemma SubscribeKeeps(cfg: Config, w: World, id: string)
    requires Invariant(cfg, w) && id in w.tasks && w.tasks[id].Subscribing?
    ensures Invariant(cfg, RunSubscribe(cfg, w, id))
  {
    var Subscribing(s, sub, from, todo, starts, heads) := w.tasks[id];
    var taken := Taken(from, heads);
    assert TaskOk(cfg, w, w.tasks[id]);
    if todo != [] {
      hide Invariant;
      var t := todo[0];
      if t !in w.logs || StartOffset(w.logs[t], w.clock, t, from).None? {
        EndTaskOk(cfg, w, id);
      } else {
        var o := StartOffset(w.logs[t], w.clock, t, from).value;
        SetTaskOk(cfg, w, id,
                  Subscribing(s, sub, from, todo[1..], starts[t := o], heads[t := |w.logs[t].recs|]));
      }
    } else if s in w.subs {
      EndTaskOk(cfg, w, id);
    } else {
      var v := Added(w, s, sub, starts, taken);
      AddOk(cfg, w, s, sub, starts, taken);
      hide Invariant;
      if cfg.deferred { EndTaskOk(cfg, v, id); }
      else { SetTaskOk(cfg, v, id, Dispatching(s, sub.topics, Checking)); }
    }
  }

  lemma PublishKeeps(cfg: Config, w: World, id: string, inp: Input)
    requires Invariant(cfg, w) && id in w.tasks && w.tasks[id].Publishing?
    requires !cfg.deferred ==> Fanned(w, w.tasks[id].topic, inp.children)
    ensures Invariant(cfg, RunPublish(cfg, w, id, inp))
  {
    var v := RunPublish(cfg, w, id, inp);
    if !cfg.deferred {
      var t := w.tasks[id].topic;
      forall c | c in inp.children ensures TaskOk(cfg, w, Dispatching(inp.children[c], [t], Checking)) {
        assert inp.children[c] in Audience(w, t);
      }
    }
    MoveTasks(cfg, w, v);
  }

  lemma AppendGrows(w: World, v: World, topic: string, record: EventRecord)
    requires topic in w.logs
    requires v == w.(logs := w.logs[topic := w.logs[topic].(recs := w.logs[topic].recs + [record])])
    ensures Grows(w, v)
  {
    hide StillHeld;
    HeldStill(w, v);
  }

  lemma AppendOk(cfg: Config, w: World, topic: string, record: EventRecord)
    requires Invariant(cfg, w) && topic in w.logs
    requires record.topic == topic && record.offset == |w.logs[topic].recs| && record.createdAt == w.clock
    ensures Invariant(cfg, w.(logs := w.logs[topic := w.logs[topic].(recs := w.logs[topic].recs + [record])]))
  {
    hide Invariant, Grows, AttemptOk, ItemOk, TaskOk, AccountedUpTo;
    var log := w.logs[topic].(recs := w.logs[topic].recs + [record]);
    var v := w.(logs := w.logs[topic := log]);
    InvariantStores(cfg, w);
    AppendGrows(w, v, topic, record);
    assert LogsOk(v) && SubsOk(v);
    hide LogsOk, SubsOk;
    Frame(cfg, w, v);
  }

  lemma TickOk(cfg: Config, w: World, to: int)
    requires Invariant(cfg, w) && to >= w.clock
    ensures Invariant(cfg, w.(clock := to))
  {
    hide Invariant, Grows;
    AsideOk(cfg, w, w.(clock := to));
  }

  lemma LeaseOk(cfg: Config, w: World, claimed: seq<string>, leased: int)
    requires Invariant(cfg, w)
    ensures Invariant(cfg, Leased(w, claimed, leased)) && Grows(w, Leased(w, claimed, leased))
  {
    var v := Leased(w, claimed, leased);
    forall p | p in v.queue ensures p in w.queue && Requeued(cfg, w.queue[p], v.queue[p]) {
      assert ItemOk(cfg, w, w.queue[p]);
    }
    hide Invariant;
    QueueChange(cfg, w, v);
  }

  lemma StartWorkKeeps(cfg: Config, w: World, e: Event)
    requires Invariant(cfg, w) && e.StartWork? && Enabled(cfg, w, e)
    ensures Invariant(cfg, Apply(cfg, w, e))
  {
    var StartWork(task, claimed, leased) := e;
    var v := Leased(w, claimed, leased);
    var items := Apply(cfg, w, e).tasks[task].rest;
    assert forall i :: 0 <= i < |claimed| ==> claimed[i] in w.queue && ItemOk(cfg, w, w.queue[claimed[i]]);
    hide Invariant;
    LeaseOk(cfg, w, claimed, leased);
    forall i | 0 <= i < |items| ensures ItemOk(cfg, v, items[i]) {
      assert items[i] == w.queue[claimed[i]].(nextRetryAt := leased);
      ItemStays(cfg, w, v, w.queue[claimed[i]]);
    }
    SetTaskOk(cfg, v, task, Working(items, Reviewing));
  }

  lemma ExpireOk(cfg: Config, w: World, s: string)
    requires Invariant(cfg, w) && s in w.subs
    ensures Invariant(cfg, ExpireIfDue(w, s)) && Grows(w, ExpireIfDue(w, s)) && s in ExpireIfDue(w, s).subs
  {
    hide Invariant, Grows;
    SubsChange(cfg, w, ExpireIfDue(w, s));
  }

  lemma StartAckKeeps(cfg: Config, w: World, e: Event)
    requires Invariant(cfg, w) && e.StartAck? && Enabled(cfg, w, e)
    ensures Invariant(cfg, Apply(cfg, w, e))
  {
    hide Invariant, SetTask, Split, ExpireIfDue, Grows;
    var StartAck(task, id, cursor) := e;
    var w1 := ExpireIfDue(w, id);
    ExpireOk(cfg, w, id);
    if Split(cursor).Success? {
      var (t, o) := Split(cursor).value;
      SetTaskOk(cfg, w1, task, Acking(id, t, o, cursor, AckCursor));
    }
  }

  lemma RunKeeps(cfg: Config, w: World, task: string, inp: Input)
    requires Invariant(cfg, w) && Enabled(cfg, w, Run(task, inp))
    ensures Invariant(cfg, Apply(cfg, w, Run(task, inp)))
  {
    hide Invariant, RunWork, RunDispatch, RunAck, RunSubscribe, RunPublish, Fanned, Blocked;
    match w.tasks[task]
    case Publishing(_, _) => PublishKeeps(cfg, w, task, inp);
    case Subscribing(_, _, _, _, _, _) => SubscribeKeeps(cfg, w, task);
    case Dispatching(_, _, _) => DispatchOk(cfg, w, task, inp);
    case Working(_, _) => WorkKeeps(cfg, w, task, inp);
    case Acking(_, _, _, _, _) => AckKeeps(cfg, w, task);
  }

  lemma PublishCallOk(cfg: Config, w: World, e: Event)
    requires Invariant(cfg, w) && e.Publish? && e.topic in w.logs && Enabled(cfg, w, e)
    ensures Invariant(cfg, Apply(cfg, w, e))
  {
    hide Invariant, SetTask, Enabled;
    var log := w.logs[e.topic];
    var record := EventRecord(e.eventId, e.topic, |log.recs|, e.content, w.clock);
    AppendOk(cfg, w, e.topic, record);
    SetTaskOk(cfg, w.(logs := w.logs[e.topic := log.(recs := log.recs + [record])]),
              e.task, Publishing(e.topic, |log.recs|));
  }

  lemma CrashOk(cfg: Config, w: World)
    requires Invariant(cfg, w)
    ensures Invariant(cfg, w.(tasks := map[], locks := map[]))
  {
    hide Invariant, Grows;
    MoveTasks(cfg, w, w.(tasks := map[], locks := map[]));
  }

  /** No event that can happen breaks the invariant. */
  lemma EventKeeps(cfg: Config, w: World, e: Event)
    requires Invariant(cfg, w) && Enabled(cfg, w, e)
    ensures Invariant(cfg, Apply(cfg, w, e))
  {
    hide Invariant, SetTask, RunWork, RunDispatch, RunAck, RunSubscribe, RunPublish, Fresh, Fanned, Blocked, Split;
    match e
    case Tick(to) => TickOk(cfg, w, to);
    case Publish(_, _, _, _) => PublishCallOk(cfg, w, e);
    case Subscribe(task, id, sub, from) =>
      SetTaskOk(cfg, w, task, Subscribing(id, sub, from, sub.topics, map[], map[]));
    case StartDispatch(task, id, topics) => SetTaskOk(cfg, w, task, Dispatching(id, topics, Checking));
    case StartWork(_, _, _) => StartWorkKeeps(cfg, w, e);
    case StartAck(_, _, _) => StartAckKeeps(cfg, w, e);
    case Renew(id, _) => SubsChange(cfg, w, Apply(cfg, w, e));
    case Delete(id) => SubsChange(cfg, w, Apply(cfg, w, e));
    case Lapse(id) => ExpireOk(cfg, w, id);
    case Run(task, inp) => RunKeeps(cfg, w, task, inp);
    case Crash => CrashOk(cfg, w);
  }

  lemma {:induction false} RunsKeep(cfg: Config, w: World, es: seq<Event>)
    requires Invariant(cfg, w) && Possible(cfg, w, es)
    ensures Invariant(cfg, Outcome(cfg, w, es))
    decreases |es|
  {
    hide Invariant;
    if es != [] {
      EventKeeps(cfg, w, es[0]);
      RunsKeep(cfg, Apply(cfg, w, es[0]), es[1..]);
    }
  }

  lemma InitialOk(cfg: Config, w: World)
    requires Initial(w) && cfg.maxAttempts >= 1
    ensures Invariant(cfg, w)
  {
  }

  /**
   * In every run from a fresh publisher, nothing at or below a high-water mark is lost.  A run
   * may stop anywhere, so this holds after every single store write, and after every crash.
   */
  lemma NeverLost(cfg: Config, w: World, es: seq<Event>)
    requires Initial(w) && cfg.maxAttempts >= 1 && Possible(cfg, w, es)
    ensures NothingLost(Outcome(cfg, w, es))
  {
    InitialOk(cfg, w);
    RunsKeep(cfg, w, es);
  }
}
