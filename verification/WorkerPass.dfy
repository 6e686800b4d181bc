/** What one pass of the retry worker's code does to an event that one claimed item alone owes. */
module WorkerPass {
  import opened Contracts
  import opened Stream
  import opened Dispatch
  import opened NoLoss
  import opened Steps
  import opened Drops
  import EventStore
  import RetryQueue
  import Retries
  import R = Runtime

  /** The items were claimed from the queue: the same but for the time they are due. */
  ghost predicate Claimed(u: World, items: seq<RetryItem>) {
    && (forall i :: 0 <= i < |items| ==>
          && items[i].retryId in u.queue
          && items[i] == u.queue[items[i].retryId].(nextRetryAt := items[i].nextRetryAt))
    && forall i, j :: 0 <= i < j < |items| ==> items[i].retryId != items[j].retryId
  }

  /** Records stand in their topic's log at their own offset. */
  ghost predicate Shaped(u: World) {
    forall t, o :: t in u.logs && 0 <= o < |u.logs[t].recs| ==>
      u.logs[t].recs[o].topic == t && u.logs[t].recs[o].offset == o
  }

  /** The processed item of that index ended the event with a final attempt. */
  ghost predicate Ending(u: World, items: seq<RetryItem>, ends: seq<Option<AttemptStatus>>, j: nat, s: string,
                         t: string, o: nat)
    requires |ends| <= |items|
  {
    j < |ends| && Holds(items[j], s, t, o) && ends[j].Some? && ends[j] != Some(Retry) && Retries.StillLive(u, t, o)
  }

  lemma MadeEnds(u: World, item: RetryItem, end: Option<AttemptStatus>, s: string, t: string, o: nat)
    requires Shaped(u)
    ensures (exists a :: a in Retries.Made(u, item, end) && Ends(a, s, t, o))
       <==> Holds(item, s, t, o) && end.Some? && end != Some(Retry) && Retries.StillLive(u, t, o)
  {
    if end.Some? && Retries.StillLive(u, item.topic, item.offset) {
      var record := u.logs[item.topic].recs[item.offset];
      var a := DeliveryAttempt(item.sub, record.eventId, record.topic, record.offset, item.attempt + 1, end.value);
      assert Retries.Made(u, item, end) == [a];
      assert a in Retries.Made(u, item, end);
    }
  }

  /** The pass records a final attempt at an event exactly when one of its items ended it. */
  lemma {:induction false} PassEnds(u: World, items: seq<RetryItem>, ends: seq<Option<AttemptStatus>>, s: string,
                                    t: string, o: nat)
    requires |ends| <= |items| && Shaped(u)
    ensures (exists a :: a in Retries.AllMade(u, items, ends) && Ends(a, s, t, o))
       <==> exists j: nat :: Ending(u, items, ends, j, s, t, o)
  {
    hide Ends, Retries.Made, Retries.StillLive, Shaped, Holds;
    if ends != [] {
      var k := |ends| - 1;
      var less := ends[..k];
      PassEnds(u, items, less, s, t, o);
      MadeEnds(u, items[k], ends[k], s, t, o);
      assert forall j: nat :: j < k ==> Ending(u, items, ends, j, s, t, o) == Ending(u, items, less, j, s, t, o);
      assert Retries.AllMade(u, items, ends) == Retries.AllMade(u, items, less) + Retries.Made(u, items[k], ends[k]);
      if exists a :: a in Retries.Made(u, items[k], ends[k]) && Ends(a, s, t, o) {
        assert Ending(u, items, ends, k, s, t, o);
      }
    }
  }

  lemma OnlyOwner(u: World, items: seq<RetryItem>, i: nat, j: nat)
    requires Claimed(u, items) && i < |items| && OwedAlone(u, items[i]) && j < |items|
    ensures Holds(items[j], items[i].sub, items[i].topic, items[i].offset) <==> i == j
  {
    var item := items[i];
    assert Holds(items[j], item.sub, item.topic, item.offset)
       <==> Holds(u.queue[items[j].retryId], item.sub, item.topic, item.offset);
    hide Missed, Finished;
  }

  /** Tried, the event is over or in the queue again. */
  lemma TriedKept(u: World, v: World, items: seq<RetryItem>, ends: seq<Option<AttemptStatus>>,
                  initial: int, max: int, i: nat)
    requires Retries.Through(u, v, items, ends, initial, max) && i < |items| == |ends| && Claimed(u, items) && Shaped(u)
    requires OwedAlone(u, items[i]) && ends[i].Some?
    ensures Promised(v, items[i].sub, items[i].topic, items[i].offset)
  {
    var item := items[i];
    hide Missed, Aged, Shaped, Claimed, Retries.WorkedOn, Retries.Ids, Gone;
    if ends[i] == Some(Retry) {
      assert Retries.At(v.queue, item.retryId) == Retries.Remains(item, ends[i], u.clock, initial, max);
      assert Holds(v.queue[item.retryId], item.sub, item.topic, item.offset);
    } else {
      assert Retries.StillLive(u, item.topic, item.offset);
      assert Ending(u, items, ends, i, item.sub, item.topic, item.offset);
      PassEnds(u, items, ends, item.sub, item.topic, item.offset);
      hide Retries.AllMade, OwedAlone, Ends, Ending;
      var a :| a in Retries.AllMade(u, items, ends) && Ends(a, item.sub, item.topic, item.offset);
      assert a in v.attempts;
    }
  }

  lemma DroppedUnfinished(u: World, v: World, items: seq<RetryItem>, ends: seq<Option<AttemptStatus>>,
                          initial: int, max: int, i: nat)
    requires Retries.Through(u, v, items, ends, initial, max) && i < |items| == |ends| && Claimed(u, items) && Shaped(u)
    requires OwedAlone(u, items[i]) && ends[i].None?
    ensures !Finished(v, items[i].sub, items[i].topic, items[i].offset)
  {
    var item := items[i];
    PassEnds(u, items, ends, item.sub, item.topic, item.offset);
    forall j: nat ensures !Ending(u, items, ends, j, item.sub, item.topic, item.offset) {
      if j < |ends| { OnlyOwner(u, items, i, j); }
    }
    hide Missed, Aged, Shaped, Claimed, Retries.WorkedOn, Retries.Ids, Gone, Retries.AllMade, Ends, Ending, Holds,
        Retries.StillLive;
  }

  lemma DroppedUnqueued(u: World, v: World, items: seq<RetryItem>, ends: seq<Option<AttemptStatus>>,
                        initial: int, max: int, i: nat)
    requires Retries.Through(u, v, items, ends, initial, max) && i < |items| == |ends| && Claimed(u, items)
    requires OwedAlone(u, items[i]) && ends[i].None?
    ensures !Queued(v, items[i].sub, items[i].topic, items[i].offset)
  {
    var item := items[i];
    hide Missed, Aged, Claimed, Retries.WorkedOn, Gone, Retries.AllMade, Retries.StillLive, Finished;
    forall q | q in v.queue ensures !Holds(v.queue[q], item.sub, item.topic, item.offset) {
      if q in Retries.Ids(items) {
        var j: nat :| j < |items| && items[j].retryId == q;
        OnlyOwner(u, items, i, j);
        assert Retries.At(v.queue, q) == Retries.Remains(items[j], ends[j], u.clock, initial, max);
      } else {
        assert Retries.At(v.queue, q) == Retries.At(u.queue, q);
        assert item in items;
        Retries.IdIn(items, item);
      }
    }
  }

  lemma SameEvent(u: World, v: World, s: string, t: string, o: nat)
    requires Retries.WorkedOn(u, v) && s in u.subs
    ensures Missed(v, s, t, o) == Missed(u, s, t, o) && Aged(v, t, o) == Aged(u, t, o)
  {
  }

  /**
   * The exact condition, over a whole pass of the worker's code: an event that a claimed item alone owes is
   * still promised after the pass if and only if the item's subscription was active before it.
   */
  lemma PassDecides(u: World, v: World, items: seq<RetryItem>, ends: seq<Option<AttemptStatus>>,
                    initial: int, max: int, i: nat)
    requires Retries.Through(u, v, items, ends, initial, max) && i < |items| == |ends| && Claimed(u, items) && Shaped(u)
    requires OwedAlone(u, items[i])
    ensures Promised(v, items[i].sub, items[i].topic, items[i].offset) <==> u.subs[items[i].sub].status == Active
  {
    var item := items[i];
    assert ends[i].None? <==> u.subs[item.sub].status != Active by {
      hide Missed, Finished, Holds, Retries.AllMade, Retries.WorkedOn;
      assert Retries.StillLive(u, item.topic, item.offset);
    }
    hide Retries.Through, OwedAlone;
    if ends[i].Some? {
      TriedKept(u, v, items, ends, initial, max, i);
    } else {
      DroppedUnfinished(u, v, items, ends, initial, max, i);
      DroppedUnqueued(u, v, items, ends, initial, max, i);
      ThroughWork(u, v, items, ends, initial, max);
      OwedFresh(u, item);
      SameEvent(u, v, item.sub, item.topic, item.offset);
      hide Missed, Finished, Queued, Aged;
    }
  }

  lemma ThroughWork(u: World, v: World, items: seq<RetryItem>, ends: seq<Option<AttemptStatus>>, initial: int, max: int)
    requires Retries.Through(u, v, items, ends, initial, max)
    ensures Retries.WorkedOn(u, v)
  {
  }

  lemma OwedFresh(u: World, item: RetryItem)
    requires OwedAlone(u, item)
    ensures item.sub in u.subs && !Missed(u, item.sub, item.topic, item.offset) && !Aged(u, item.topic, item.offset)
  {
  }

  lemma LeasedClaimed(u: World, ids: seq<string>, leased: int)
    requires forall c :: c in ids ==> c in u.queue && u.queue[c].retryId == c
    requires forall i, j :: 0 <= i < j < |ids| ==> ids[i] != ids[j]
    ensures Claimed(u, LeasedItems(u.queue, ids, leased))
  {
    var items := LeasedItems(u.queue, ids, leased);
    assert forall i :: 0 <= i < |items| ==> items[i].retryId == ids[i];
  }

  lemma StoreShaped(p: R.Publisher)
    requires p.Valid()
    ensures Shaped(p.w)
  {
    hide R.Publisher.Valid;
    forall t, o | t in p.w.logs && 0 <= o < |p.w.logs[t].recs|
      ensures p.w.logs[t].recs[o].topic == t && p.w.logs[t].recs[o].offset == o
    {
      p.LogShape(t);
    }
  }

  /** What is claimed next, as the items it becomes. */
  lemma NextClaimed(p: R.Publisher, batch: nat, leased: int)
    requires p.Valid()
    ensures var ids := RetryQueue.Claimed(p.queue.Contents(), p.clock, batch);
      (forall c :: c in ids ==> c in p.w.queue) && Claimed(p.w, LeasedItems(p.w.queue, ids, leased))
  {
    hide RetryQueue.Claimed, EventStore.Holds, Claimed, LeasedItems;
    RetryQueue.ClaimedDue(p.queue.Contents(), p.clock, batch);
    RetryQueue.ClaimedOnce(p.queue.Contents(), p.clock, batch);
    LeasedClaimed(p.w, RetryQueue.Claimed(p.queue.Contents(), p.clock, batch), leased);
  }

  /** The worker's code itself: each claimed event that its item alone owes is kept exactly when it may be. */
  method RunPass(p: R.Publisher, batch: nat, lease: int, ghost task: string) returns (n: nat,
                 ghost items: seq<RetryItem>)
    requires p.Valid() && task !in p.w.tasks && forall q :: q in p.w.queue ==> p.w.queue[q].topic != ""
    modifies p`w, p`trace, p.subs, p.queue, p.transport
    ensures p.Valid() && n == |items|
    ensures var ids := RetryQueue.Claimed(old(p.queue.Contents()), p.clock, batch);
      (forall c :: c in ids ==> c in old(p.w).queue) && items == LeasedItems(old(p.w).queue, ids, p.clock + lease)
    ensures forall i :: 0 <= i < n && OwedAlone(old(p.w), items[i]) ==>
              (Promised(p.w, items[i].sub, items[i].topic, items[i].offset)
               <==> old(p.w).subs[items[i].sub].status == Active)
  {
    hide R.Publisher.Valid, Retries.Through, Claimed, Shaped, OwedAlone, Promised, LeasedItems, RetryQueue.Claimed;
    ghost var u := p.w;
    StoreShaped(p);
    NextClaimed(p, batch, p.clock + lease);
    ghost var ends;
    n, items, ends := p.RunOnce(batch, lease, task);
    forall i | 0 <= i < n && OwedAlone(u, items[i])
      ensures items[i].sub in u.subs
      ensures Promised(p.w, items[i].sub, items[i].topic, items[i].offset) <==> u.subs[items[i].sub].status == Active
    {
      OwedFresh(u, items[i]);
      PassDecides(u, p.w, items, ends, p.initialDelay, p.maxDelay, i);
    }
  }
}
