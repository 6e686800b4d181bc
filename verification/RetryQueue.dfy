/** The in-memory retry queue: claiming hides an item until its lease ends, and loses nothing. */
module RetryQueue {
  import opened Contracts

  /** The queued items, and their ids in the order they were first enqueued. */
  datatype Queue = Queue(items: map<string, RetryItem>, order: seq<string>) {
    ghost predicate Valid() {
      && (forall q :: q in order <==> q in items)
      && (forall i, j :: 0 <= i < j < |order| ==> order[i] != order[j])
      && forall q :: q in items ==> items[q].retryId == q
    }
  }

  /** The ids among `ids` whose item is due. */
  function Due(items: map<string, RetryItem>, ids: seq<string>, now: int): (due: seq<string>)
    requires forall q :: q in ids ==> q in items
    ensures forall q :: q in due <==> q in ids && items[q].nextRetryAt <= now
    ensures (forall i, j :: 0 <= i < j < |ids| ==> ids[i] != ids[j]) ==>
              forall i, j :: 0 <= i < j < |due| ==> due[i] != due[j]
  {
    if ids == [] then []
    else
      assert ids == [ids[0]] + ids[1..];
      (if items[ids[0]].nextRetryAt <= now then [ids[0]] else []) + Due(items, ids[1..], now)
  }

  /** `q` before the first id that is not due earlier: equals keep their order. */
  function Insert(items: map<string, RetryItem>, q: string, ids: seq<string>): (r: seq<string>)
    requires q in items && forall p :: p in ids ==> p in items
    ensures multiset(r) == multiset([q]) + multiset(ids)
  {
    if ids == [] || items[q].nextRetryAt <= items[ids[0]].nextRetryAt then [q] + ids
    else
      assert ids == [ids[0]] + ids[1..];
      [ids[0]] + Insert(items, q, ids[1..])
  }

  /** The ids by due time; a stable sort. */
  function ByTime(items: map<string, RetryItem>, ids: seq<string>): (r: seq<string>)
    requires forall q :: q in ids ==> q in items
    ensures multiset(r) == multiset(ids)
  {
    if ids == [] then []
    else
      assert ids == [ids[0]] + ids[1..];
      InMultiset(ByTime(items, ids[1..]), ids[1..]);
      Insert(items, ids[0], ByTime(items, ids[1..]))
  }

  lemma InMultiset(a: seq<string>, b: seq<string>)
    requires multiset(a) == multiset(b)
    ensures |a| == |b| && forall q :: q in a <==> q in b
  {
    assert |a| == |multiset(a)| && |b| == |multiset(b)|;
    forall q ensures q in a <==> q in b { assert q in multiset(a) <==> q in multiset(b); }
  }

  /** The ids a claim takes: the earliest due ones, up to the limit. */
  function Claimed(queue: Queue, now: int, limit: nat): (claimed: seq<string>)
    requires queue.Valid()
  {
    var due := ByTime(queue.items, Due(queue.items, queue.order, now));
    if |due| <= limit then due else due[..limit]
  }

  function Leased(items: map<string, RetryItem>, claimed: seq<string>, until: int): map<string, RetryItem> {
    map q | q in items :: if q in claimed then items[q].(nextRetryAt := until) else items[q]
  }

  function Without(ids: seq<string>, q: string): seq<string> {
    if ids == [] then [] else (if ids[0] == q then [] else [ids[0]]) + Without(ids[1..], q)
  }

  datatype Op =
    | Enqueue(item: RetryItem)
    | Claim(now: int, limit: nat, lease: int)
    | Complete(id: string)
    | Reschedule(id: string, at: int, attempt: nat)

  /** The queue after one operation. */
  function Next(queue: Queue, op: Op): (r: Queue)
    requires queue.Valid()
  {
    match op
    case Enqueue(item) =>
      Queue(queue.items[item.retryId := item],
            if item.retryId in queue.items then queue.order else queue.order + [item.retryId])
    case Claim(now, limit, lease) =>
      queue.(items := Leased(queue.items, Claimed(queue, now, limit), now + lease))
    case Complete(id) => Queue(queue.items - {id}, Without(queue.order, id))
    case Reschedule(id, at, attempt) =>
      if id !in queue.items then queue
      else queue.(items := queue.items[id := queue.items[id].(nextRetryAt := at, attempt := attempt)])
  }

  lemma {:induction false} WithoutOthers(ids: seq<string>, q: string)
    requires forall i, j :: 0 <= i < j < |ids| ==> ids[i] != ids[j]
    ensures forall p :: p in Without(ids, q) <==> p in ids && p != q
    ensures forall i, j :: 0 <= i < j < |Without(ids, q)| ==> Without(ids, q)[i] != Without(ids, q)[j]
  {
    if ids != [] {
      WithoutOthers(ids[1..], q);
      assert ids == [ids[0]] + ids[1..];
      var rest, r := Without(ids[1..], q), Without(ids, q);
      assert r == if ids[0] == q then rest else [ids[0]] + rest;
      assert ids[0] !in rest by { assert ids[0] !in ids[1..]; }
    }
  }

  lemma ValidNext(queue: Queue, op: Op)
    requires queue.Valid()
    ensures Next(queue, op).Valid()
  {
    if op.Complete? { WithoutOthers(queue.order, op.id); }
    hide Claimed, Without;
  }

  lemma LeasedKeys(items: map<string, RetryItem>, claimed: seq<string>, until: int)
    ensures Leased(items, claimed, until).Keys == items.Keys
  {
  }

  class InMemoryRetryQueue {
    var items: map<string, RetryItem>
    var order: seq<string>

    function Contents(): Queue
      reads this
    {
      Queue(items, order)
    }

    constructor ()
      ensures Contents() == Queue(map[], [])
    {
      items, order := map[], [];
    }

    method Enqueue(item: RetryItem)
      requires Contents().Valid()
      modifies this
      ensures Contents() == Next(old(Contents()), Op.Enqueue(item)) && Contents().Valid()
      ensures items == old(items)[item.retryId := item]
      ensures order == if item.retryId in old(items) then old(order) else old(order) + [item.retryId]
    {
      ValidNext(Contents(), Op.Enqueue(item));
      if item.retryId !in items { order := order + [item.retryId]; }
      items := items[item.retryId := item];
    }

    /** The ids of the earliest due items, up to the limit. */
    method DueIds(now: int, limit: nat) returns (due: seq<string>)
      requires Contents().Valid()
      ensures due == Claimed(Contents(), now, limit) && forall q :: q in due ==> q in items
    {
      hide ByTime;
      due := ByTime(items, Due(items, order, now));
      InMultiset(due, Due(items, order, now));
      if |due| > limit { due := due[..limit]; }
    }

    /** Hands out the earliest due items and hides each until its lease ends. */
    method ClaimDue(now: int, limit: nat, lease: int) returns (claimed: seq<RetryItem>)
      requires Contents().Valid()
      modifies this`items
      ensures Contents() == Next(old(Contents()), Claim(now, limit, lease)) && Contents().Valid()
      ensures items == Leased(old(items), Claimed(old(Contents()), now, limit), now + lease)
      ensures var ids := Claimed(old(Contents()), now, limit);
        && |claimed| == |ids|
        && forall i :: 0 <= i < |ids| ==> ids[i] in items && claimed[i] == items[ids[i]]
    {
      hide Leased, Without, Claimed, Queue.Valid;
      ValidNext(Contents(), Claim(now, limit, lease));
      var due := DueIds(now, limit);
      Hide(due, now + lease);
      LeasedKeys(old(items), due, now + lease);
      claimed := Copies(due);
    }

    method Hide(due: seq<string>, until: int)
      requires forall q :: q in due ==> q in items
      modifies this`items
      ensures items == Leased(old(items), due, until)
    {
      for i := 0 to |due|
        invariant items == Leased(old(items), due[..i], until)
      {
        assert due[..i + 1] == due[..i] + [due[i]];
        items := items[due[i] := items[due[i]].(nextRetryAt := until)];
      }
      assert due[..|due|] == due;
    }

    method Copies(ids: seq<string>) returns (copies: seq<RetryItem>)
      requires forall q :: q in ids ==> q in items
      ensures |copies| == |ids| && forall i :: 0 <= i < |ids| ==> copies[i] == items[ids[i]]
    {
      copies := [];
      for i := 0 to |ids|
        invariant |copies| == i && forall j :: 0 <= j < i ==> copies[j] == items[ids[j]]
      {
        copies := copies + [items[ids[i]]];
      }
    }

    method Complete(id: string)
      requires Contents().Valid()
      modifies this
      ensures Contents() == Next(old(Contents()), Op.Complete(id)) && Contents().Valid()
      ensures items == old(items) - {id} && forall q :: q in order <==> q in old(order) && q != id
      ensures forall p, q :: Precedes(order, p, q) ==> Precedes(old(order), p, q)
    {
      hide Precedes;
      WithoutOthers(order, id);
      forall p, q | Precedes(Without(order, id), p, q) ensures Precedes(order, p, q) {
        WithoutKeepsOrder(order, id, p, q);
      }
      ValidNext(Contents(), Op.Complete(id));
      items := items - {id};
      order := Without(order, id);
    }

    method Reschedule(id: string, at: int, attempt: nat)
      requires Contents().Valid()
      modifies this`items
      ensures Contents() == Next(old(Contents()), Op.Reschedule(id, at, attempt)) && Contents().Valid()
      ensures order == old(order)
      ensures items == if id in old(items) then old(items)[id := old(items)[id].(nextRetryAt := at, attempt := attempt)]
                       else old(items)
    {
      ValidNext(Contents(), Op.Reschedule(id, at, attempt));
      if id in items { items := items[id := items[id].(nextRetryAt := at, attempt := attempt)]; }
    }
  }

  // --- What a claim takes -----------------------------------------------------------------------------

  ghost predicate Ascending(items: map<string, RetryItem>, ids: seq<string>)
    requires forall q :: q in ids ==> q in items
  {
    forall i, j :: 0 <= i <= j < |ids| ==> items[ids[i]].nextRetryAt <= items[ids[j]].nextRetryAt
  }

  lemma InsertMembers(items: map<string, RetryItem>, q: string, ids: seq<string>)
    requires q in items && forall p :: p in ids ==> p in items
    ensures forall p :: p in Insert(items, q, ids) <==> p == q || p in ids
  {
    var r := Insert(items, q, ids);
    forall p ensures p in r <==> p == q || p in ids { assert p in multiset(r) <==> p == q || p in multiset(ids); }
  }

  lemma InsertSplits(items: map<string, RetryItem>, q: string, ids: seq<string>)
    requires q in items && forall p :: p in ids ==> p in items
    ensures if ids != [] && items[q].nextRetryAt > items[ids[0]].nextRetryAt
            then Insert(items, q, ids) == [ids[0]] + Insert(items, q, ids[1..])
            else Insert(items, q, ids) == [q] + ids
  {
  }

  lemma {:induction false} InsertAscends(items: map<string, RetryItem>, q: string, ids: seq<string>)
    requires q in items && (forall p :: p in ids ==> p in items) && Ascending(items, ids)
    ensures (forall p :: p in Insert(items, q, ids) ==> p in items) && Ascending(items, Insert(items, q, ids))
  {
    hide Insert;
    var r := Insert(items, q, ids);
    InsertMembers(items, q, ids);
    InsertSplits(items, q, ids);
    if ids != [] && items[q].nextRetryAt > items[ids[0]].nextRetryAt {
      InsertAscends(items, q, ids[1..]);
      InsertMembers(items, q, ids[1..]);
      forall i | 0 < i < |r| ensures items[ids[0]].nextRetryAt <= items[r[i]].nextRetryAt {
        assert r[i] == Insert(items, q, ids[1..])[i - 1];
        assert r[i] in Insert(items, q, ids[1..]);
        if r[i] != q {
          var j :| 0 <= j < |ids[1..]| && ids[1..][j] == r[i];
          assert ids[j + 1] == r[i];
        }
      }
    }
  }

  lemma {:induction false} ByTimeAscends(items: map<string, RetryItem>, ids: seq<string>)
    requires forall q :: q in ids ==> q in items
    ensures (forall q :: q in ByTime(items, ids) ==> q in items) && Ascending(items, ByTime(items, ids))
  {
    InMultiset(ByTime(items, ids), ids);
    if ids != [] {
      InMultiset(ByTime(items, ids[1..]), ids[1..]);
      ByTimeAscends(items, ids[1..]);
      InsertAscends(items, ids[0], ByTime(items, ids[1..]));
    }
  }

  /**
   * A claim takes due items only, earliest first; and an item that is due but not taken is no earlier
   * than any that is taken, and is left only when the limit is reached.
   */
  lemma EarliestFirst(queue: Queue, now: int, limit: nat)
    requires queue.Valid()
    ensures var ids := Claimed(queue, now, limit);
      && (forall q :: q in ids ==> q in queue.items && queue.items[q].nextRetryAt <= now)
      && Ascending(queue.items, ids)
      && (forall i, j :: 0 <= i < j < |ids| ==> ids[i] != ids[j])
      && |ids| <= limit
      && forall q :: q in queue.items && queue.items[q].nextRetryAt <= now && q !in ids ==>
           |ids| == limit && forall p :: p in ids ==> queue.items[p].nextRetryAt <= queue.items[q].nextRetryAt
  {
    hide Due, ByTime;
    var all := Due(queue.items, queue.order, now);
    var due, ids := ByTime(queue.items, all), Claimed(queue, now, limit);
    InMultiset(due, all);
    ByTimeAscends(queue.items, all);
    NoRepeats(due, all);
    forall q | q in queue.items && queue.items[q].nextRetryAt <= now && q !in ids
      ensures |ids| == limit && forall p :: p in ids ==> queue.items[p].nextRetryAt <= queue.items[q].nextRetryAt
    {
      assert q in queue.order && q in due;
      var j :| 0 <= j < |due| && due[j] == q;
    }
  }

  // --- Ties ------------------------------------------------------------------------------------------

  ghost predicate Precedes(order: seq<string>, p: string, q: string) {
    exists i, j :: 0 <= i < j < |order| && order[i] == p && order[j] == q
  }

  /** Due earlier, or due at the same time and earlier in the queue. */
  ghost predicate Before(items: map<string, RetryItem>, order: seq<string>, p: string, q: string)
    requires p in items && q in items
  {
    items[p].nextRetryAt < items[q].nextRetryAt
    || (items[p].nextRetryAt == items[q].nextRetryAt && Precedes(order, p, q))
  }

  ghost predicate InOrder(items: map<string, RetryItem>, order: seq<string>, ids: seq<string>)
    requires forall q :: q in ids ==> q in items
  {
    forall i, j :: 0 <= i < j < |ids| ==> Before(items, order, ids[i], ids[j])
  }

  lemma PrecedesInMore(order: seq<string>, p: string, q: string, head: string)
    requires Precedes(order, p, q)
    ensures Precedes([head] + order, p, q)
  {
    var i, j :| 0 <= i < j < |order| && order[i] == p && order[j] == q;
    assert ([head] + order)[i + 1] == p && ([head] + order)[j + 1] == q;
  }

  lemma PrecedesRest(order: seq<string>, head: string, q: string)
    requires q in order
    ensures Precedes([head] + order, head, q)
  {
    var j :| 0 <= j < |order| && order[j] == q;
    assert ([head] + order)[0] == head && ([head] + order)[j + 1] == q;
  }

  lemma BeforeInMore(items: map<string, RetryItem>, order: seq<string>, p: string, q: string, head: string)
    requires p in items && q in items && Before(items, order, p, q)
    ensures Before(items, [head] + order, p, q)
  {
    hide Precedes;
    if Precedes(order, p, q) { PrecedesInMore(order, p, q, head); }
  }

  /** Inserting in front of equals the id that comes first in the queue. */
  lemma {:induction false} InsertInOrder(items: map<string, RetryItem>, order: seq<string>, q: string, ids: seq<string>)
    requires q in items && (forall p :: p in ids ==> p in items && p in order)
    requires InOrder(items, [q] + order, ids)
    ensures forall p :: p in Insert(items, q, ids) ==> p in items
    ensures InOrder(items, [q] + order, Insert(items, q, ids))
  {
    hide Insert, Before;
    var all, r := [q] + order, Insert(items, q, ids);
    InsertMembers(items, q, ids);
    InsertSplits(items, q, ids);
    if ids != [] && items[q].nextRetryAt > items[ids[0]].nextRetryAt {
      InsertInOrder(items, order, q, ids[1..]);
      InsertMembers(items, q, ids[1..]);
      forall i | 0 < i < |r| ensures Before(items, all, ids[0], r[i]) {
        assert r[i] == Insert(items, q, ids[1..])[i - 1];
        FirstBefore(items, all, q, ids, r[i]);
      }
    } else {
      forall i | 0 <= i < |ids| ensures Before(items, all, q, ids[i]) {
        TimeNotEarlier(items, all, ids, i);
        PrecedesRest(order, q, ids[i]);
        TiesBefore(items, all, q, ids[i]);
      }
      assert forall i :: 0 < i < |r| ==> r[i] == ids[i - 1];
    }
  }

  lemma TiesBefore(items: map<string, RetryItem>, order: seq<string>, p: string, q: string)
    requires p in items && q in items && items[p].nextRetryAt <= items[q].nextRetryAt && Precedes(order, p, q)
    ensures Before(items, order, p, q)
  {
    hide Precedes;
  }

  lemma TimeNotEarlier(items: map<string, RetryItem>, order: seq<string>, ids: seq<string>, i: nat)
    requires (forall p :: p in ids ==> p in items) && InOrder(items, order, ids) && i < |ids|
    ensures items[ids[0]].nextRetryAt <= items[ids[i]].nextRetryAt
  {
    hide Precedes;
    assert i > 0 ==> Before(items, order, ids[0], ids[i]);
  }

  lemma FirstBefore(items: map<string, RetryItem>, order: seq<string>, q: string, ids: seq<string>, p: string)
    requires (forall x :: x in ids ==> x in items) && q in items && ids != [] && InOrder(items, order, ids)
    requires items[q].nextRetryAt > items[ids[0]].nextRetryAt && (p == q || p in ids[1..])
    ensures Before(items, order, ids[0], p)
  {
    hide Precedes;
    if p != q {
      var j :| 0 <= j < |ids[1..]| && ids[1..][j] == p;
      assert ids[j + 1] == p;
    }
  }

  lemma InOrderInMore(items: map<string, RetryItem>, order: seq<string>, ids: seq<string>, head: string)
    requires (forall q :: q in ids ==> q in items) && InOrder(items, order, ids)
    ensures InOrder(items, [head] + order, ids)
  {
    hide Before;
    forall i, j | 0 <= i < j < |ids| ensures Before(items, [head] + order, ids[i], ids[j]) {
      BeforeInMore(items, order, ids[i], ids[j], head);
    }
  }

  lemma ByTimeSplits(items: map<string, RetryItem>, ids: seq<string>)
    requires ids != [] && forall q :: q in ids ==> q in items
    ensures forall q :: q in ByTime(items, ids[1..]) ==> q in items && q in ids[1..]
    ensures ByTime(items, ids) == Insert(items, ids[0], ByTime(items, ids[1..]))
  {
    hide Insert;
    InMultiset(ByTime(items, ids[1..]), ids[1..]);
  }

  lemma {:induction false} ByTimeInOrder(items: map<string, RetryItem>, ids: seq<string>)
    requires forall q :: q in ids ==> q in items
    ensures (forall q :: q in ByTime(items, ids) ==> q in items) && InOrder(items, ids, ByTime(items, ids))
  {
    hide ByTime, Insert, InOrder;
    InMultiset(ByTime(items, ids), ids);
    if ids == [] {
      NoneInOrder(items);
    } else {
      ByTimeSplits(items, ids);
      ByTimeInOrder(items, ids[1..]);
      InOrderInMore(items, ids[1..], ByTime(items, ids[1..]), ids[0]);
      assert ids == [ids[0]] + ids[1..];
      InsertInOrder(items, ids[1..], ids[0], ByTime(items, ids[1..]));
    }
  }

  lemma NoneInOrder(items: map<string, RetryItem>)
    ensures ByTime(items, []) == [] && InOrder(items, [], [])
  {
  }

  lemma NoneDue(items: map<string, RetryItem>, now: int)
    ensures Due(items, [], now) == []
  {
  }

  lemma DueSplits(items: map<string, RetryItem>, ids: seq<string>, now: int)
    requires ids != [] && forall x :: x in ids ==> x in items
    ensures var due := Due(items, ids[1..], now);
      && Due(items, ids, now) == (if items[ids[0]].nextRetryAt <= now then [ids[0]] + due else due)
      && forall q :: q in due ==> q in ids[1..]
  {
  }

  lemma {:induction false} DueKeepsOrder(items: map<string, RetryItem>, ids: seq<string>, now: int, p: string,
                                         q: string)
    requires (forall x :: x in ids ==> x in items) && Precedes(Due(items, ids, now), p, q)
    ensures Precedes(ids, p, q)
  {
    hide Due;
    if ids == [] {
      NoneDue(items, now);
    } else {
      DueSplits(items, ids, now);
      var all, due := Due(items, ids, now), Due(items, ids[1..], now);
      assert ids == [ids[0]] + ids[1..];
      var i, j :| 0 <= i < j < |all| && all[i] == p && all[j] == q;
      var d := |all| - |due|;
      assert due[j - d] == q;
      if d == 1 && i == 0 {
        assert q in ids[1..];
        PrecedesRest(ids[1..], ids[0], q);
      } else {
        assert due[i - d] == p && Precedes(due, p, q);
        DueKeepsOrder(items, ids[1..], now, p, q);
        PrecedesInMore(ids[1..], p, q, ids[0]);
      }
    }
  }

  lemma {:induction false} WithoutKeepsOrder(ids: seq<string>, id: string, p: string, q: string)
    requires Precedes(Without(ids, id), p, q)
    ensures Precedes(ids, p, q)
  {
    if ids != [] {
      var all, rest := Without(ids, id), Without(ids[1..], id);
      assert ids == [ids[0]] + ids[1..];
      var i, j :| 0 <= i < j < |all| && all[i] == p && all[j] == q;
      var d := |all| - |rest|;
      assert rest[j - d] == q;
      if d == 1 && i == 0 {
        WithoutWithin(ids[1..], id, q);
        PrecedesRest(ids[1..], ids[0], q);
      } else {
        assert rest[i - d] == p && Precedes(rest, p, q);
        WithoutKeepsOrder(ids[1..], id, p, q);
        PrecedesInMore(ids[1..], p, q, ids[0]);
      }
    }
  }

  lemma {:induction false} WithoutWithin(ids: seq<string>, id: string, q: string)
    requires q in Without(ids, id)
    ensures q in ids
  {
    if ids != [] && q != ids[0] { WithoutWithin(ids[1..], id, q); }
  }

  lemma BeforeInQueue(queue: Queue, now: int, p: string, q: string)
    requires queue.Valid() && p in queue.items && q in queue.items
    requires Before(queue.items, Due(queue.items, queue.order, now), p, q)
    ensures Before(queue.items, queue.order, p, q)
  {
    hide Precedes, Due;
    if Precedes(Due(queue.items, queue.order, now), p, q) { DueKeepsOrder(queue.items, queue.order, now, p, q); }
  }

  /**
   * Items due at the same time are claimed in the order of the queue: among the claimed, and against
   * those that are due but left for a later claim.
   */
  lemma TiesInQueueOrder(queue: Queue, now: int, limit: nat)
    requires queue.Valid()
    ensures var ids := Claimed(queue, now, limit);
      && (forall q :: q in ids ==> q in queue.items)
      && (forall i, j :: 0 <= i < j < |ids| ==> Before(queue.items, queue.order, ids[i], ids[j]))
      && forall p, q :: p in ids && q in queue.items && queue.items[q].nextRetryAt <= now && q !in ids ==>
           Before(queue.items, queue.order, p, q)
  {
    hide Due, ByTime, Before;
    var all := Due(queue.items, queue.order, now);
    var due, ids := ByTime(queue.items, all), Claimed(queue, now, limit);
    InMultiset(due, all);
    ByTimeInOrder(queue.items, all);
    forall i, j | 0 <= i < j < |due| ensures Before(queue.items, queue.order, due[i], due[j]) {
      BeforeInQueue(queue, now, due[i], due[j]);
    }
    forall p, q | p in ids && q in queue.items && queue.items[q].nextRetryAt <= now && q !in ids
      ensures Before(queue.items, queue.order, p, q)
    {
      assert q in queue.order && q in due;
      var i :| 0 <= i < |ids| && ids[i] == p;
      var j :| 0 <= j < |due| && due[j] == q;
      assert j >= |ids| && due[i] == p;
    }
  }

  lemma ClaimedDue(queue: Queue, now: int, limit: nat)
    requires queue.Valid()
    ensures forall q :: q in Claimed(queue, now, limit) ==> q in queue.items && queue.items[q].nextRetryAt <= now
  {
    EarliestFirst(queue, now, limit);
  }

  lemma ClaimedOnce(queue: Queue, now: int, limit: nat)
    requires queue.Valid()
    ensures var ids := Claimed(queue, now, limit); forall i, j :: 0 <= i < j < |ids| ==> ids[i] != ids[j]
  {
    EarliestFirst(queue, now, limit);
  }

  lemma NoRepeats(a: seq<string>, b: seq<string>)
    requires multiset(a) == multiset(b) && forall i, j :: 0 <= i < j < |b| ==> b[i] != b[j]
    ensures forall i, j :: 0 <= i < j < |a| ==> a[i] != a[j]
  {
    forall i, j | 0 <= i < j < |a| ensures a[i] != a[j] {
      if a[i] == a[j] {
        Twice(a, i, j);
        Once(b, a[i]);
      }
    }
  }

  lemma Twice(a: seq<string>, i: nat, j: nat)
    requires i < j < |a| && a[i] == a[j]
    ensures multiset(a)[a[i]] >= 2
  {
    assert a == a[..i] + [a[i]] + a[i + 1..j] + [a[j]] + a[j + 1..];
  }

  lemma {:induction false} Once(b: seq<string>, q: string)
    requires forall i, j :: 0 <= i < j < |b| ==> b[i] != b[j]
    ensures multiset(b)[q] <= 1
  {
    if b != [] {
      assert b == [b[0]] + b[1..];
      Once(b[1..], q);
      if q == b[0] { assert q !in b[1..]; }
    }
  }

  // --- Over any sequence of operations -----------------------------------------------------------------

  ghost function After(queue: Queue, ops: seq<Op>): Queue
    requires queue.Valid()
    decreases |ops|
  {
    if ops == [] then queue
    else
      ValidNext(queue, ops[0]);
      After(Next(queue, ops[0]), ops[1..])
  }

  /** The operation names the item itself. */
  predicate Touches(op: Op, id: string) {
    match op
    case Enqueue(item) => item.retryId == id
    case Claim(_, _, _) => false
    case Complete(q) => q == id
    case Reschedule(q, _, _) => q == id
  }

  /** No operation names the item, and no claim is made from `until` on. */
  ghost predicate Quiet(ops: seq<Op>, id: string, until: int) {
    forall i :: 0 <= i < |ops| ==> !Touches(ops[i], id) && (ops[i].Claim? ==> ops[i].now < until)
  }

  lemma Untouched(queue: Queue, op: Op, id: string)
    requires queue.Valid() && id in queue.items && !Touches(op, id)
    requires op.Claim? ==> op.now < queue.items[id].nextRetryAt
    ensures id in Next(queue, op).items && Next(queue, op).items[id] == queue.items[id]
    ensures op.Claim? ==> id !in Claimed(queue, op.now, op.limit)
  {
    if op.Claim? { EarliestFirst(queue, op.now, op.limit); }
    hide Claimed;
  }

  /** An item that is hidden until some time stays as it is, in the queue and out of every claim before. */
  lemma {:induction false} HiddenUntil(queue: Queue, ops: seq<Op>, id: string)
    requires queue.Valid() && id in queue.items && Quiet(ops, id, queue.items[id].nextRetryAt)
    ensures After(queue, ops).Valid() && id in After(queue, ops).items && After(queue, ops).items[id] == queue.items[id]
    ensures forall i :: 0 <= i < |ops| && ops[i].Claim? ==>
              After(queue, ops[..i]).Valid() && id !in Claimed(After(queue, ops[..i]), ops[i].now, ops[i].limit)
    decreases |ops|
  {
    hide Claimed, Next;
    if ops != [] {
      Untouched(queue, ops[0], id);
      ValidNext(queue, ops[0]);
      var x := Next(queue, ops[0]);
      HiddenUntil(x, ops[1..], id);
      forall i | 0 <= i < |ops| && ops[i].Claim?
        ensures After(queue, ops[..i]).Valid() && id !in Claimed(After(queue, ops[..i]), ops[i].now, ops[i].limit)
      {
        if i > 0 {
          assert ops[..i][0] == ops[0] && ops[..i][1..] == ops[1..][..i - 1];
          assert ops[1..][i - 1] == ops[i];
        }
      }
    }
  }

  /**
   * The visibility lease: an item claimed at `c` for `lease` seconds is in no claim made before
   * `c + lease`, unless something else names it; and then it is due again from `c + lease` on.
   */
  lemma LeaseHides(queue: Queue, c: int, limit: nat, lease: int, ops: seq<Op>, id: string)
    requires queue.Valid() && id in Claimed(queue, c, limit)
    requires Quiet(ops, id, c + lease)
    ensures var x := Next(queue, Claim(c, limit, lease));
      && x.Valid()
      && (forall i :: 0 <= i < |ops| && ops[i].Claim? ==>
            && After(x, ops[..i]).Valid()
            && id !in Claimed(After(x, ops[..i]), ops[i].now, ops[i].limit))
      && id in After(x, ops).items && After(x, ops).items[id].nextRetryAt == c + lease
      && forall now, many: nat :: now >= c + lease && many >= |After(x, ops).order| ==>
           After(x, ops).Valid() && id in Claimed(After(x, ops), now, many)
  {
    EarliestFirst(queue, c, limit);
    ValidNext(queue, Claim(c, limit, lease));
    var x := Next(queue, Claim(c, limit, lease));
    assert x.items[id].nextRetryAt == c + lease;
    HiddenUntil(x, ops, id);
    var y := After(x, ops);
    forall now, many: nat | now >= c + lease && many >= |y.order| ensures id in Claimed(y, now, many) {
      DueIsClaimed(y, now, many, id);
    }
  }

  lemma {:induction false} DueShorter(items: map<string, RetryItem>, ids: seq<string>, now: int)
    requires forall q :: q in ids ==> q in items
    ensures |Due(items, ids, now)| <= |ids|
  {
    if ids != [] { DueShorter(items, ids[1..], now); }
  }

  lemma DueIsClaimed(queue: Queue, now: int, limit: nat, id: string)
    requires queue.Valid() && id in queue.items && queue.items[id].nextRetryAt <= now && limit >= |queue.order|
    ensures id in Claimed(queue, now, limit)
  {
    var all := Due(queue.items, queue.order, now);
    InMultiset(ByTime(queue.items, all), all);
    DueShorter(queue.items, queue.order, now);
    assert id in queue.order;
  }

  /** Only completing an item removes it: claims and everything else lose nothing. */
  lemma {:induction false} NothingLost(queue: Queue, ops: seq<Op>, id: string)
    requires queue.Valid() && id in queue.items
    requires forall i :: 0 <= i < |ops| ==> ops[i] != Op.Complete(id)
    ensures id in After(queue, ops).items
    decreases |ops|
  {
    if ops != [] {
      ValidNext(queue, ops[0]);
      assert id in Next(queue, ops[0]).items by { hide Claimed; }
      NothingLost(Next(queue, ops[0]), ops[1..], id);
    }
  }
}
