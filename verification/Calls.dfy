/** What acks, publishes and subscribe calls do to the world. */
module Calls {
  import opened Contracts
  import opened Cursors
  import opened Stream
  import opened Dispatch
  import opened Steps
  import opened Deliveries
  import opened EventStore
  import opened Reads

  // --- Explicit acks ------------------------------------------------------------------------------------

  lemma BegunAside(u: World, task: string, s: string, cursor: string)
    requires s in u.subs
    ensures var v := AckBegun(u, task, s, cursor);
      && v.clock == u.clock && v.logs == u.logs && v.subs == ExpireIfDue(u, s).subs && v.marks == u.marks
      && v.attempts == u.attempts && v.queue == u.queue && v.received == u.received && v.locks == u.locks
      && v.hist.issued == u.hist.issued
  {
    hide Split, ExpireIfDue;
    ExpiredSubs(u, s);
  }

  lemma ExpiryMeans(u: World, s: string)
    requires s in u.subs
    ensures s in ExpireIfDue(u, s).subs
    ensures ExpireIfDue(u, s).subs[s].status != Active <==>
            u.subs[s].status != Active || u.subs[s].leaseUntil <= u.clock
    ensures u.subs[s].status == Active && u.subs[s].leaseUntil > u.clock ==> ExpireIfDue(u, s) == u
  {
  }

  /** What an accepted ack does to the subscriptions. */
  lemma AckMoves(u: World, s: string, t: string, o: nat, cursor: string)
    requires s in u.subs
    ensures MovedTo(u, AckedBy(u, s, t, o, cursor), s, t, o, cursor)
  {
    hide AckRaised, AdvanceCursor, MovedTo;
    AdvanceMoves(u, s, t, o, cursor);
  }

  // --- Publishing ---------------------------------------------------------------------------------------

  /** Every subscription of the topic that may be served is at its head. */
  ghost predicate Reached(w: World, topic: string, authorised: string -> bool) {
    topic in w.logs && forall s :: s in w.subs && Serving(w, s) && authorised(s) && topic in w.subs[s].topics ==>
      Backlog(w.logs[topic], w.clock, Mark(w, s, topic)) == 0
  }

  lemma DeclaredAppended(u: World, topic: string, record: EventRecord)
    requires topic in u.logs && Declared(u)
    ensures Declared(Appended(u, topic, record))
  {
  }

  /** The subscriptions of the topic in `done` are at its head. */
  ghost predicate HeadReached(v: World, x: World, topic: string, authorised: string -> bool, done: set<string>) {
    forall s ::
      s in done && s in v.subs && Serving(v, s) && authorised(s) && topic in v.subs[s].topics && topic in x.logs ==>
      Backlog(x.logs[topic], x.clock, Mark(x, s, topic)) == 0
  }

  lemma AtFirst(v: World, topic: string, authorised: string -> bool)
    ensures DispatchedAll(v, v, {}) && HeadReached(v, v, topic, authorised, {})
        && Audience(v, topic) - {} == Audience(v, topic)
  {
    DispatchedNone(v);
  }

  lemma FanningStores(v: World, topic: string, ids: set<string>)
    ensures var u := Fanning(v, topic, ids);
      && u.clock == v.clock && u.logs == v.logs && u.subs == v.subs && u.locks == v.locks && u.marks == v.marks
      && u.attempts == v.attempts && u.queue == v.queue && u.received == v.received && u.hist == v.hist
  {
  }

  /** One child task for each subscription of the topic, under the subscription's own id. */
  ghost function Children(v: World, topic: string): map<string, string> {
    map s | s in Audience(v, topic) :: s
  }

  lemma FanStep(cfg: Config, v: World, task: string, topic: string, o: nat, inp: Input)
    requires v.tasks == map[] && task !in v.subs && inp.retryId !in v.hist.issued && (inp.ack ==> inp.taken)
    requires inp.children == Children(v, topic)
    ensures var w := SetTask(v, task, Publishing(topic, o));
      && Enabled(cfg, w, Run(task, inp))
      && Apply(cfg, w, Run(task, inp)) == if cfg.deferred then v else Fanning(v, topic, Audience(v, topic))
  {
    hide Enabled, Apply, Audience, Fanning, SetTask;
    FanOut(cfg, v, task, topic, o, inp);
  }

  lemma FanningAside(v: World, topic: string, ids: set<string>)
    ensures var u := Fanning(v, topic, ids);
      u.clock == v.clock && u.logs == v.logs && u.subs == v.subs && u.locks == v.locks
  {
  }

  lemma InAudience(v: World, x: World, topic: string, s: string, done: set<string>)
    requires DispatchedAll(v, x, done) && s in v.subs && s !in done
    ensures var rest := Audience(v, topic) - done;
      && (s in rest <==> topic in v.subs[s].topics)
      && s in x.subs && x.subs[s].topics == v.subs[s].topics
      && (forall u :: u == Fanning(x, topic, rest) ==> u.subs == x.subs)
  {
    hide Mark, Serving;
  }

  /** One child of the fan-out is done. */
  lemma ChildDone(v: World, x: World, w: World, topic: string, ids: set<string>, authorised: string -> bool,
                  done: set<string>, s: string)
    requires DispatchedAll(v, x, done) && HeadReached(v, x, topic, authorised, done) && s in v.subs && s !in done
    requires x.tasks == map[] && x.locks == map[] && x.logs == v.logs && topic in v.logs
    requires Dispatched(Fanning(x, topic, ids), w, s)
    requires Serving(Fanning(x, topic, ids), s) && authorised(s) ==>
               forall t :: t in [topic] ==> Backlog(w.logs[t], w.clock, Mark(w, s, t)) == 0
    ensures var y := w.(tasks := map[]);
      && w == Fanning(y, topic, ids) && y.logs == v.logs && y.locks == map[]
      && DispatchedAll(v, y, done + {s}) && HeadReached(v, y, topic, authorised, done + {s})
  {
    var y := w.(tasks := map[]);
    assert topic in [topic];
    ChildFrame(x, w, topic, ids, s);
    OneMoreDispatched(v, x, y, done, s);
    hide Backlog;
    forall a | a in done + {s} && a in v.subs && Serving(v, a) && authorised(a) && topic in v.subs[a].topics
      ensures Backlog(y.logs[topic], y.clock, Mark(y, a, topic)) == 0
    {
      if a != s { assert Mark(y, a, topic) == Mark(x, a, topic); }
    }
  }

  lemma ChildFrame(x: World, w: World, topic: string, ids: set<string>, s: string)
    requires Dispatched(Fanning(x, topic, ids), w, s) && x.tasks == map[]
    ensures var y := w.(tasks := map[]);
      && w == Fanning(y, topic, ids) && Dispatched(x, y, s)
      && (forall t :: Mark(y, s, t) == Mark(w, s, t))
      && (s in x.subs ==> (Serving(Fanning(x, topic, ids), s) <==> Serving(x, s)))
  {
    var u, y := Fanning(x, topic, ids), w.(tasks := map[]);
    forall a, b | a != s ensures Mark(y, a, b) == Mark(x, a, b) {
      assert Mark(w, a, b) == Mark(u, a, b);
    }
  }

  lemma NoChild(v: World, x: World, topic: string, authorised: string -> bool, done: set<string>, s: string)
    requires DispatchedAll(v, x, done) && HeadReached(v, x, topic, authorised, done) && s in v.subs
    requires topic !in v.subs[s].topics
    ensures DispatchedAll(v, x, done + {s}) && HeadReached(v, x, topic, authorised, done + {s})
    ensures (Audience(v, topic) - done) - {s} == Audience(v, topic) - done
  {
    hide Backlog, Mark, Serving;
  }

  lemma AtLast(v: World, x: World, w: World, topic: string, authorised: string -> bool, done: set<string>)
    requires DispatchedAll(v, x, done) && HeadReached(v, x, topic, authorised, done) && done == v.subs.Keys
    requires topic in v.logs && x.tasks == map[] && w == Fanning(x, topic, Audience(v, topic) - done)
    ensures w == x && Reached(w, topic, authorised)
  {
    assert Audience(v, topic) - done == {};
    assert w.tasks == map[];
    hide Backlog, Mark, Serving;
  }

  /** Taking up one of the dispatches. */
  lemma TakeUp(v: World, topic: string, ids: set<string>, s: string)
    requires s in ids
    ensures Fanning(v, topic, ids) == SetTask(Fanning(v, topic, ids - {s}), s, Dispatching(s, [topic], Checking))
    ensures s !in Fanning(v, topic, ids - {s}).tasks
  {
    assert Fanning(v, topic, ids).tasks
        == Fanning(v, topic, ids - {s}).tasks[s := Dispatching(s, [topic], Checking)];
  }

  // --- Subscribing --------------------------------------------------------------------------------------

  /** The topics without repeats, each where it first came. */
  function Deduped(topics: seq<string>): (r: seq<string>)
    ensures forall t :: t in r <==> t in topics
    ensures forall i, j :: 0 <= i < j < |r| ==> r[i] != r[j]
  {
    if topics == [] then []
    else
      var n := |topics| - 1;
      var r := Deduped(topics[..n]);
      assert topics == topics[..n] + [topics[n]];
      if topics[n] in r then r else r + [topics[n]]
  }

  /** Where a topic first comes. */
  function FirstAt(topics: seq<string>, t: string): (i: nat)
    requires t in topics
    ensures i < |topics| && topics[i] == t && forall j :: 0 <= j < i ==> topics[j] != t
  {
    if topics[0] == t then 0 else 1 + FirstAt(topics[1..], t)
  }

  lemma FirstIs(topics: seq<string>, t: string, i: nat)
    requires i < |topics| && topics[i] == t && forall j :: 0 <= j < i ==> topics[j] != t
    ensures FirstAt(topics, t) == i
  {
    hide FirstAt;
    assert topics[FirstAt(topics, t)] == t;
  }

  ghost predicate FirstsRise(topics: seq<string>, r: seq<string>)
    requires forall t :: t in r ==> t in topics
  {
    forall i, j :: 0 <= i < j < |r| ==> FirstAt(topics, r[i]) < FirstAt(topics, r[j])
  }

  lemma FirstsRiseOn(init: seq<string>, x: string, r: seq<string>)
    requires (forall t :: t in r ==> t in init) && FirstsRise(init, r)
    ensures FirstsRise(init + [x], r)
    ensures x !in init ==> FirstsRise(init + [x], r + [x])
  {
    hide FirstAt;
    var topics := init + [x];
    forall t | t in r ensures FirstAt(topics, t) == FirstAt(init, t) < |init| {
      FirstIs(topics, t, FirstAt(init, t));
    }
    if x !in init { FirstIs(topics, x, |init|); }
  }

  /** Removing repeats keeps the topics in the order in which each first came. */
  lemma {:induction false} DedupedInOrder(topics: seq<string>)
    ensures FirstsRise(topics, Deduped(topics))
  {
    if topics != [] {
      var n := |topics| - 1;
      DedupedInOrder(topics[..n]);
      FirstsRiseOn(topics[..n], topics[n], Deduped(topics[..n]));
      assert topics == topics[..n] + [topics[n]];
      hide FirstsRise;
    }
  }

  /** Where a subscriber asks to start. */
  function ParseFrom(cursor: string): Result<From, ErrorCode> {
    if cursor == EARLIEST then Success(Earliest)
    else if cursor == LATEST then Success(Latest)
    else
      match Split(cursor)
      case Failure(e) => Failure(e)
      case Success((t, o)) => Success(After(t, o))
  }

  /** A start cursor is only looked at when there is a topic to start. */
  function StartFrom(cursor: string, topics: seq<string>): Result<From, ErrorCode> {
    if topics == [] then Success(Latest) else ParseFrom(cursor)
  }

  /**
   * Where a topic starts for a `fromCursor`, in its text alone: before the first event for "earliest"; at the
   * head for "latest" and for a cursor of another topic; at a cursor of its own, unless retention has passed it.
   */
  ghost predicate StartsFrom(st: Stream, now: int, t: string, cursor: string, r: Result<int, ErrorCode>) {
    && (cursor == "earliest" ==> r == Success(-1))
    && (cursor == "latest" ==> r == Success(|st.recs| - 1))
    && (forall topic, raw :: Spells(cursor, topic, raw) ==>
          r == if topic != t then Success(|st.recs| - 1)
               else if Number(raw) < st.FirstLive(now) < |st.recs| then Failure(CursorExpired)
               else Success(Number(raw)))
    && (cursor != "earliest" && cursor != "latest" && (forall topic, raw :: !Spells(cursor, topic, raw)) ==>
          r == Failure(InvalidCursor))
  }

  /** What parsing the text first and starting there comes to. */
  function StartParse(st: Stream, now: int, t: string, cursor: string): Result<int, ErrorCode> {
    match ParseFrom(cursor)
    case Failure(e) => Failure(e)
    case Success(from) =>
      match StartOffset(st, now, t, from)
      case None => Failure(CursorExpired)
      case Some(o) => Success(o)
  }

  lemma StartsByText(st: Stream, now: int, t: string, cursor: string)
    ensures StartsFrom(st, now, t, cursor, StartParse(st, now, t, cursor))
  {
    hide Split, Number, Stream.FirstLive;
    SplitReads(cursor);
    forall topic, raw ensures !Spells("earliest", topic, raw) && !Spells("latest", topic, raw) {
      WordsApart(topic, raw);
    }
    var r := StartParse(st, now, t, cursor);
    forall topic, raw | Spells(cursor, topic, raw)
      ensures r == if topic != t then Success(|st.recs| - 1)
                   else if Number(raw) < st.FirstLive(now) < |st.recs| then Failure(CursorExpired)
                   else Success(Number(raw))
    {
      assert ParseFrom(cursor) == Success(After(topic, Number(raw)));
    }
  }

  /** The validating read of a start cursor. */
  lemma StartReads(topic: string, st: Stream, now: int, cursor: string, o: nat)
    requires ParseFrom(cursor) == Success(After(topic, o))
    ensures cursor != EARLIEST && cursor != LATEST && OffsetOf(cursor) == Success(o)
    ensures var r := Reading(topic, st, now, Some(cursor), Some(cursor), 1);
      if Fetch(st, now, o, o, 1).Stale? then r == Failure(CursorExpired) else r.Success?
  {
    hide Stream.FirstLive;
  }

  /** The new subscription is there, with the captured offsets as its starts, and served if it may be. */
  ghost predicate Begun(u: World, w: World, id: string, topics: seq<string>, from: From, deferred: bool,
                        authorised: string -> bool)
  {
    && id in w.subs && w.subs[id].topics == topics && w.logs == u.logs && w.clock == u.clock
    && (forall t :: t in topics ==> t in u.logs && StartOffset(u.logs[t], u.clock, t, from).Some?)
    && (forall t :: t in topics ==> Start(w, id, t) == StartOffset(u.logs[t], u.clock, t, from).value)
    && (deferred ==> forall t :: t in topics ==> Mark(w, id, t) == Start(w, id, t))
    && (!deferred && Serving(w, id) && authorised(id) ==>
          forall t :: t in topics ==> Backlog(w.logs[t], w.clock, Mark(w, id, t)) == 0)
    && (forall x :: x in u.subs ==> x in w.subs && w.subs[x].topics == u.subs[x].topics)
    && (forall x, y :: x != id ==> Mark(w, x, y) == Mark(u, x, y))
  }

  /** How a subscribe call past its other checks ends, by the text of its `fromCursor` alone. */
  ghost predicate SubscribedFrom(u: World, w: World, id: string, topics: seq<string>, cursor: string, deferred: bool,
                                 r: Result<(), ErrorCode>)
  {
    match r
    case Failure(e) =>
      w == u && exists t :: t in topics && t in u.logs && StartsFrom(u.logs[t], u.clock, t, cursor, Failure(e))
    case Success(_) =>
      forall t :: t in topics ==>
        && t in u.logs && StartsFrom(u.logs[t], u.clock, t, cursor, Success(Start(w, id, t)))
        && (deferred ==> Mark(w, id, t) == Start(w, id, t))
  }

  lemma RefusedText(u: World, id: string, wanted: seq<string>, topics: seq<string>, cursor: string, deferred: bool)
    requires topics == Deduped(wanted) && wanted != [] && forall t :: t in wanted ==> t in u.logs
    requires StartFrom(cursor, topics).Failure?
    ensures SubscribedFrom(u, u, id, wanted, cursor, deferred, Failure(StartFrom(cursor, topics).error))
  {
    hide StartsFrom, StartOffset;
    var t := wanted[0];
    assert t in topics;
    StartsByText(u.logs[t], u.clock, t, cursor);
  }

  lemma ExpiredText(u: World, id: string, wanted: seq<string>, topics: seq<string>, cursor: string, deferred: bool,
                    from: From)
    requires topics == Deduped(wanted) && wanted != [] && forall t :: t in wanted ==> t in u.logs
    requires StartFrom(cursor, topics) == Success(from)
    requires exists t :: t in topics && StartOffset(u.logs[t], u.clock, t, from).None?
    ensures SubscribedFrom(u, u, id, wanted, cursor, deferred, Failure(CursorExpired))
  {
    hide StartsFrom, StartOffset, ParseFrom;
    var t :| t in topics && StartOffset(u.logs[t], u.clock, t, from).None?;
    StartsByText(u.logs[t], u.clock, t, cursor);
  }

  lemma BegunText(u: World, w: World, id: string, wanted: seq<string>, topics: seq<string>, cursor: string,
                  deferred: bool, from: From, authorised: string -> bool)
    requires topics == Deduped(wanted) && wanted != []
    requires StartFrom(cursor, topics) == Success(from) && Begun(u, w, id, topics, from, deferred, authorised)
    ensures SubscribedFrom(u, w, id, wanted, cursor, deferred, Success(()))
  {
    hide StartsFrom, StartOffset, ParseFrom, Mark, Start, Backlog, Serving;
    forall t | t in wanted
      ensures t in u.logs && StartsFrom(u.logs[t], u.clock, t, cursor, Success(Start(w, id, t)))
    {
      StartsByText(u.logs[t], u.clock, t, cursor);
    }
  }

  /** Every captured start offset is the one the log gives. */
  ghost predicate CapturedAt(u: World, from: From, topics: seq<string>, starts: map<string, int>,
                             heads: map<string, nat>) {
    && (forall t :: t in topics <==> t in starts) && heads.Keys == starts.Keys
    && forall t :: t in topics ==>
         t in u.logs && StartOffset(u.logs[t], u.clock, t, from) == Some(starts[t]) && heads[t] == |u.logs[t].recs|
  }

  /** What a new subscription leaves in the stores, with or without a dispatch of it. */
  lemma AddedAside(u: World, v: World, id: string, sub: Subscription, starts: map<string, int>, taken: Taken,
                   task: string)
    requires var x := Added(u, id, sub, starts, taken);
      v == x || v == SetTask(x, task, Dispatching(id, sub.topics, Checking))
    ensures v.clock == u.clock && v.logs == u.logs && v.subs == u.subs[id := sub] && v.marks == u.marks[id := starts]
    ensures v.attempts == u.attempts && v.queue == u.queue && v.received == u.received && v.locks == u.locks
    ensures v.hist.issued == u.hist.issued
  {
  }

  lemma AddedFrame(u: World, id: string, sub: Subscription, starts: map<string, int>, taken: Taken)
    ensures var x := Added(u, id, sub, starts, taken);
      && x.tasks == u.tasks && x.locks == u.locks && x.logs == u.logs && x.clock == u.clock
      && id in x.subs && x.subs[id] == sub
      && (forall a :: a in u.subs && a != id ==> a in x.subs && x.subs[a] == u.subs[a])
      && (forall t :: t in starts ==> Mark(x, id, t) == starts[t] == Start(x, id, t))
      && (forall a, b :: a != id ==> Mark(x, a, b) == Mark(u, a, b))
  {
  }

  lemma BegunDeferred(u: World, id: string, sub: Subscription, from: From, starts: map<string, int>,
                      heads: map<string, nat>, authorised: string -> bool)
    requires id !in u.subs && CapturedAt(u, from, sub.topics, starts, heads)
    ensures Begun(u, Added(u, id, sub, starts, Taken(from, heads)), id, sub.topics, from, true, authorised)
  {
    AddedFrame(u, id, sub, starts, Taken(from, heads));
    hide StartOffset, Mark, Start, Added;
  }

  lemma SameStarts(u: World, v: World, id: string)
    requires Dispatched(u, v, id)
    ensures forall t :: Start(v, id, t) == Start(u, id, t)
  {
    hide Mark, Serving;
  }

  lemma DispatchedSub(u: World, v: World, id: string)
    requires Dispatched(u, v, id) && id in u.subs
    ensures id in v.subs && v.subs[id] == u.subs[id].(cursors := v.subs[id].cursors, status := v.subs[id].status)
  {
    hide Mark, Serving;
  }

  lemma BegunInline(u: World, w: World, id: string, sub: Subscription, from: From, starts: map<string, int>,
                    heads: map<string, nat>, authorised: string -> bool)
    requires id !in u.subs && CapturedAt(u, from, sub.topics, starts, heads)
    requires var x := Added(u, id, sub, starts, Taken(from, heads));
      && Dispatched(x, w, id)
      && (id in x.subs && Serving(x, id) && authorised(id) ==>
            forall t :: t in sub.topics && t in w.logs ==> Backlog(w.logs[t], w.clock, Mark(w, id, t)) == 0)
    ensures Begun(u, w, id, sub.topics, from, false, authorised) && w.tasks == u.tasks && w.locks == u.locks
  {
    AddedFrame(u, id, sub, starts, Taken(from, heads));
    SameStarts(Added(u, id, sub, starts, Taken(from, heads)), w, id);
    hide StartOffset, Mark, Start, Added, Backlog;
  }

  lemma AllStart(u: World, from: From, topics: seq<string>, starts: map<string, int>, heads: map<string, nat>)
    requires CapturedAt(u, from, topics, starts, heads)
    ensures forall t :: t in topics ==> t in u.logs && StartOffset(u.logs[t], u.clock, t, from).Some?
  {
    hide StartOffset;
  }

  ghost predicate StoresSame(w: World, v: World) {
    && v.clock == w.clock && v.logs == w.logs && v.subs == w.subs && v.marks == w.marks && v.attempts == w.attempts
    && v.queue == w.queue && v.received == w.received && v.locks == w.locks && v.hist.issued == w.hist.issued
  }

  lemma StartParsed(cursor: string, topics: seq<string>)
    requires topics != []
    ensures StartFrom(cursor, topics) == ParseFrom(cursor)
  {
  }

  lemma CapturedNone(u: World, from: From)
    ensures CapturedAt(u, from, [], map[], map[])
  {
  }

  lemma CapturedMore(u: World, from: From, topics: seq<string>, t: string, starts: map<string, int>,
                     heads: map<string, nat>, o: int)
    requires CapturedAt(u, from, topics, starts, heads) && t in u.logs
    requires StartOffset(u.logs[t], u.clock, t, from) == Some(o)
    ensures CapturedAt(u, from, topics + [t], starts[t := o], heads[t := |u.logs[t].recs|])
  {
    hide StartOffset;
  }
}
