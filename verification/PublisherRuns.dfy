/** What every run of the machine keeps, said of the stores of the publisher's code. */
module PublisherRuns {
  import opened Contracts
  import opened Cursors
  import opened Stream
  import opened Dispatch
  import opened NoLoss
  import opened EndToEnd
  import opened Steps
  import Deliveries
  import Verdicts
  import R = Runtime

  ghost predicate Distinct(topics: seq<string>) {
    forall i, j :: 0 <= i < j < |topics| ==> topics[i] != topics[j]
  }

  /** No subscription names a topic twice, nor will one that is being made. */
  ghost predicate TopicsOnce(w: World) {
    && (forall s :: s in w.subs ==> Distinct(w.subs[s].topics))
    && forall id :: id in w.tasks && w.tasks[id].Subscribing? ==> Distinct(w.tasks[id].sub.topics)
  }

  lemma TaskOnce(x: World, id: string, task: Task)
    requires TopicsOnce(x) && (task.Subscribing? ==> Distinct(task.sub.topics))
    ensures TopicsOnce(SetTask(x, id, task)) && TopicsOnce(EndTask(x, id))
  {
    hide Distinct;
  }

  lemma AddOnce(w: World, s: string, sub: Subscription, starts: map<string, int>, taken: Taken)
    requires TopicsOnce(w) && Distinct(sub.topics)
    ensures TopicsOnce(Added(w, s, sub, starts, taken))
  {
    hide Distinct;
  }

  lemma SubscribeOnce(cfg: Config, w: World, id: string)
    requires TopicsOnce(w) && id in w.tasks && w.tasks[id].Subscribing?
    ensures TopicsOnce(RunSubscribe(cfg, w, id))
  {
    var Subscribing(s, sub, from, todo, starts, heads) := w.tasks[id];
    var x := Added(w, s, sub, starts, Taken(from, heads));
    AddOnce(w, s, sub, starts, Taken(from, heads));
    TaskOnce(w, id, w.tasks[id]);
    TaskOnce(x, id, Dispatching(s, sub.topics, Checking));
    if todo != [] && todo[0] in w.logs && StartOffset(w.logs[todo[0]], w.clock, todo[0], from).Some? {
      var o := StartOffset(w.logs[todo[0]], w.clock, todo[0], from).value;
      TaskOnce(w, id, Subscribing(s, sub, from, todo[1..], starts[todo[0] := o],
                                  heads[todo[0] := |w.logs[todo[0]].recs|]));
    }
    hide TopicsOnce, Added, SetTask, EndTask, StartOffset;
  }

  lemma EventOnce(cfg: Config, w: World, e: Event)
    requires Invariant(cfg, w) && TopicsOnce(w) && Enabled(cfg, w, e)
    ensures TopicsOnce(Apply(cfg, w, e))
  {
    hide LogsOk;
    var v := Apply(cfg, w, e);
    if e.Run? && w.tasks[e.task].Subscribing? {
      SubscribeOnce(cfg, w, e.task);
    } else {
      EventReceives(cfg, w, e);
      hide Invariant;
      if e.Subscribe? { assert v == w.(tasks := v.tasks) && Distinct(v.tasks[e.task].sub.topics); }
      hide Distinct;
    }
  }

  lemma {:induction false} RunsOnce(cfg: Config, w: World, es: seq<Event>)
    requires Invariant(cfg, w) && TopicsOnce(w) && Possible(cfg, w, es)
    ensures TopicsOnce(Outcome(cfg, w, es)) && Invariant(cfg, Outcome(cfg, w, es))
    decreases |es|
  {
    hide Invariant, TopicsOnce;
    if es != [] {
      EventKeeps(cfg, w, es[0]);
      EventOnce(cfg, w, es[0]);
      RunsOnce(cfg, Apply(cfg, w, es[0]), es[1..]);
    }
  }

  // --- The publisher's code ---------------------------------------------------------------------------

  /** A publisher that was made by its constructor, and whatever was called on it since. */
  ghost predicate Running(p: R.Publisher)
    reads p, p.store, p.subs, p.queue, p.transport
  {
    p.Valid() && Initial(p.origin) && p.cfg.maxAttempts >= 1
  }

  lemma Reached(p: R.Publisher)
    requires Running(p)
    ensures Invariant(p.cfg, p.w) && TopicsOnce(p.w)
  {
    InitialOk(p.cfg, p.origin);
    RunsOnce(p.cfg, p.origin, p.trace);
  }

  /** Nothing at or below a mark of the subscription store is lost. */
  lemma StoresLoseNothing(p: R.Publisher, s: string, t: string, o: int)
    requires Running(p) && s in p.subs.subs && t in p.subs.subs[s].topics
    requires s in p.subs.marks && t in p.subs.marks[s] && Start(p.w, s, t) < o <= p.subs.marks[s][t]
    ensures Accounted(p.w, s, t, o)
    ensures p.w.attempts == p.subs.attempts && p.w.queue == p.queue.items && p.w.logs == p.store.streams
  {
    NeverLost(p.cfg, p.origin, p.trace);
    assert AccountedUpTo(p.w, s, t, Mark(p.w, s, t));
  }

  /** No endpoint holds an event twice, and every delivered attempt of the store names an event its endpoint holds. */
  lemma EndpointsHoldOnce(p: R.Publisher, i: nat)
    requires Running(p)
    ensures forall e :: e in p.transport.received ==> NoRepeats(p.transport.received[e])
    ensures i < |p.subs.attempts| && p.subs.attempts[i].status == Delivered ==>
              var a := p.subs.attempts[i];
              && a.sub in p.subs.subs && p.subs.subs[a.sub].endpoint in p.transport.received
              && a.eventId in p.transport.received[p.subs.subs[a.sub].endpoint]
  {
    forall e | e in p.transport.received ensures NoRepeats(p.transport.received[e]) {
      ReceivedOnce(p.cfg, p.origin, p.trace, e);
      assert Received(p.w, e) == p.transport.received[e];
    }
    if i < |p.subs.attempts| && p.subs.attempts[i].status == Delivered {
      DeliveredMeansReceived(p.cfg, p.origin, p.trace, i);
    }
  }

  /**
   * Each attempt of the store was answered, and is recorded as delivered exactly when the answer acked it and
   * as a dead letter exactly when it did not and allowed no retry, or no attempt was left.
   */
  lemma StoresRecordAnswers(p: R.Publisher)
    requires Running(p)
    ensures var answers := Verdicts.Noted(p.cfg, p.origin, p.trace, Verdicts.BLANK).answers;
      && |answers| == |p.subs.attempts|
      && forall i :: 0 <= i < |answers| ==>
           && (p.subs.attempts[i].status == Delivered <==> answers[i].ack)
           && (p.subs.attempts[i].status == DeadLetter <==>
                 !answers[i].ack && (!answers[i].retry || p.subs.attempts[i].attempt >= p.cfg.maxAttempts))
  {
    hide Verdicts.Noted;
    Verdicts.VerdictsFit(p.cfg, p.origin, p.trace);
  }

  /** What the dispatching calls ask of the state always holds between calls. */
  lemma AlwaysReady(p: R.Publisher)
    requires Running(p)
    ensures Deliveries.Declared(p.w) && forall q :: q in p.w.queue ==> p.w.queue[q].topic != ""
  {
    Reached(p);
    DeclaredIs(p.cfg, p.w);
    forall q | q in p.w.queue ensures p.w.queue[q].topic != "" {
      assert ItemOk(p.cfg, p.w, p.w.queue[q]);
      var t := p.w.queue[q].topic;
      assert t in p.store.streams;
    }
  }

  lemma DeclaredIs(cfg: Config, w: World)
    requires Invariant(cfg, w) && TopicsOnce(w)
    ensures Deliveries.Declared(w)
  {
    forall s | s in w.subs ensures Distinct(w.subs[s].topics) {}
  }
}
