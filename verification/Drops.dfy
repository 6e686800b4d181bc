/**
 * What the worker's review decides.  An event that only a retry item still owes is lost exactly when
 * the item is reviewed while its subscription is not active.
 */
module Drops {
  import opened Contracts
  import opened Cursors
  import opened Stream
  import opened Dispatch
  import opened NoLoss
  import opened Steps

  /** What "loss is not possible" would promise of an event at or below the high-water mark. */
  ghost predicate Promised(w: World, s: string, t: string, o: int) {
    Missed(w, s, t, o) || Finished(w, s, t, o) || Queued(w, s, t, o) || Aged(w, t, o)
  }

  /** The event of `item` is live, asked for and unfinished, and no other queued item is about it. */
  ghost predicate OwedAlone(w: World, item: RetryItem) {
    var s, t, o := item.sub, item.topic, item.offset;
    && s in w.subs && Logged(w, t, o) && w.logs[t].LiveAt(w.clock, o)
    && !Missed(w, s, t, o) && !Finished(w, s, t, o)
    && item.retryId in w.queue && Holds(w.queue[item.retryId], s, t, o)
    && forall q :: q in w.queue && Holds(w.queue[q], s, t, o) ==> q == item.retryId
  }

  lemma KeptPromise(w: World, v: World, item: RetryItem)
    requires OwedAlone(w, item) && v.queue == w.queue
    ensures Promised(v, item.sub, item.topic, item.offset)
  {
    assert Holds(v.queue[item.retryId], item.sub, item.topic, item.offset);
    hide Missed, Finished, Aged;
  }

  lemma BrokenPromise(w: World, v: World, item: RetryItem)
    requires OwedAlone(w, item) && v.queue == w.queue - {item.retryId}
    requires v.logs == w.logs && v.subs == w.subs && v.attempts == w.attempts && v.clock == w.clock
    ensures !Promised(v, item.sub, item.topic, item.offset)
  {
  }

  /**
   * The exact condition, at the step that decides: when the worker reviews the item and goes one step
   * on, the event is still promised if and only if the subscription was active.
   */
  lemma ReviewDecides(cfg: Config, w: World, id: string, rest: seq<RetryItem>, first: Input, second: Input)
    requires AtWork(w, id, rest, Reviewing) && OwedAlone(w, rest[0]) && w.logs[rest[0].topic].Ordered()
    requires Enabled(cfg, w, Run(id, first)) && Enabled(cfg, Apply(cfg, w, Run(id, first)), Run(id, second))
    ensures var v := Apply(cfg, Apply(cfg, w, Run(id, first)), Run(id, second));
      Promised(v, rest[0].sub, rest[0].topic, rest[0].offset) <==> w.subs[rest[0].sub].status == Active
  {
    var item := rest[0];
    hide OwedAlone, Promised;
    InputFits(cfg, w, id, first);
    WorkStep(cfg, w, id, rest, Reviewing, first);
    ReviewWorld(cfg, w, id, rest, first);
    assert item.sub in w.subs by { OwedSub(w, item); }
    var x := Apply(cfg, w, Run(id, first));
    InputFits(cfg, x, id, second);
    hide Enabled, Apply, RunWork, SetTask;
    if w.subs[item.sub].status == Active {
      TaskAside(w, id, Working(rest, Loading));
      WorkStep(cfg, x, id, rest, Loading, second);
      LoadKeepsQueue(cfg, x, id, rest, second);
      KeptPromise(w, Apply(cfg, x, Run(id, second)), item);
    } else {
      TaskAside(Drop(w, item), id, Working(rest, Completing));
      WorkStep(cfg, x, id, rest, Completing, second);
      CompleteWorld(cfg, x, id, rest, second);
      TaskAside(x.(queue := x.queue - {item.retryId}), id, Working(rest[1..], Reviewing));
      BrokenPromise(w, Apply(cfg, x, Run(id, second)), item);
    }
  }

  lemma OwedSub(w: World, item: RetryItem)
    requires OwedAlone(w, item)
    ensures item.sub in w.subs
  {
  }

  lemma InputFits(cfg: Config, w: World, id: string, inp: Input)
    requires Enabled(cfg, w, Run(id, inp))
    ensures id in w.tasks && (inp.ack ==> inp.taken) && inp.retryId !in w.hist.issued
  {
  }

  lemma LoadKeepsQueue(cfg: Config, w: World, id: string, rest: seq<RetryItem>, inp: Input)
    requires AtWork(w, id, rest, Loading)
    ensures RunWork(cfg, w, id, inp).queue == w.queue
  {
    hide Loads;
    if rest[0].topic in w.logs {
      LoadStep(cfg, w, id, rest, Loading, inp);
      hide RunWork;
    }
    hide Effect, NextPhase, Fetch;
  }

  // --- Along a run ------------------------------------------------------------------------------------

  /** This step is the worker's review of an item for `k`. */
  predicate Reviews(w: World, e: Event, k: Spot) {
    && e.Run? && e.task in w.tasks && w.tasks[e.task].Working?
    && w.tasks[e.task].rest != [] && w.tasks[e.task].work.Reviewing?
    && var item := w.tasks[e.task].rest[0]; Spot(item.sub, item.topic, item.offset) == k
  }

  predicate ActiveNow(w: World, s: string) { s in w.subs && w.subs[s].status == Active }

  /** Whenever an item for `k` is reviewed its subscription is active. */
  ghost predicate ReviewedActive(cfg: Config, w: World, es: seq<Event>, k: Spot)
    requires Possible(cfg, w, es)
    decreases |es|
  {
    es != [] ==>
      (Reviews(w, es[0], k) ==> ActiveNow(w, k.sub)) && ReviewedActive(cfg, Apply(cfg, w, es[0]), es[1..], k)
  }

  /** Nothing was dropped between the two. */
  ghost predicate SameDrops(w: World, v: World) { v.hist.dropped == w.hist.dropped }

  /** A task is no history. */
  lemma TaskDrops(w: World, v: World, id: string, task: Task)
    requires SameDrops(w, v)
    ensures SameDrops(w, SetTask(v, id, task)) && SameDrops(w, EndTask(v, id))
  {
  }

  lemma StoreDrops(w: World, s: string, t: string, o: int, cursor: string)
    ensures SameDrops(w, SetMark(w, s, t, o)) && SameDrops(w, w)
    ensures o >= 0 ==> SameDrops(w, AckMark(w, s, t, o))
    ensures s in w.subs ==> SameDrops(w, AdvanceCursor(w, s, t, cursor)) && SameDrops(w, ExpireIfDue(w, s))
  {
    hide Less;
  }

  lemma PageDrops(w: World, id: string, s: string, topics: seq<string>, page: PageStage)
    ensures SameDrops(w, OnPage(w, id, s, topics, page)) && SameDrops(w, Release(w, id, s))
    ensures SameDrops(w, SetTask(w, id, Dispatching(s, topics, Position)))
  {
  }

  lemma EffectDrops(cfg: Config, w: World, s: string, t: string, o: nat, phase: Phase, inp: Input)
    requires s in w.subs && Logged(w, t, o)
    ensures SameDrops(w, Effect(cfg, w, s, t, o, phase, inp))
  {
    hide Encode, Less, StatusOf, Mark;
  }

  // --- The steps of each kind of task -------------------------------------------------------------------

  lemma RedeliveryDrops(cfg: Config, w: World, id: string, inp: Input)
    requires id in w.tasks && w.tasks[id].Working? && w.tasks[id].rest != [] && w.tasks[id].work.Redelivering?
    ensures SameDrops(w, RunWork(cfg, w, id, inp))
  {
    hide Effect, NextPhase, SetTask, SameDrops;
    var Working(rest, work) := w.tasks[id];
    var item := rest[0];
    var phase := work.phase;
    if item.sub !in w.subs || !Logged(w, item.topic, item.offset) {
      StoreDrops(w, item.sub, item.topic, 0, "");
      TaskDrops(w, w, id, Working(rest, Completing));
    } else if phase.HandOver? {
      PostponedDrops(w, item.retryId, phase.n, inp.at);
      RescheduleWorld(cfg, w, id, rest, phase.n, inp);
      hide PostponedIn;
      TaskDrops(w, PostponedIn(w, item.retryId, phase.n, inp.at), id, Working(rest[1..], Reviewing));
      hide RunWork;
    } else {
      var v := Effect(cfg, w, item.sub, item.topic, item.offset, phase, inp);
      EffectDrops(cfg, w, item.sub, item.topic, item.offset, phase, inp);
      match NextPhase(cfg, w, item.sub, item.topic, phase, inp)
      case Some(p) => TaskDrops(w, v, id, Working(rest, Redelivering(p)));
      case None => TaskDrops(w, v, id, Working(rest, Completing));
    }
  }

  lemma PostponedDrops(w: World, q: string, n: nat, at: int)
    ensures SameDrops(w, PostponedIn(w, q, n, at))
  {
  }

  lemma LoadDrops(cfg: Config, w: World, id: string, inp: Input)
    requires id in w.tasks && w.tasks[id].Working? && w.tasks[id].rest != []
    requires w.tasks[id].work.Loading? || w.tasks[id].work.Reloading?
    ensures SameDrops(w, RunWork(cfg, w, id, inp))
  {
    hide Effect, NextPhase, Fetch, Loads, SetTask, SameDrops;
    var Working(rest, work) := w.tasks[id];
    StoreDrops(w, rest[0].sub, rest[0].topic, 0, "");
    if rest[0].topic in w.logs {
      LoadStep(cfg, w, id, rest, work, inp);
      TaskDrops(w, w, id, Working(rest, Loads(w, rest[0], work)));
      hide RunWork;
    } else {
      TaskDrops(w, w, id, Working(rest, Completing));
    }
  }

  lemma ReviewDrops(cfg: Config, w: World, id: string, inp: Input, k: Spot)
    requires id in w.tasks && w.tasks[id].Working?
    requires w.tasks[id].rest == [] || w.tasks[id].work.Reviewing? || w.tasks[id].work.Completing?
    ensures k in RunWork(cfg, w, id, inp).hist.dropped
       <==> k in w.hist.dropped || (Reviews(w, Run(id, inp), k) && !ActiveNow(w, k.sub))
  {
    var Working(rest, work) := w.tasks[id];
    if rest == [] {
      hide ActiveNow;
    } else if work.Reviewing? {
      ReviewWorld(cfg, w, id, rest, inp);
      hide RunWork;
    } else {
      CompleteWorld(cfg, w, id, rest, inp);
      hide RunWork, ActiveNow;
    }
  }

  lemma WorkDrops(cfg: Config, w: World, id: string, inp: Input, k: Spot)
    requires id in w.tasks && w.tasks[id].Working?
    ensures k in RunWork(cfg, w, id, inp).hist.dropped
       <==> k in w.hist.dropped || (Reviews(w, Run(id, inp), k) && !ActiveNow(w, k.sub))
  {
    hide RunWork, ActiveNow;
    var Working(rest, work) := w.tasks[id];
    if rest != [] && work.Redelivering? {
      RedeliveryDrops(cfg, w, id, inp);
    } else if rest != [] && (work.Loading? || work.Reloading?) {
      LoadDrops(cfg, w, id, inp);
    } else {
      ReviewDrops(cfg, w, id, inp, k);
    }
  }

  lemma CatchUpDrops(cfg: Config, w: World, id: string, s: string, topics: seq<string>, page: PageStage, inp: Input)
    requires s in w.subs && topics != [] && topics[0] in w.logs
    ensures SameDrops(w, RunCatchUp(cfg, w, id, s, topics, page, inp))
  {
    hide Effect, NextPhase, Fetch, OnPage, SetTask, Mark, SameDrops, Release;
    var t := topics[0];
    if page.Handling? {
      PageDrops(w, id, s, topics, page);
      if Logged(w, t, page.next) { HandlingDrops(cfg, w, id, s, topics, page.next, page.hi, page.phase, inp); }
    } else if page.SettleMark? {
      PageDrops(w, id, s, topics, page);
      if page.scan > page.mark {
        StoreDrops(w, s, t, page.scan, "");
        TaskDrops(w, SetMark(w, s, t, page.scan), id, Dispatching(s, topics, Position));
      }
      hide SetMark;
    } else {
      CatchUpMoves(cfg, w, id, s, topics, page, inp);
      hide RunCatchUp;
      MovesDrops(w, RunCatchUp(cfg, w, id, s, topics, page, inp));
    }
  }

  lemma MovesDrops(w: World, v: World)
    requires SameStores(w, v)
    ensures SameDrops(w, v)
  {
  }

  lemma HandlingDrops(cfg: Config, w: World, id: string, s: string, topics: seq<string>, next: nat, hi: nat,
                      phase: Phase, inp: Input)
    requires s in w.subs && topics != [] && topics[0] in w.logs && Logged(w, topics[0], next)
    ensures SameDrops(w, RunCatchUp(cfg, w, id, s, topics, Handling(next, hi, phase), inp))
  {
    hide Effect, NextPhase, SetTask, SameDrops;
    var v := Effect(cfg, w, s, topics[0], next, phase, inp);
    EffectDrops(cfg, w, s, topics[0], next, phase, inp);
    match NextPhase(cfg, w, s, topics[0], phase, inp)
    case Some(p) => TaskDrops(w, v, id, Dispatching(s, topics, On(Handling(next, hi, p))));
    case None => TaskDrops(w, v, id, Dispatching(s, topics, On(Scanning(next + 1, hi, next))));
  }

  lemma CheckDrops(w: World, v: World, id: string, s: string, topics: seq<string>)
    requires SameDrops(w, v)
    ensures SameDrops(w, EndTask(v.(hist := v.hist.(lapsed := v.hist.lapsed + {s})), id))
    ensures SameDrops(w, SetTask(v, id, Dispatching(s, topics, Waiting)))
  {
  }

  lemma LockDrops(w: World, id: string, s: string, topics: seq<string>)
    ensures SameDrops(w, SetTask(w.(locks := w.locks[s := id]), id, Dispatching(s, topics, Position)))
  {
  }

  /** No step of a dispatch drops anything. */
  lemma DispatchDrops(cfg: Config, w: World, id: string, inp: Input)
    requires id in w.tasks && w.tasks[id].Dispatching?
    ensures SameDrops(w, RunDispatch(cfg, w, id, inp))
  {
    hide RunCatchUp, Mark, ExpireIfDue, SetTask, EndTask, OnPage, Release, SameDrops;
    var Dispatching(s, topics, stage) := w.tasks[id];
    StoreDrops(w, s, "", 0, "");
    TaskDrops(w, w, id, Dispatching(s, topics, Waiting));
    if s in w.subs {
      if stage.Checking? {
        CheckDrops(w, ExpireIfDue(w, s), id, s, topics);
      } else if stage.Waiting? {
        LockDrops(w, id, s, topics);
      } else if topics == [] || stage.Position? || topics[0] !in w.logs {
        PageDrops(w, id, s, topics, if topics == [] then Settling(0) else Fetching(Mark(w, s, topics[0])));
      } else {
        CatchUpDrops(cfg, w, id, s, topics, stage.page, inp);
      }
    }
  }

  lemma AckDrops(w: World, id: string)
    requires id in w.tasks && w.tasks[id].Acking?
    ensures SameDrops(w, RunAck(w, id))
  {
    hide AdvanceCursor, SetMark, AckMark, Mark;
    var Acking(s, t, o, cursor, stage) := w.tasks[id];
    StoreDrops(w, s, t, o, cursor);
  }

  lemma SubscribeDrops(cfg: Config, w: World, id: string)
    requires id in w.tasks && w.tasks[id].Subscribing?
    ensures SameDrops(w, RunSubscribe(cfg, w, id))
  {
    hide StartOffset;
  }

  lemma PublishDrops(cfg: Config, w: World, id: string, inp: Input)
    requires id in w.tasks && w.tasks[id].Publishing?
    ensures SameDrops(w, RunPublish(cfg, w, id, inp))
  {
  }

  lemma RunDrops(cfg: Config, w: World, id: string, inp: Input, k: Spot)
    requires Enabled(cfg, w, Run(id, inp))
    ensures k in Apply(cfg, w, Run(id, inp)).hist.dropped
       <==> k in w.hist.dropped || (Reviews(w, Run(id, inp), k) && !ActiveNow(w, k.sub))
  {
    hide RunWork, RunDispatch, RunAck, RunSubscribe, RunPublish, Fanned, Blocked;
    match w.tasks[id]
    case Working(_, _) => WorkDrops(cfg, w, id, inp, k);
    case Dispatching(_, _, _) => DispatchDrops(cfg, w, id, inp);
    case Acking(_, _, _, _, _) => AckDrops(w, id);
    case Subscribing(_, _, _, _, _, _) => SubscribeDrops(cfg, w, id);
    case Publishing(_, _) => PublishDrops(cfg, w, id, inp);
  }

  lemma OtherDrops(cfg: Config, w: World, e: Event)
    requires Enabled(cfg, w, e) && !e.Run?
    ensures SameDrops(w, Apply(cfg, w, e))
  {
    hide RunWork, RunDispatch, RunPublish, RunSubscribe, RunAck, Fresh, Fanned, Blocked, Split, Leased, ExpireIfDue;
    match e
    case StartAck(_, id, _) => StoreDrops(w, id, "", 0, "");
    case Lapse(id) => StoreDrops(w, id, "", 0, "");
    case StartWork(_, claimed, leased) =>
      assert SameDrops(w, Leased(w, claimed, leased)) by { LeasedDrops(w, claimed, leased); }
    case _ =>
  }

  lemma LeasedDrops(w: World, claimed: seq<string>, leased: int)
    ensures SameDrops(w, Leased(w, claimed, leased))
  {
  }

  lemma EventDrops(cfg: Config, w: World, e: Event, k: Spot)
    requires Enabled(cfg, w, e)
    ensures k in Apply(cfg, w, e).hist.dropped
       <==> k in w.hist.dropped || (Reviews(w, e, k) && !ActiveNow(w, k.sub))
  {
    hide Enabled, Apply, ActiveNow;
    if e.Run? {
      hide Reviews;
      RunDrops(cfg, w, e.task, e.input, k);
    } else {
      OtherDrops(cfg, w, e);
    }
  }

  /** What the history calls dropped is exactly what was reviewed while not active. */
  lemma {:induction false} DroppedExactly(cfg: Config, w: World, es: seq<Event>, k: Spot)
    requires Possible(cfg, w, es)
    ensures k in Outcome(cfg, w, es).hist.dropped <==> k in w.hist.dropped || !ReviewedActive(cfg, w, es, k)
    decreases |es|
  {
    hide Enabled, Apply, Reviews, ActiveNow;
    if es != [] {
      EventDrops(cfg, w, es[0], k);
      DroppedExactly(cfg, Apply(cfg, w, es[0]), es[1..], k);
    }
  }

  /** Reviewed while active only, an event is never lost, short of the subscriber acking past it. */
  lemma KeptWhenActive(cfg: Config, w: World, es: seq<Event>, s: string, t: string, o: nat)
    requires Initial(w) && cfg.maxAttempts >= 1 && Possible(cfg, w, es) && ReviewedActive(cfg, w, es, Spot(s, t, o))
    requires var v := Outcome(cfg, w, es);
      s in v.subs && t in v.subs[s].topics && Start(v, s, t) < o <= Mark(v, s, t) && !AckedPast(v, s, t, o)
    ensures Promised(Outcome(cfg, w, es), s, t, o)
  {
    hide Possible, Outcome, Missed, Finished, Aged, Queued, AckedPast, ReviewedActive;
    DroppedExactly(cfg, w, es, Spot(s, t, o));
    NeverLost(cfg, w, es);
    assert Accounted(Outcome(cfg, w, es), s, t, o);
  }
}
