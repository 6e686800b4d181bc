/**
 * Quiescence means caught up: once no call is in progress, an inline publisher owes no live
 * event to any subscription that stayed active and authorised, whatever order the calls
 * interleaved in.  This covers both cutover races: an event published while a subscription is
 * being created, and a subscription created while an event is being published.
 */
module Quiescence {
  import opened Contracts
  import opened Cursors
  import opened Stream
  import opened Dispatch
  import opened NoLoss
  import opened Inline
  import opened InlineRuns

  /** A live event past the subscription's high-water mark. */
  ghost predicate Owed(w: World, s: string, t: string, o: int) {
    && s in w.subs && t in w.subs[s].topics
    && Logged(w, t, o)
    && Mark(w, s, t) < o
    && w.logs[t].LiveAt(w.clock, o)
  }

  /** This call will still bring the event to the subscription. */
  predicate Covers(task: Task, s: string, t: string, o: int) {
    || (task.Publishing? && task.topic == t && task.offset == o)
    || (task.Dispatching? && task.id == s && t in task.topics)
  }

  ghost predicate Attended(w: World, s: string, t: string, o: int) {
    exists id :: id in w.tasks && Covers(w.tasks[id], s, t, o)
  }

  ghost predicate CaughtUp(w: World) {
    forall s, t, o :: Owed(w, s, t, o) && s !in w.hist.lapsed ==> Attended(w, s, t, o)
  }

  /** What is owed after a step was owed before it and is not let go, or is attended to now. */
  ghost predicate Keeps(w: World, v: World, id: string, s: string, t: string, o: int) {
    || Attended(v, s, t, o)
    || (Owed(w, s, t, o) && s !in w.hist.lapsed && !(id in w.tasks && Covers(w.tasks[id], s, t, o)))
  }

  lemma OneTaskMoves(w: World, v: World, id: string)
    requires CaughtUp(w)
    requires forall x :: x in w.tasks && x != id ==> x in v.tasks && v.tasks[x] == w.tasks[x]
    requires forall s, t, o :: Owed(v, s, t, o) && s !in v.hist.lapsed ==> Keeps(w, v, id, s, t, o)
    ensures CaughtUp(v)
  {
    forall s, t, o | Owed(v, s, t, o) && s !in v.hist.lapsed ensures Attended(v, s, t, o) {
      assert Keeps(w, v, id, s, t, o);
      if Owed(w, s, t, o) && s !in w.hist.lapsed && !(id in w.tasks && Covers(w.tasks[id], s, t, o)) {
        var x :| x in w.tasks && Covers(w.tasks[x], s, t, o);
        assert Covers(v.tasks[x], s, t, o);
      }
    }
  }

  /** Logs, marks and clock as before, terms of the subscriptions as before. */
  lemma OwedBefore(w: World, v: World, s: string, t: string, o: int)
    requires Owed(v, s, t, o) && s in w.subs && Mark(v, s, t) == Mark(w, s, t) && w.clock <= v.clock
    requires v.subs[s].topics == w.subs[s].topics
    requires t in w.logs && v.logs[t].retention == w.logs[t].retention && w.logs[t].recs <= v.logs[t].recs
    requires o < |w.logs[t].recs|
    ensures Owed(w, s, t, o)
  {
    assert v.logs[t].recs[o] == w.logs[t].recs[o];
  }

  // --- The catch-up loop lets a topic go only at the head -----------------------------------------

  ghost predicate AtHead(w: World, s: string, t: string) {
    forall o :: Logged(w, t, o) && Mark(w, s, t) < o ==> !w.logs[t].LiveAt(w.clock, o)
  }

  lemma EmptyPageAtHead(w: World, s: string, t: string, after: int, limit: int)
    requires t in w.logs && LogsOk(w) && limit >= 1 && after <= Mark(w, s, t)
    requires Fetch(w.logs[t], w.clock, after, |w.logs[t].recs|, limit) == Range(0, 0)
    ensures AtHead(w, s, t)
  {
    var f := w.logs[t].FirstLive(w.clock);
    assert f < |w.logs[t].recs| ==> Max(after + 1, f) >= |w.logs[t].recs|;
  }

  /** A loop whose read comes back empty has passed every live event. */
  lemma EmptyLeaves(cfg: Config, w: World, id: string, s: string, topics: seq<string>, page: PageStage)
    requires Ready(cfg, w, id, s, topics, page) && (page.Fetching? || page.Refetching?)
    ensures var log := w.logs[topics[0]];
      var p := Fetch(log, w.clock, if page.Fetching? then page.position else -1, |log.recs|, cfg.pageSize);
      p == Range(0, 0) ==> AtHead(w, s, topics[0])
  {
    hide LogsOk, AtHead, Fetch, PageOk, Forward, GapsOld, SeenLive, Hits, Outcomes, ChainOf;
    var log := w.logs[topics[0]];
    var after := if page.Fetching? then page.position else -1;
    BusyIs(w, id, s, topics, On(page));
    assert page.position == Mark(w, s, topics[0]);
    if Fetch(log, w.clock, after, |log.recs|, cfg.pageSize) == Range(0, 0) {
      assert Mark(w, s, topics[0]) >= -1 by { FrontierLow(cfg, w, id, s, topics, page); }
      EmptyPageAtHead(w, s, topics[0], after, cfg.pageSize);
    }
  }

  lemma FrontierLow(cfg: Config, w: World, id: string, s: string, topics: seq<string>, page: PageStage)
    requires Ready(cfg, w, id, s, topics, page) && (page.Fetching? || page.Refetching?)
    ensures Mark(w, s, topics[0]) >= -1
  {
    hide LogsOk, PageOk, GapsOld, SeenLive, Hits, Outcomes, ChainOf;
    BusyIs(w, id, s, topics, On(page));
    assert Frontier(AccountOf(w, s, topics[0])) >= -1;
  }

  lemma TaskPlace(w: World, id: string)
    ensures forall task :: id in SetTask(w, id, task).tasks && SetTask(w, id, task).tasks[id] == task
    ensures forall task :: SetTask(w, id, task).marks == w.marks
  {
  }

  lemma FreshRead(st: Stream, now: int, limit: int)
    ensures Fetch(st, now, -1, |st.recs|, limit).Range?
  {
  }

  /** A read either keeps the topic or was empty. */
  lemma FetchTopics(cfg: Config, w: World, id: string, s: string, topics: seq<string>, page: PageStage, inp: Input)
    requires s in w.subs && topics != [] && topics[0] in w.logs && (page.Fetching? || page.Refetching?)
    ensures var v := RunCatchUp(cfg, w, id, s, topics, page, inp);
      var log := w.logs[topics[0]];
      var p := Fetch(log, w.clock, if page.Fetching? then page.position else -1, |log.recs|, cfg.pageSize);
      && id in v.tasks && v.tasks[id].Dispatching? && v.tasks[id].id == s
      && (v.tasks[id].topics == topics
          || (v.tasks[id].topics == topics[1..] && v.marks == w.marks && p.Range? && p.lo == p.hi))
  {
    hide SeePage, Effect, NextPhase, SetMark, Matched, Mark, Release, Fetch, SetTask;
    var log := w.logs[topics[0]];
    var p := Fetch(log, w.clock, if page.Fetching? then page.position else -1, |log.recs|, cfg.pageSize);
    TaskPlace(w, id);
    if p.Range? && p.lo < p.hi { TaskPlace(SeePage(w, s, topics[0], p.lo, p.hi), id); }
    assert Fetch(log, w.clock, -1, |log.recs|, cfg.pageSize).Range? by { FreshRead(log, w.clock, cfg.pageSize); }
  }

  lemma EmptyRange(st: Stream, now: int, after: int, limit: int)
    ensures var p := Fetch(st, now, after, |st.recs|, limit); p.Range? && p.lo == p.hi ==> p == Range(0, 0)
  {
    hide Stream.FirstLive;
  }

  /** Between its reads the loop keeps its topics. */
  lemma StayTopics(cfg: Config, w: World, id: string, s: string, topics: seq<string>, page: PageStage, inp: Input)
    requires s in w.subs && topics != [] && topics[0] in w.logs && !page.Fetching? && !page.Refetching?
    requires page.Handling? ==> Logged(w, topics[0], page.next)
    ensures var v := RunCatchUp(cfg, w, id, s, topics, page, inp);
      id in v.tasks && v.tasks[id].Dispatching? && v.tasks[id].id == s && v.tasks[id].topics == topics
  {
    hide Effect, NextPhase, SetMark, Matched, Mark, Fetch, SetTask;
    TaskPlace(w, id);
    TaskPlace(SetMark(w, s, topics[0], if page.SettleMark? then page.scan else 0), id);
    if page.Handling? { TaskPlace(Effect(cfg, w, s, topics[0], page.next, page.phase, inp), id); }
  }

  lemma CatchUpTopics(cfg: Config, w: World, id: string, s: string, topics: seq<string>, page: PageStage, inp: Input)
    requires Ready(cfg, w, id, s, topics, page)
    ensures var v := RunCatchUp(cfg, w, id, s, topics, page, inp);
      && id in v.tasks && v.tasks[id].Dispatching? && v.tasks[id].id == s
      && (v.tasks[id].topics == topics
          || (v.tasks[id].topics == topics[1..] && v.marks == w.marks && AtHead(w, s, topics[0])))
  {
    hide Release, Sound, Effect, NextPhase, SetMark, Matched, Mark, AtHead, SeePage, Ready, Fetch, RunCatchUp;
    ReadyKnown(cfg, w, id, s, topics, page);
    if page.Fetching? || page.Refetching? {
      EmptyLeaves(cfg, w, id, s, topics, page);
      EmptyRange(w.logs[topics[0]], w.clock, if page.Fetching? then page.position else -1, cfg.pageSize);
      FetchTopics(cfg, w, id, s, topics, page, inp);
    } else {
      StayTopics(cfg, w, id, s, topics, page, inp);
    }
  }

  lemma PageCaughtUp(cfg: Config, w: World, id: string, s: string, topics: seq<string>, page: PageStage, inp: Input)
    requires Ready(cfg, w, id, s, topics, page) && CaughtUp(w)
    ensures CaughtUp(RunCatchUp(cfg, w, id, s, topics, page, inp))
  {
    hide Sound, Effect, OnPage, Forward, PageOk, Aged, Progress, AttemptsOn;
    var v := RunCatchUp(cfg, w, id, s, topics, page, inp);
    var t := topics[0];
    assert StepsOn(w, v, id, s, t) by { CatchUpGood(cfg, w, id, s, topics, page, inp); }
    CatchUpTopics(cfg, w, id, s, topics, page, inp);
    assert v.hist.lapsed == w.hist.lapsed by { CatchUpLapsed(cfg, w, id, s, topics, page, inp); }
    hide Ready, RunCatchUp;
    forall s', t', o | Owed(v, s', t', o) && s' !in v.hist.lapsed ensures Keeps(w, v, id, s', t', o) {
      if s' == s && t' in v.tasks[id].topics {
        assert Covers(v.tasks[id], s', t', o);
      } else {
        if s' == s && t' == t { assert v.marks == w.marks; }
        assert SameTerms(w.subs[s'], v.subs[s']);
        OwedBefore(w, v, s', t', o);
      }
    }
    OneTaskMoves(w, v, id);
  }

  lemma ReadyKnown(cfg: Config, w: World, id: string, s: string, topics: seq<string>, page: PageStage)
    requires Ready(cfg, w, id, s, topics, page)
    ensures s in w.subs && topics != [] && topics[0] in w.logs
    ensures page.Handling? ==> Logged(w, topics[0], page.next)
  {
    hide Sound, LogsOk, AccountedUpTo, PhaseOk;
  }

  lemma EffectLapsed(cfg: Config, w: World, s: string, t: string, o: nat, phase: Phase, inp: Input)
    requires s in w.subs && Logged(w, t, o)
    ensures Effect(cfg, w, s, t, o, phase, inp).hist.lapsed == w.hist.lapsed
  {
    hide Encode, Less, StatusOf, Mark;
  }

  lemma OpenLapsed(w: World, id: string, s: string, topics: seq<string>)
    requires topics != []
    ensures forall task :: SetTask(w, id, task).hist == w.hist
    ensures forall lo: nat, hi: nat, task :: lo <= hi ==>
              SetTask(SeePage(w, s, topics[0], lo, hi), id, task).hist.lapsed == w.hist.lapsed
  {
    hide Scanned;
  }

  lemma CatchUpLapsed(cfg: Config, w: World, id: string, s: string, topics: seq<string>, page: PageStage, inp: Input)
    requires Ready(cfg, w, id, s, topics, page)
    ensures RunCatchUp(cfg, w, id, s, topics, page, inp).hist.lapsed == w.hist.lapsed
  {
    hide Effect, NextPhase, Fetch, Matched, Mark, Ready;
    assert s in w.subs && topics != [] && topics[0] in w.logs by { ReadyKnown(cfg, w, id, s, topics, page); }
    if page.Handling? {
      if Logged(w, topics[0], page.next) { EffectLapsed(cfg, w, s, topics[0], page.next, page.phase, inp); }
    } else if page.Fetching? || page.Refetching? {
      hide SetTask, Scanned;
      OpenLapsed(w, id, s, topics);
    }
  }

  // --- The other steps -----------------------------------------------------------------------------

  /** Steps that leave logs, marks and subscriptions' terms alone and keep the moving task's duties. */
  lemma DutiesKept(w: World, v: World, id: string)
    requires CaughtUp(w) && SubsOk(w)
    requires v.logs == w.logs && v.marks == w.marks && w.clock <= v.clock && w.hist.lapsed <= v.hist.lapsed
    requires v.subs.Keys == w.subs.Keys && forall s :: s in w.subs ==> SameTerms(w.subs[s], v.subs[s])
    requires forall x :: x in w.tasks && x != id ==> x in v.tasks && v.tasks[x] == w.tasks[x]
    requires forall s, t, o ::
               (id in w.tasks && Covers(w.tasks[id], s, t, o) && Owed(w, s, t, o) && s !in v.hist.lapsed ==>
                  Attended(v, s, t, o))
    ensures CaughtUp(v)
  {
    forall s, t, o | Owed(v, s, t, o) && s !in v.hist.lapsed ensures Keeps(w, v, id, s, t, o) {
      assert SameTerms(w.subs[s], v.subs[s]);
      OwedBefore(w, v, s, t, o);
    }
    OneTaskMoves(w, v, id);
  }

  lemma DispatchCaughtUp(cfg: Config, w: World, id: string, inp: Input)
    requires Orderly(cfg, w) && CaughtUp(w) && Enabled(cfg, w, Run(id, inp)) && w.tasks[id].Dispatching?
    ensures CaughtUp(RunDispatch(cfg, w, id, inp))
  {
    var Dispatching(s, topics, stage) := w.tasks[id];
    var v := RunDispatch(cfg, w, id, inp);
    assert TaskOk(cfg, w, w.tasks[id]);
    assert Inside(w.tasks[id]) ==> s in w.locks && w.locks[s] == id;
    match stage
    case On(page) =>
      assert topics[0] in w.subs[s].topics && Start(w, s, topics[0]) >= -1;
      hide Invariant;
      assert Ready(cfg, w, id, s, topics, page);
      hide Ready, Orderly, RunCatchUp;
      PageCaughtUp(cfg, w, id, s, topics, page, inp);
    case _ =>
      assert SubsOk(w);
      hide Orderly, Invariant;
      if stage.Checking? { CheckingDuties(cfg, w, id, inp); } else { LockDuties(cfg, w, id, inp); }
  }

  lemma CheckingTerms(cfg: Config, w: World, id: string, inp: Input)
    requires id in w.tasks && w.tasks[id].Dispatching? && w.tasks[id].id in w.subs && w.tasks[id].stage.Checking?
    ensures var v := RunDispatch(cfg, w, id, inp);
      v.subs.Keys == w.subs.Keys && forall s :: s in w.subs ==> SameTerms(w.subs[s], v.subs[s])
  {
    hide RunDispatch, SameTerms;
    CheckingSimple(cfg, w, id, inp);
  }

  lemma CheckingKeeps(cfg: Config, w: World, id: string, inp: Input)
    requires id in w.tasks && w.tasks[id].Dispatching? && w.tasks[id].id in w.subs && w.tasks[id].stage.Checking?
    ensures var v := RunDispatch(cfg, w, id, inp);
      && v.logs == w.logs && v.marks == w.marks && v.clock == w.clock && w.hist.lapsed <= v.hist.lapsed
      && (forall x :: x in w.tasks && x != id ==> x in v.tasks && v.tasks[x] == w.tasks[x])
      && forall s, t, o :: Covers(w.tasks[id], s, t, o) && s !in v.hist.lapsed ==> Attended(v, s, t, o)
  {
    var v := RunDispatch(cfg, w, id, inp);
    forall s, t, o | Covers(w.tasks[id], s, t, o) && s !in v.hist.lapsed ensures Attended(v, s, t, o) {
      assert Covers(v.tasks[id], s, t, o);
    }
  }

  /** Checking either keeps the dispatch going or finds the subscription lapsed. */
  lemma CheckingDuties(cfg: Config, w: World, id: string, inp: Input)
    requires CaughtUp(w) && SubsOk(w)
    requires id in w.tasks && w.tasks[id].Dispatching? && w.tasks[id].id in w.subs && w.tasks[id].stage.Checking?
    ensures CaughtUp(RunDispatch(cfg, w, id, inp))
  {
    hide SameTerms, CaughtUp, SubsOk, Owed;
    var Dispatching(s, topics, stage) := w.tasks[id];
    var v := RunDispatch(cfg, w, id, inp);
    CheckingKeeps(cfg, w, id, inp);
    CheckingTerms(cfg, w, id, inp);
    hide RunDispatch, Covers, Attended;
    DutiesKept(w, v, id);
  }

  /** Taking the lock keeps the topics; a dispatch leaves the lock only with no topics left. */
  lemma LockDuties(cfg: Config, w: World, id: string, inp: Input)
    requires CaughtUp(w) && SubsOk(w)
    requires id in w.tasks && w.tasks[id].Dispatching? && w.tasks[id].id in w.subs
    requires w.tasks[id].stage.Waiting? || w.tasks[id].stage.Position?
    ensures CaughtUp(RunDispatch(cfg, w, id, inp))
  {
    hide RunCatchUp;
    var Dispatching(s, topics, stage) := w.tasks[id];
    var v := RunDispatch(cfg, w, id, inp);
    assert v == w.(tasks := v.tasks, locks := v.locks);
    forall s', t, o | Covers(w.tasks[id], s', t, o) ensures Attended(v, s', t, o) {
      assert Covers(v.tasks[id], s', t, o);
    }
    assert forall x :: x in w.tasks && x != id ==> x in v.tasks && v.tasks[x] == w.tasks[x];
    hide RunDispatch, CaughtUp, SubsOk;
    DutiesKept(w, v, id);
  }

  lemma OrderlySubs(cfg: Config, w: World)
    requires Orderly(cfg, w)
    ensures SubsOk(w)
  {
    hide AllSound, Exclusive;
    InvariantStores(cfg, w);
    hide Invariant;
  }

  /** A publish hands its duty on to the dispatches it starts. */
  lemma PublishFans(cfg: Config, w: World, id: string, inp: Input)
    requires !cfg.deferred && Enabled(cfg, w, Run(id, inp)) && w.tasks[id].Publishing?
    ensures var v := RunPublish(cfg, w, id, inp);
      && v.logs == w.logs && v.marks == w.marks && v.clock == w.clock && v.hist == w.hist && v.subs == w.subs
      && (forall x :: x in w.tasks && x != id ==> x in v.tasks && v.tasks[x] == w.tasks[x])
      && forall s, t, o :: Covers(w.tasks[id], s, t, o) && Owed(w, s, t, o) ==> Attended(v, s, t, o)
  {
    hide Mark;
    var v := RunPublish(cfg, w, id, inp);
    forall s, t, o | Covers(w.tasks[id], s, t, o) && Owed(w, s, t, o) ensures Attended(v, s, t, o) {
      assert s in Audience(w, w.tasks[id].topic);
      var c :| c in inp.children && inp.children[c] == s;
      assert Covers(v.tasks[c], s, t, o);
    }
  }

  lemma PublishCaughtUp(cfg: Config, w: World, id: string, inp: Input)
    requires Orderly(cfg, w) && CaughtUp(w) && !cfg.deferred
    requires Enabled(cfg, w, Run(id, inp)) && w.tasks[id].Publishing?
    ensures CaughtUp(RunPublish(cfg, w, id, inp))
  {
    hide TaskOk, CaughtUp, Matched, Received, Orderly, SubsOk, Owed;
    OrderlySubs(cfg, w);
    var v := RunPublish(cfg, w, id, inp);
    var t := w.tasks[id].topic;
    PublishFans(cfg, w, id, inp);
    hide RunPublish, Enabled;
    DutiesKept(w, v, id);
  }

  lemma AddCaughtUp(w: World, v: World, id: string, s: string, sub: Subscription,
                    starts: map<string, int>, taken: Taken)
    requires CaughtUp(w) && SubsOk(w) && s !in w.subs
    requires v == SetTask(Added(w, s, sub, starts, taken), id, Dispatching(s, sub.topics, Checking))
    requires id in w.tasks && w.tasks[id].Subscribing?
    ensures CaughtUp(v)
  {
    forall s', t, o | Owed(v, s', t, o) && s' !in v.hist.lapsed ensures Keeps(w, v, id, s', t, o) {
      if s' == s { assert Covers(v.tasks[id], s, t, o); } else { OwedBefore(w, v, s', t, o); }
    }
    OneTaskMoves(w, v, id);
  }

  lemma SubscribeCaughtUp(cfg: Config, w: World, id: string, inp: Input)
    requires Orderly(cfg, w) && CaughtUp(w) && !cfg.deferred
    requires Enabled(cfg, w, Run(id, inp)) && w.tasks[id].Subscribing?
    ensures CaughtUp(RunSubscribe(cfg, w, id))
  {
    hide AllSound, Owed;
    var Subscribing(s, sub, from, todo, starts, heads) := w.tasks[id];
    var taken := Taken(from, heads);
    var v := RunSubscribe(cfg, w, id);
    assert SubsOk(w);
    hide Orderly, CaughtUp, SubsOk;
    if todo == [] && s !in w.subs {
      AddCaughtUp(w, v, id, s, sub, starts, taken);
    } else {
      CaptureMoves(cfg, w, id);
      hide RunSubscribe;
      DutiesKept(w, v, id);
    }
  }

  /** Capturing a start offset, or giving up, moves only the subscribing task. */
  lemma CaptureMoves(cfg: Config, w: World, id: string)
    requires id in w.tasks && w.tasks[id].Subscribing? && (w.tasks[id].todo != [] || w.tasks[id].id in w.subs)
    ensures var v := RunSubscribe(cfg, w, id);
      v == w.(tasks := v.tasks) && forall x :: x in w.tasks && x != id ==> x in v.tasks && v.tasks[x] == w.tasks[x]
  {
    var v := RunSubscribe(cfg, w, id);
    assert v == EndTask(w, id) || v == SetTask(w, id, v.tasks[id]);
    hide RunSubscribe;
  }

  lemma PublishesCaughtUp(cfg: Config, w: World, e: Event)
    requires Orderly(cfg, w) && CaughtUp(w) && Enabled(cfg, w, e) && e.Publish?
    ensures CaughtUp(Apply(cfg, w, e))
  {
    hide Orderly, CaughtUp;
    OrderlySubs(cfg, w);
    var v := Apply(cfg, w, e);
    forall s, t, o | Owed(v, s, t, o) && s !in v.hist.lapsed ensures Keeps(w, v, e.task, s, t, o) {
      if t == e.topic && o == |w.logs[t].recs| { assert Covers(v.tasks[e.task], s, t, o); }
      else { OwedBefore(w, v, s, t, o); }
    }
    OneTaskMoves(w, v, e.task);
  }

  lemma OrderlyTasks(cfg: Config, w: World)
    requires Orderly(cfg, w)
    ensures forall id :: id in w.tasks ==> !w.tasks[id].Working? && !w.tasks[id].Acking?
  {
    hide AllSound, Exclusive, Invariant;
  }

  /** A new task takes no duty over from anyone. */
  lemma BeginsCaughtUp(cfg: Config, w: World, e: Event, task: string)
    requires SubsOk(w) && CaughtUp(w) && Enabled(cfg, w, e) && task !in w.tasks
    requires (e.Subscribe? || e.StartDispatch?) && e.task == task
    ensures CaughtUp(Apply(cfg, w, e))
  {
    hide SubsOk, CaughtUp, Enabled;
    DutiesKept(w, Apply(cfg, w, e), task);
  }

  /** No inline event leaves a live event unattended. */
  lemma EventCaughtUp(cfg: Config, w: World, e: Event)
    requires Orderly(cfg, w) && CaughtUp(w) && !cfg.deferred && Enabled(cfg, w, e) && InlineEvent(e)
    ensures CaughtUp(Apply(cfg, w, e))
  {
    hide Orderly, RunDispatch, RunSubscribe, RunPublish, SubsOk, CaughtUp, Fresh, Fanned, Blocked;
    OrderlySubs(cfg, w);
    OrderlyTasks(cfg, w);
    match e
    case Run(task, inp) =>
      if w.tasks[task].Dispatching? { DispatchCaughtUp(cfg, w, task, inp); }
      else if w.tasks[task].Subscribing? { SubscribeCaughtUp(cfg, w, task, inp); }
      else { PublishCaughtUp(cfg, w, task, inp); }
    case Publish(_, _, _, _) => PublishesCaughtUp(cfg, w, e);
    case Subscribe(task, _, _, _) => BeginsCaughtUp(cfg, w, e, task);
    case StartDispatch(task, _, _) => BeginsCaughtUp(cfg, w, e, task);
    case _ => PassCaughtUp(cfg, w, e);
  }

  lemma PassCaughtUp(cfg: Config, w: World, e: Event)
    requires SubsOk(w) && CaughtUp(w) && Enabled(cfg, w, e)
    requires e.Tick? || e.Renew? || e.Delete? || e.Lapse?
    ensures CaughtUp(Apply(cfg, w, e))
  {
    var v := Apply(cfg, w, e);
    forall s, t, o | Owed(v, s, t, o) && s !in v.hist.lapsed ensures Attended(v, s, t, o) {
      assert SameTerms(w.subs[s], v.subs[s]);
      OwedBefore(w, v, s, t, o);
      var x :| x in w.tasks && Covers(w.tasks[x], s, t, o);
      assert Covers(v.tasks[x], s, t, o);
    }
  }

  lemma {:induction false} RunsCaughtUp(cfg: Config, w: World, es: seq<Event>)
    requires Orderly(cfg, w) && CaughtUp(w) && !cfg.deferred && Possible(cfg, w, es) && InlineRun(es)
    ensures CaughtUp(Outcome(cfg, w, es))
    decreases |es|
  {
    hide Orderly, CaughtUp;
    if es != [] {
      EventOrderly(cfg, w, es[0]);
      EventCaughtUp(cfg, w, es[0]);
      RunsCaughtUp(cfg, Apply(cfg, w, es[0]), es[1..]);
    }
  }

  /**
   * When no call is in progress, every subscription that no dispatch found inactive or
   * unauthorised has no live event past its high-water mark on any of its topics.
   */
  lemma QuietMeansCaughtUp(cfg: Config, w: World, es: seq<Event>, s: string, t: string, o: int)
    requires Initial(w) && cfg.maxAttempts >= 1 && cfg.pageSize >= 1 && !cfg.queued && !cfg.deferred
    requires Possible(cfg, w, es) && InlineRun(es)
    requires var v := Outcome(cfg, w, es); v.tasks == map[] && s !in v.hist.lapsed
    ensures !Owed(Outcome(cfg, w, es), s, t, o)
  {
    StartsOrderly(cfg, w);
    RunsCaughtUp(cfg, w, es);
  }

  lemma {:induction false} HitsHold(log: Stream, selector: Content -> bool, sights: seq<Sight>, i: nat)
    requires i < |sights| && Hit(log, selector, sights[i].offset)
    ensures sights[i].offset in Hits(log, selector, sights)
  {
    var n := |sights| - 1;
    if i < n {
      assert sights[..n][i] == sights[i];
      HitsHold(log, selector, sights[..n], i);
    }
  }

  /**
   * Put together: at rest, the delivery of every live matching event after the subscription's
   * start has ended, delivered or dead-lettered, exactly once.
   */
  lemma QuietMeansDelivered(cfg: Config, w: World, es: seq<Event>, s: string, t: string, o: int)
    requires Initial(w) && cfg.maxAttempts >= 1 && cfg.pageSize >= 1 && !cfg.queued && !cfg.deferred
    requires Possible(cfg, w, es) && InlineRun(es)
    requires var v := Outcome(cfg, w, es);
      && v.tasks == map[] && s !in v.hist.lapsed
      && s in v.subs && t in v.subs[s].topics
      && Start(v, s, t) < o && Matched(v, s, t, o) && v.logs[t].LiveAt(v.clock, o)
    ensures var v := Outcome(cfg, w, es);
      o in Outcomes(Made(v.attempts, s, t))
    ensures Rising(Outcomes(Made(Outcome(cfg, w, es).attempts, s, t)))
  {
    hide Invariant, Apply, LogsOk, Mark, Start, Logged, SubsOk, AllSound;
    var v := Outcome(cfg, w, es);
    QuietMeansCaughtUp(cfg, w, es, s, t, o);
    StartsOrderly(cfg, w);
    RunsOrderly(cfg, w, es);
    assert s !in v.locks;
    InlineIsFilter(cfg, w, es, s, t);
    var a := AccountOf(v, s, t);
    assert Seen(a, o);
    var i :| 0 <= i < |a.sights| && a.sights[i].offset == o;
    HitsHold(v.logs[t], v.subs[s].selector, a.sights, i);
    HitsForward(v.logs[t], v.subs[s].selector, a.sights);
  }

  predicate Rising(xs: seq<nat>) { forall i, j :: 0 <= i < j < |xs| ==> xs[i] < xs[j] }

  lemma {:induction false} HitsForward(log: Stream, selector: Content -> bool, sights: seq<Sight>)
    requires forall i, j :: 0 <= i < j < |sights| ==> sights[i].offset < sights[j].offset
    ensures Rising(Hits(log, selector, sights))
    ensures forall x :: x in Hits(log, selector, sights) ==> sights != [] && x <= sights[|sights| - 1].offset
  {
    if sights != [] {
      var n := |sights| - 1;
      var before := Hits(log, selector, sights[..n]);
      HitsForward(log, selector, sights[..n]);
      forall i | 0 <= i < |before| ensures before[i] < sights[n].offset {
        assert before[i] in before;
        assert sights[..n][n - 1] == sights[n - 1];
      }
    }
  }
}
