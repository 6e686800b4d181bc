/**
 * At-least-once delivery plus the receiver's dedupe: what an endpoint has received after
 * any run, crashes, expired retry leases and rewound high-water marks included.
 */
module EndToEnd {
  import opened Contracts
  import opened Cursors
  import opened Stream
  import opened Dispatch
  import opened NoLoss

  predicate NoRepeats(ids: seq<string>) {
    forall i, j :: 0 <= i < j < |ids| ==> ids[i] != ids[j]
  }

  /** The id belongs to a logged event that some subscription of this endpoint asked for. */
  ghost predicate Vouched(w: World, endpoint: string, eventId: string) {
    exists s, t, o ::
      Deliverable(w, s, t, o) && w.subs[s].endpoint == endpoint && w.logs[t].recs[o].eventId == eventId
  }

  ghost predicate ReceivedOk(w: World) {
    forall e ::
      && NoRepeats(Received(w, e))
      && forall i :: 0 <= i < |Received(w, e)| ==> Vouched(w, e, Received(w, e)[i])
  }

  ghost predicate IdsUnique(w: World) {
    forall t, o, t', o' :: Logged(w, t, o) && Logged(w, t', o') ==>
      (w.logs[t].recs[o].eventId == w.logs[t'].recs[o'].eventId ==> t == t' && o == o')
  }

  // --- What events do to the logs and to the endpoints -----------------------------------

  /** Logs only grow, subscriptions keep their terms, acked cursors only move forward as strings. */
  ghost predicate Extends(w: World, v: World) {
    && (forall t :: t in w.logs ==> t in v.logs && w.logs[t].recs <= v.logs[t].recs)
    && (forall s :: s in w.subs ==> s in v.subs && Follows(w.subs[s], v.subs[s]))
  }

  ghost predicate Follows(a: Subscription, b: Subscription) {
    SameTerms(a, b) && Advances(a.cursors, b.cursors)
  }

  predicate Advances(a: map<string, string>, b: map<string, string>) {
    forall t :: t in a ==> t in b && (b[t] == a[t] || Less(a[t], b[t]))
  }

  lemma VouchedStays(w: World, v: World, e: string, id: string)
    requires Extends(w, v) && Vouched(w, e, id)
    ensures Vouched(v, e, id)
  {
    var s, t, o :| Deliverable(w, s, t, o) && w.subs[s].endpoint == e && w.logs[t].recs[o].eventId == id;
    assert v.logs[t].recs[o] == w.logs[t].recs[o];
    assert Deliverable(v, s, t, o);
  }

  /** The event this step sends, if it is a send that reaches the endpoint. */
  function Sends(w: World, e: Event): Option<Spot> {
    if !e.Run? || e.task !in w.tasks || !e.input.taken then None
    else
      match w.tasks[e.task]
      case Dispatching(s, topics, On(Handling(next, hi, Sending(n)))) =>
        if topics != [] then Some(Spot(s, topics[0], next)) else None
      case Working(rest, Redelivering(Sending(n))) =>
        if rest != [] then Some(Spot(rest[0].sub, rest[0].topic, rest[0].offset)) else None
      case _ => None
  }

  /** From `w` to `v` the endpoints change by exactly the one event sent, if any. */
  ghost predicate Receives(w: World, v: World, sent: Option<Spot>) {
    match sent
    case None => v.received == w.received
    case Some(k) =>
      && Deliverable(w, k.sub, k.topic, k.offset)
      && v.received == Receive(w, w.subs[k.sub].endpoint, w.logs[k.topic].recs[k.offset].eventId).received
  }

  /** No subscription enters, and no subscribe call moves. */
  ghost predicate NobodyEnters(w: World, v: World) {
    && v.hist.starts == w.hist.starts && v.hist.taken == w.hist.taken && v.subs.Keys == w.subs.Keys
    && forall x :: x in v.tasks && v.tasks[x].Subscribing? ==> x in w.tasks && v.tasks[x] == w.tasks[x]
  }

  ghost predicate Passes(w: World, v: World, sent: Option<Spot>) {
    v.logs == w.logs && Extends(w, v) && Receives(w, v, sent) && NobodyEnters(w, v)
  }

  lemma SameStoresPass(w: World, v: World)
    requires SameStores(w, v)
    requires forall x :: x in v.tasks && v.tasks[x].Subscribing? ==> x in w.tasks && v.tasks[x] == w.tasks[x]
    ensures Passes(w, v, None)
  {
  }

  lemma SelfPasses(w: World)
    ensures Passes(w, w, None)
  {
    hide Passes;
    SameStoresPass(w, w);
  }

  lemma SendPasses(w: World, s: string, t: string, o: nat)
    requires Deliverable(w, s, t, o)
    ensures Passes(w, Receive(w, w.subs[s].endpoint, w.logs[t].recs[o].eventId), Some(Spot(s, t, o)))
  {
    hide Received;
  }

  lemma RecordPasses(w: World, s: string, t: string, o: nat, n: nat, status: AttemptStatus)
    requires Logged(w, t, o)
    ensures Passes(w, RecordAttempt(w, s, t, o, n, status), None)
  {
    hide Passes;
    SelfPasses(w);
    StillPasses(w, w, RecordAttempt(w, s, t, o, n, status), None);
  }

  lemma AdvancePasses(w: World, s: string, t: string, cursor: string)
    requires s in w.subs
    ensures Passes(w, AdvanceCursor(w, s, t, cursor), None)
  {
    hide Passes, Receives;
    SubsPass(w, AdvanceCursor(w, s, t, cursor));
  }

  lemma QueuePasses(w: World, item: RetryItem)
    ensures Passes(w, Enqueue(w, item), None)
  {
    hide Passes;
    SelfPasses(w);
    StillPasses(w, w, Enqueue(w, item), None);
  }

  /** A step of a delivery touches the endpoint only in its send. */
  lemma PhaseReceives(cfg: Config, w: World, s: string, t: string, o: nat, phase: Phase, inp: Input)
    requires Deliverable(w, s, t, o)
    ensures Passes(w, Effect(cfg, w, s, t, o, phase, inp),
                   if phase.Sending? && inp.taken then Some(Spot(s, t, o)) else None)
  {
    hide Passes, Receive, RecordAttempt, AdvanceCursor, SetMark, Enqueue;
    SelfPasses(w);
    match phase
    case Sending(n) => if inp.taken { SendPasses(w, s, t, o); }
    case Sent(n, ack, retry) => RecordPasses(w, s, t, o, n, StatusOf(cfg, n, ack, retry));
    case Acknowledge => AdvancePasses(w, s, t, Encode(t, o));
    case ReadMark =>
    case WriteMark(mark) => MarkPasses(w, s, t, o, o > mark);
    case BuryMark => MarkPasses(w, s, t, o, true);
    case HandOver(n) =>
      QueuePasses(w, RetryItem(inp.retryId, s, t, o, w.logs[t].recs[o].eventId, 1, inp.at));
    case HandedMark => MarkPasses(w, s, t, o, true);
  }

  lemma StillPasses(w: World, v: World, u: World, sent: Option<Spot>)
    requires Passes(w, v, sent)
    requires u.logs == v.logs && u.subs == v.subs && u.received == v.received
    requires u.hist.starts == v.hist.starts && u.hist.taken == v.hist.taken
    requires forall x :: x in u.tasks && u.tasks[x].Subscribing? ==> x in v.tasks && u.tasks[x] == v.tasks[x]
    ensures Passes(w, u, sent)
  {
  }

  lemma SetTaskPasses(w: World, v: World, id: string, task: Task, sent: Option<Spot>)
    requires Passes(w, v, sent) && !task.Subscribing?
    ensures Passes(w, SetTask(v, id, task), sent)
  {
    hide Passes;
    StillPasses(w, v, SetTask(v, id, task), sent);
  }

  lemma EndTaskPasses(w: World, v: World, id: string, sent: Option<Spot>)
    requires Passes(w, v, sent)
    ensures Passes(w, EndTask(v, id), sent)
  {
    hide Passes;
    StillPasses(w, v, EndTask(v, id), sent);
  }

  lemma SubsPass(w: World, v: World)
    requires v == w.(subs := v.subs) && w.subs.Keys == v.subs.Keys
    requires forall s :: s in w.subs ==> Follows(w.subs[s], v.subs[s])
    ensures Passes(w, v, None)
  {
  }

  lemma MarkPasses(w: World, s: string, t: string, o: int, write: bool)
    ensures Passes(w, if write then SetMark(w, s, t, o) else w, None)
  {
    if write {} else {}
  }

  /** Only the task itself moves, and it goes on as a dispatch. */
  ghost predicate OnlyDispatch(w: World, v: World, id: string) {
    id in v.tasks && v.tasks[id].Dispatching? && v.tasks == w.tasks[id := v.tasks[id]]
  }

  lemma SetTaskOnly(w: World, v: World, id: string, task: Task)
    requires v.tasks == w.tasks && task.Dispatching?
    ensures OnlyDispatch(w, SetTask(v, id, task), id)
  {
  }

  /** The catch-up loop stays a dispatch and leaves every other task alone. */
  lemma CatchUpTask(cfg: Config, w: World, id: string, s: string, topics: seq<string>, page: PageStage, inp: Input)
    requires s in w.subs && topics != [] && topics[0] in w.logs && !page.Handling? && !page.SettleMark?
    ensures OnlyDispatch(w, RunCatchUp(cfg, w, id, s, topics, page, inp), id)
  {
    hide OnlyDispatch, SetTask, SeePage;
    var t := topics[0];
    var log := w.logs[t];
    var v := RunCatchUp(cfg, w, id, s, topics, page, inp);
    match page
    case Fetching(position) =>
      var p := Fetch(log, w.clock, position, |log.recs|, cfg.pageSize);
      SetTaskOnly(w, w, id, Dispatching(s, topics, On(Refetching(position))));
      if p.Range? { OpenPageOnly(w, id, s, topics, p, position); }
    case Refetching(position) =>
      OpenPageOnly(w, id, s, topics, Fetch(log, w.clock, -1, |log.recs|, cfg.pageSize), position);
    case Scanning(next, hi, scan) =>
      SetTaskOnly(w, w, id, Dispatching(s, topics, On(Settling(scan))));
      SetTaskOnly(w, w, id, Dispatching(s, topics, On(Scanning(next + 1, hi, scan))));
      SetTaskOnly(w, w, id, Dispatching(s, topics, On(Scanning(next + 1, hi, next))));
      SetTaskOnly(w, w, id, Dispatching(s, topics, On(Handling(next, hi, Sending(1)))));
    case Settling(scan) =>
      SetTaskOnly(w, w, id, Dispatching(s, topics, On(SettleMark(scan, Mark(w, s, t)))));
  }

  lemma OpenPageOnly(w: World, id: string, s: string, topics: seq<string>, page: Page, position: int)
    requires topics != [] && page.Range? && page.lo <= page.hi
    ensures OnlyDispatch(w, OpenPage(w, id, s, topics, page, position), id)
  {
    hide OnlyDispatch, SetTask;
    if page.lo == page.hi {
      SetTaskOnly(w, w, id, Dispatching(s, topics[1..], Position));
    } else {
      SetTaskOnly(w, SeePage(w, s, topics[0], page.lo, page.hi), id,
                  Dispatching(s, topics, On(Scanning(page.lo, page.hi, position))));
    }
  }

  lemma CatchUpReceives(cfg: Config, w: World, id: string, s: string, topics: seq<string>, page: PageStage, inp: Input)
    requires TaskOk(cfg, w, Dispatching(s, topics, On(page)))
    ensures Passes(w, RunCatchUp(cfg, w, id, s, topics, page, inp),
                   if page.Handling? && page.phase.Sending? && inp.taken
                   then Some(Spot(s, topics[0], page.next)) else None)
  {
    hide AccountedUpTo, PhaseOk, Aged, Passes, Effect, SetTask, SetMark;
    var t := topics[0];
    if page.Handling? {
      PhaseReceives(cfg, w, s, t, page.next, page.phase, inp);
      var v := Effect(cfg, w, s, t, page.next, page.phase, inp);
      var sent := if page.phase.Sending? && inp.taken then Some(Spot(s, t, page.next)) else None;
      match NextPhase(cfg, w, s, t, page.phase, inp)
      case Some(p) => SetTaskPasses(w, v, id, Dispatching(s, topics, On(Handling(page.next, page.hi, p))), sent);
      case None =>
        SetTaskPasses(w, v, id, Dispatching(s, topics, On(Scanning(page.next + 1, page.hi, page.next))), sent);
    } else if page.SettleMark? {
      var write := page.scan > page.mark;
      MarkPasses(w, s, t, page.scan, write);
      SetTaskPasses(w, if write then SetMark(w, s, t, page.scan) else w, id, Dispatching(s, topics, Position), None);
    } else {
      CatchUpMoves(cfg, w, id, s, topics, page, inp);
      CatchUpTask(cfg, w, id, s, topics, page, inp);
      SameStoresPass(w, RunCatchUp(cfg, w, id, s, topics, page, inp));
    }
  }

  lemma ExpirePasses(w: World, s: string)
    requires s in w.subs
    ensures var w1 := ExpireIfDue(w, s);
      && s in w1.subs && Passes(w, w1, None) && Passes(w, w1.(hist := w1.hist.(lapsed := w1.hist.lapsed + {s})), None)
  {
    hide Passes;
    var w1 := ExpireIfDue(w, s);
    SubsPass(w, w1);
    StillPasses(w, w1, w1.(hist := w1.hist.(lapsed := w1.hist.lapsed + {s})), None);
  }

  lemma LockPasses(w: World, s: string, locks: map<string, string>)
    ensures Passes(w, w.(locks := locks), None)
  {
    hide Passes;
    SelfPasses(w);
    StillPasses(w, w, w.(locks := locks), None);
  }

  lemma DispatchReceives(cfg: Config, w: World, task: string, inp: Input)
    requires task in w.tasks && w.tasks[task].Dispatching? && TaskOk(cfg, w, w.tasks[task])
    ensures Passes(w, RunDispatch(cfg, w, task, inp), Sends(w, Run(task, inp)))
  {
    hide Passes, PageOk, RunCatchUp, SetTask, EndTask, ExpireIfDue, Mark;
    var Dispatching(s, topics, stage) := w.tasks[task];
    match stage
    case Checking =>
      var w1 := ExpireIfDue(w, s);
      ExpirePasses(w, s);
      EndTaskPasses(w, w1.(hist := w1.hist.(lapsed := w1.hist.lapsed + {s})), task, None);
      SetTaskPasses(w, w1, task, Dispatching(s, topics, Waiting), None);
    case Waiting =>
      LockPasses(w, s, w.locks[s := task]);
      SetTaskPasses(w, w.(locks := w.locks[s := task]), task, Dispatching(s, topics, Position), None);
    case Position =>
      SelfPasses(w);
      if topics == [] {
        LockPasses(w, s, w.locks - {s});
        EndTaskPasses(w, w.(locks := w.locks - {s}), task, None);
      } else {
        SetTaskPasses(w, w, task, Dispatching(s, topics, On(Fetching(Mark(w, s, topics[0])))), None);
      }
    case On(page) => CatchUpReceives(cfg, w, task, s, topics, page, inp);
  }

  lemma WorkReceives(cfg: Config, w: World, task: string, inp: Input)
    requires task in w.tasks && w.tasks[task].Working? && TaskOk(cfg, w, w.tasks[task])
    ensures Passes(w, RunWork(cfg, w, task, inp), Sends(w, Run(task, inp)))
  {
    hide AccountedUpTo, PhaseOk, Settled, Aged, Passes, Effect, SetTask, EndTask;
    var Working(rest, work) := w.tasks[task];
    if rest == [] {
      SelfPasses(w);
      EndTaskPasses(w, w, task, None);
    } else {
      var item := rest[0];
      assert ItemOk(cfg, w, item);
      if work.Redelivering? && !work.phase.HandOver? {
        var phase := work.phase;
        PhaseReceives(cfg, w, item.sub, item.topic, item.offset, phase, inp);
        var v := Effect(cfg, w, item.sub, item.topic, item.offset, phase, inp);
        var sent := if phase.Sending? && inp.taken then Some(Spot(item.sub, item.topic, item.offset)) else None;
        match NextPhase(cfg, w, item.sub, item.topic, phase, inp)
        case Some(p) => SetTaskPasses(w, v, task, Working(rest, Redelivering(p)), sent);
        case None => SetTaskPasses(w, v, task, Working(rest, Completing), sent);
      } else {
        WorkQuietly(cfg, w, task, inp);
      }
    }
  }

  lemma LoadQuietly(cfg: Config, w: World, task: string, inp: Input)
    requires task in w.tasks && w.tasks[task].Working? && w.tasks[task].rest != []
    requires w.tasks[task].work.Loading? || w.tasks[task].work.Reloading?
    ensures Passes(w, RunWork(cfg, w, task, inp), None)
  {
    hide Extends, NobodyEnters;
    var Working(rest, work) := w.tasks[task];
    SameStoresPass(w, w);
    hide Passes, SetTask, EndTask;
    SetTaskPasses(w, w, task, Working(rest, Completing), None);
    SetTaskPasses(w, w, task, Working(rest, Reloading), None);
    SetTaskPasses(w, w, task, Working(rest, Redelivering(Sending(rest[0].attempt + 1))), None);
  }

  /** Every other step of the worker leaves the endpoints alone. */
  lemma WorkQuietly(cfg: Config, w: World, task: string, inp: Input)
    requires task in w.tasks && w.tasks[task].Working? && w.tasks[task].rest != []
    requires var item := w.tasks[task].rest[0]; item.sub in w.subs && Logged(w, item.topic, item.offset)
    requires w.tasks[task].work.Redelivering? ==> w.tasks[task].work.phase.HandOver?
    ensures Passes(w, RunWork(cfg, w, task, inp), None)
  {
    hide Extends, Max, Follows, NobodyEnters;
    var Working(rest, work) := w.tasks[task];
    var item := rest[0];
    var s, t, o := item.sub, item.topic, item.offset;
    SameStoresPass(w, w);
    hide Passes, SetTask, EndTask;
    match work
    case Reviewing =>
      var w1 := w.(hist := w.hist.(dropped := w.hist.dropped + {Spot(s, t, o)}));
      StillPasses(w, w, w1, None);
      SetTaskPasses(w, w1, task, Working(rest, Completing), None);
      SetTaskPasses(w, w, task, Working(rest, Loading), None);
    case Loading => LoadQuietly(cfg, w, task, inp);
    case Reloading => LoadQuietly(cfg, w, task, inp);
    case Redelivering(phase) =>
      var w1 :=
        if item.retryId in w.queue
        then w.(queue := w.queue[item.retryId := w.queue[item.retryId].(attempt := phase.n, nextRetryAt := inp.at)])
        else w;
      StillPasses(w, w, w1, None);
      SetTaskPasses(w, w1, task, Working(rest[1..], Reviewing), None);
    case Completing =>
      var w1 := w.(queue := w.queue - {item.retryId});
      StillPasses(w, w, w1, None);
      SetTaskPasses(w, w1, task, Working(rest[1..], Reviewing), None);
  }

  lemma AckMarkIs(w: World, s: string, t: string, o: nat)
    ensures var x, v := SetMark(w, s, t, o), AckMark(w, s, t, o);
      && v.logs == x.logs && v.subs == x.subs && v.received == x.received && v.tasks == x.tasks
      && v.hist.starts == x.hist.starts && v.hist.taken == x.hist.taken
  {
  }

  lemma AckReceives(w: World, task: string)
    requires task in w.tasks && w.tasks[task].Acking? && w.tasks[task].id in w.subs
    ensures Passes(w, RunAck(w, task), None)
  {
    hide Passes, SetTask, EndTask, SetMark, AckMark, AdvanceCursor, Mark;
    var Acking(s, t, o, cursor, stage) := w.tasks[task];
    SelfPasses(w);
    match stage
    case AckCursor =>
      AdvancePasses(w, s, t, cursor);
      SetTaskPasses(w, AdvanceCursor(w, s, t, cursor), task, Acking(s, t, o, cursor, AckRead), None);
    case AckRead => SetTaskPasses(w, w, task, Acking(s, t, o, cursor, AckWrite(Mark(w, s, t))), None);
    case AckWrite(mark) =>
      MarkPasses(w, s, t, o, true);
      AckMarkIs(w, s, t, o);
      if o > mark { StillPasses(w, SetMark(w, s, t, o), AckMark(w, s, t, o), None); }
      EndTaskPasses(w, if o > mark then AckMark(w, s, t, o) else w, task, None);
  }

  /** Like `Passes`, for steps that may add a subscription. */
  ghost predicate MayEnter(w: World, v: World) {
    v.logs == w.logs && Extends(w, v) && Receives(w, v, None)
  }

  lemma MovedEnters(w: World, v: World, u: World)
    requires MayEnter(w, v) && u.logs == v.logs && u.subs == v.subs && u.received == v.received
    ensures MayEnter(w, u)
  {
  }

  lemma AddedEnters(w: World, s: string, sub: Subscription, starts: map<string, int>, taken: Taken)
    requires s !in w.subs
    ensures MayEnter(w, Added(w, s, sub, starts, taken))
  {
  }

  lemma SelfEnters(w: World)
    ensures MayEnter(w, w)
  {
    SelfPasses(w);
  }

  lemma TaskEnters(w: World, x: World, id: string, task: Task)
    requires MayEnter(w, x)
    ensures MayEnter(w, SetTask(x, id, task)) && MayEnter(w, EndTask(x, id))
  {
    hide MayEnter;
    MovedEnters(w, x, SetTask(x, id, task));
    MovedEnters(w, x, EndTask(x, id));
  }

  /** A subscribe call adds at most its own subscription. */
  lemma SubscribeReceives(cfg: Config, w: World, task: string)
    requires task in w.tasks && w.tasks[task].Subscribing?
    ensures MayEnter(w, RunSubscribe(cfg, w, task))
  {
    hide MayEnter, Added, SetTask, EndTask;
    var Subscribing(s, sub, from, todo, starts, heads) := w.tasks[task];
    SelfEnters(w);
    if todo == [] && s !in w.subs {
      var x := Added(w, s, sub, starts, Taken(from, heads));
      AddedEnters(w, s, sub, starts, Taken(from, heads));
      TaskEnters(w, x, task, Dispatching(s, sub.topics, Checking));
    } else {
      TaskEnters(w, w, task, w.tasks[task]);
      if todo != [] && todo[0] in w.logs && StartOffset(w.logs[todo[0]], w.clock, todo[0], from).Some? {
        var o := StartOffset(w.logs[todo[0]], w.clock, todo[0], from).value;
        TaskEnters(w, w, task, Subscribing(s, sub, from, todo[1..], starts[todo[0] := o],
                                           heads[todo[0] := |w.logs[todo[0]].recs|]));
      }
    }
  }

  lemma AckKnown(cfg: Config, w: World, e: Event)
    requires Enabled(cfg, w, e) && e.StartAck?
    ensures e.id in w.subs
  {
  }

  lemma StartAckReceives(cfg: Config, w: World, e: Event)
    requires Enabled(cfg, w, e) && e.StartAck?
    ensures Passes(w, Apply(cfg, w, e), None)
  {
    hide Enabled, Passes, SetTask, ExpireIfDue, Split;
    assert e.id in w.subs by { AckKnown(cfg, w, e); }
    var w1 := ExpireIfDue(w, e.id);
    ExpirePasses(w, e.id);
    if Split(e.cursor).Success? {
      var (t, o) := Split(e.cursor).value;
      SetTaskPasses(w, w1, e.task, Acking(e.id, t, o, e.cursor, AckCursor), None);
    }
  }

  lemma LeasePasses(w: World, claimed: seq<string>, leased: int)
    ensures Passes(w, Leased(w, claimed, leased), None)
  {
    hide Passes;
    SelfPasses(w);
    StillPasses(w, w, Leased(w, claimed, leased), None);
  }

  lemma TaskSet(w: World, id: string)
    ensures forall task :: id in SetTask(w, id, task).tasks && SetTask(w, id, task).tasks[id] == task
  {
  }

  lemma OtherReceives(cfg: Config, w: World, e: Event)
    requires Enabled(cfg, w, e)
    requires !e.Run? && !e.Publish? && !e.Subscribe?
    ensures Passes(w, Apply(cfg, w, e), None)
  {
    hide Passes, SetTask, Leased, Split, ExpireIfDue;
    SelfPasses(w);
    match e
    case Tick(_) => StillPasses(w, w, Apply(cfg, w, e), None);
    case StartDispatch(task, id, topics) => SetTaskPasses(w, w, task, Dispatching(id, topics, Checking), None);
    case StartWork(task, claimed, leased) =>
      LeasePasses(w, claimed, leased);
      TaskSet(Leased(w, claimed, leased), task);
      SetTaskPasses(w, Leased(w, claimed, leased), task, Apply(cfg, w, e).tasks[task], None);
    case StartAck(_, _, _) => StartAckReceives(cfg, w, e);
    case Renew(_, _) => SubsPass(w, Apply(cfg, w, e));
    case Delete(_) => SubsPass(w, Apply(cfg, w, e));
    case Lapse(id) => ExpirePasses(w, id);
    case Crash => StillPasses(w, w, Apply(cfg, w, e), None);
  }

  lemma PublishReceives(cfg: Config, w: World, task: string, inp: Input)
    requires task in w.tasks && w.tasks[task].Publishing?
    ensures Passes(w, RunPublish(cfg, w, task, inp), None)
  {
    SameStoresPass(w, RunPublish(cfg, w, task, inp));
  }

  /** Only a dispatch or a worker in its sending phase sends. */
  lemma QuietTasks(w: World, e: Event)
    requires e.Run? && e.task in w.tasks && !w.tasks[e.task].Dispatching? && !w.tasks[e.task].Working?
    ensures Sends(w, e) == None
  {
  }

  lemma RunReceives(cfg: Config, w: World, task: string, inp: Input)
    requires Invariant(cfg, w) && Enabled(cfg, w, Run(task, inp))
    ensures var v := Apply(cfg, w, Run(task, inp));
      && v.logs == w.logs && Extends(w, v) && Receives(w, v, Sends(w, Run(task, inp)))
      && (!w.tasks[task].Subscribing? ==> NobodyEnters(w, v))
  {
    assert TaskOk(cfg, w, w.tasks[task]);
    assert w.tasks[task].Acking? ==> w.tasks[task].id in w.subs;
    if !w.tasks[task].Dispatching? && !w.tasks[task].Working? { QuietTasks(w, Run(task, inp)); }
    hide Invariant, TaskOk, RunDispatch, RunWork, RunAck, RunSubscribe, RunPublish, Extends, Receives, Sends;
    hide NobodyEnters;
    if w.tasks[task].Dispatching? { DispatchReceives(cfg, w, task, inp); }
    else if w.tasks[task].Working? { WorkReceives(cfg, w, task, inp); }
    else if w.tasks[task].Acking? { AckReceives(w, task); }
    else if w.tasks[task].Subscribing? { SubscribeReceives(cfg, w, task); }
    else { PublishReceives(cfg, w, task, inp); }
  }

  lemma EventReceives(cfg: Config, w: World, e: Event)
    requires Invariant(cfg, w) && Enabled(cfg, w, e)
    ensures var v := Apply(cfg, w, e);
      && Extends(w, v) && Receives(w, v, Sends(w, e))
      && (e.Subscribe? || (e.Run? && w.tasks[e.task].Subscribing?) || NobodyEnters(w, v))
  {
    hide Invariant, Leased;
    if e.Publish? || e.Subscribe? {
      assert Apply(cfg, w, e) == w.(logs := Apply(cfg, w, e).logs, tasks := Apply(cfg, w, e).tasks);
    } else {
      hide Apply, Enabled, Extends, Receives, Sends, NobodyEnters;
      if e.Run? { RunReceives(cfg, w, e.task, e.input); }
      else { OtherReceives(cfg, w, e); }
    }
  }

  lemma OneReceived(w: World, v: World, sent: Option<Spot>, p: string, i: nat)
    requires Extends(w, v) && Receives(w, v, sent) && i < |Received(v, p)|
    requires forall j :: 0 <= j < |Received(w, p)| ==> Vouched(w, p, Received(w, p)[j])
    ensures Vouched(v, p, Received(v, p)[i])
  {
    var id := Received(v, p)[i];
    assert Vouched(w, p, id) by {
      if i < |Received(w, p)| {
        assert id == Received(w, p)[i];
      } else {
        var k := sent.value;
        assert Deliverable(w, k.sub, k.topic, k.offset) && w.logs[k.topic].recs[k.offset].eventId == id;
      }
    }
    hide Extends, Receives, Vouched;
    VouchedStays(w, v, p, id);
  }

  /** The one id a step may add was not there before. */
  lemma StillOnce(w: World, v: World, sent: Option<Spot>, p: string)
    requires NoRepeats(Received(w, p)) && Receives(w, v, sent)
    ensures NoRepeats(Received(v, p))
  {
    hide Deliverable;
  }

  lemma ReceivedKeeps(cfg: Config, w: World, e: Event)
    requires Invariant(cfg, w) && Enabled(cfg, w, e) && ReceivedOk(w)
    ensures ReceivedOk(Apply(cfg, w, e))
  {
    hide Invariant, Enabled, Apply, Extends, Receives, NobodyEnters, Deliverable, Vouched, NoRepeats;
    var v := Apply(cfg, w, e);
    EventReceives(cfg, w, e);
    forall p ensures NoRepeats(Received(v, p))
                  && forall i :: 0 <= i < |Received(v, p)| ==> Vouched(v, p, Received(v, p)[i])
    {
      StillOnce(w, v, Sends(w, e), p);
      forall i | 0 <= i < |Received(v, p)| ensures Vouched(v, p, Received(v, p)[i]) {
        OneReceived(w, v, Sends(w, e), p, i);
      }
    }
  }

  lemma PublishIds(cfg: Config, w: World, e: Event)
    requires e.Publish? && Enabled(cfg, w, e) && IdsUnique(w)
    ensures IdsUnique(Apply(cfg, w, e))
  {
    var v := Apply(cfg, w, e);
    forall t, o | Logged(v, t, o)
      ensures if t == e.topic && o == |w.logs[t].recs| then v.logs[t].recs[o].eventId == e.eventId
              else Logged(w, t, o) && v.logs[t].recs[o] == w.logs[t].recs[o]
    {
    }
  }

  lemma IdsKeep(cfg: Config, w: World, e: Event)
    requires Enabled(cfg, w, e) && IdsUnique(w) && Invariant(cfg, w)
    ensures IdsUnique(Apply(cfg, w, e))
  {
    hide Invariant, IdsUnique;
    if e.Publish? {
      PublishIds(cfg, w, e);
    } else {
      assert Apply(cfg, w, e).logs == w.logs by { SameLogs(cfg, w, e); }
      hide Apply;
      SameIds(w, Apply(cfg, w, e));
    }
  }

  lemma SameIds(w: World, v: World)
    requires IdsUnique(w) && v.logs == w.logs
    ensures IdsUnique(v)
  {
  }

  lemma SameLogs(cfg: Config, w: World, e: Event)
    requires Invariant(cfg, w) && Enabled(cfg, w, e) && !e.Publish?
    ensures Apply(cfg, w, e).logs == w.logs
  {
    hide Invariant;
    if e.Run? { RunReceives(cfg, w, e.task, e.input); hide Apply; }
    else if !e.Subscribe? { OtherReceives(cfg, w, e); hide Apply; }
  }

  lemma {:induction false} RunsReceive(cfg: Config, w: World, es: seq<Event>)
    requires Invariant(cfg, w) && ReceivedOk(w) && IdsUnique(w) && Possible(cfg, w, es)
    ensures ReceivedOk(Outcome(cfg, w, es)) && IdsUnique(Outcome(cfg, w, es))
    decreases |es|
  {
    hide Invariant;
    if es != [] {
      EventKeeps(cfg, w, es[0]);
      ReceivedKeeps(cfg, w, es[0]);
      IdsKeep(cfg, w, es[0]);
      RunsReceive(cfg, Apply(cfg, w, es[0]), es[1..]);
    }
  }

  // --- The claims ----------------------------------------------------------------------------

  /** The receiver's list never holds an id twice and holds only events it subscribed to. */
  lemma ReceivedOnce(cfg: Config, w: World, es: seq<Event>, endpoint: string)
    requires Initial(w) && cfg.maxAttempts >= 1 && Possible(cfg, w, es)
    ensures var v := Outcome(cfg, w, es);
      && NoRepeats(Received(v, endpoint))
      && IdsUnique(v)
      && forall id :: id in Received(v, endpoint) ==> Vouched(v, endpoint, id)
  {
    InitialOk(cfg, w);
    RunsReceive(cfg, w, es);
  }

  /** Every attempt recorded as delivered names an event its endpoint really took. */
  lemma DeliveredMeansReceived(cfg: Config, w: World, es: seq<Event>, i: nat)
    requires Initial(w) && cfg.maxAttempts >= 1 && Possible(cfg, w, es)
    requires i < |Outcome(cfg, w, es).attempts| && Outcome(cfg, w, es).attempts[i].status == Delivered
    ensures var v := Outcome(cfg, w, es); var a := v.attempts[i];
      && Deliverable(v, a.sub, a.topic, a.offset)
      && a.eventId == v.logs[a.topic].recs[a.offset].eventId
      && a.eventId in Received(v, v.subs[a.sub].endpoint)
  {
    InitialOk(cfg, w);
    RunsKeep(cfg, w, es);
    assert AttemptOk(cfg, Outcome(cfg, w, es), Outcome(cfg, w, es).attempts[i]);
  }

  /** Attempt numbers stay within the configured ceiling, and only the ceiling ends a chain early. */
  lemma AttemptsBounded(cfg: Config, w: World, es: seq<Event>, i: nat)
    requires Initial(w) && cfg.maxAttempts >= 1 && Possible(cfg, w, es)
    requires i < |Outcome(cfg, w, es).attempts|
    ensures var a := Outcome(cfg, w, es).attempts[i];
      1 <= a.attempt <= cfg.maxAttempts && (a.status == Retry ==> a.attempt < cfg.maxAttempts)
  {
    InitialOk(cfg, w);
    RunsKeep(cfg, w, es);
    assert AttemptOk(cfg, Outcome(cfg, w, es), Outcome(cfg, w, es).attempts[i]);
  }

  ghost predicate DeadLettered(w: World, s: string, t: string, o: int) {
    exists i :: 0 <= i < |w.attempts| && Ends(w.attempts[i], s, t, o) && w.attempts[i].status == DeadLetter
  }

  /**
   * A live, matching event at or below the high-water mark is in the receiver's list, unless the
   * publisher can show why not: dead-lettered, waiting in the retry queue, acked by the subscriber
   * itself, or dropped while the subscription was not active.
   */
  lemma PassedMeansReceived(cfg: Config, w: World, es: seq<Event>, s: string, t: string, o: int)
    requires Initial(w) && cfg.maxAttempts >= 1 && Possible(cfg, w, es)
    requires var v := Outcome(cfg, w, es);
      && s in v.subs && t in v.subs[s].topics
      && Start(v, s, t) < o <= Mark(v, s, t)
      && Matched(v, s, t, o) && v.logs[t].LiveAt(v.clock, o)
      && !DeadLettered(v, s, t, o) && !Queued(v, s, t, o) && !AckedPast(v, s, t, o) && !Dropped(v, s, t, o)
    ensures var v := Outcome(cfg, w, es);
      v.logs[t].recs[o].eventId in Received(v, v.subs[s].endpoint)
  {
    var v := Outcome(cfg, w, es);
    NeverLost(cfg, w, es);
    assert Accounted(v, s, t, o);
    var i :| 0 <= i < |v.attempts| && Ends(v.attempts[i], s, t, o);
    DeliveredMeansReceived(cfg, w, es, i);
  }
}
