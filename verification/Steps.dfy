/** What one event of the dispatch machine does in each place a task can be. */
module Steps {
  import opened Contracts
  import opened Cursors
  import opened Stream
  import opened Dispatch

  /** What an endpoint did with a delivery and what came back: taken and acked, taken only, or not taken. */
  datatype Reply = Reply(taken: bool, ack: bool, retry: bool) {
    predicate Possible() { ack ==> taken }
  }

  /** The call a delivery belongs to: a catch-up loop, or the retry worker. */
  datatype Context =
    | InDispatch(id: string, topics: seq<string>, hi: nat)
    | InWork(rest: seq<RetryItem>)

  /** The task that delivers the event at `o`, and the task once that is over. */
  ghost function TaskAt(c: Context, o: nat, phase: Phase): Task {
    match c
    case InDispatch(s, topics, hi) => Dispatching(s, topics, On(Handling(o, hi, phase)))
    case InWork(rest) => Working(rest, Redelivering(phase))
  }

  ghost function TaskDone(c: Context, o: nat): Task {
    match c
    case InDispatch(s, topics, hi) => Dispatching(s, topics, On(Scanning(o + 1, hi, o)))
    case InWork(rest) => Working(rest, Completing)
  }

  /** The context is about the event at `o` of `t` for `s`. */
  ghost predicate About(c: Context, s: string, t: string, o: nat) {
    match c
    case InDispatch(id, topics, _) => id == s && topics != [] && topics[0] == t
    case InWork(rest) => rest != [] && rest[0].sub == s && rest[0].topic == t && rest[0].offset == o
  }

  /** The delivery of the event at `o` of `t` to `s` has come to `phase`. */
  ghost predicate Stands(w: World, task: string, c: Context, s: string, t: string, o: nat, phase: Phase) {
    && About(c, s, t, o) && s in w.subs && Logged(w, t, o)
    && task in w.tasks && w.tasks[task] == TaskAt(c, o, phase)
  }

  lemma RunEnabled(cfg: Config, w: World, task: string, inp: Input)
    requires task in w.tasks && (inp.ack ==> inp.taken) && inp.retryId !in w.hist.issued
    requires w.tasks[task].Working? || (w.tasks[task].Dispatching? && !w.tasks[task].stage.Waiting?)
    ensures Enabled(cfg, w, Run(task, inp))
  {
  }

  /** One phase of a delivery, in either kind of call. */
  lemma PhaseStep(cfg: Config, w: World, task: string, c: Context, s: string, t: string, o: nat, phase: Phase,
                  inp: Input)
    requires About(c, s, t, o) && s in w.subs && Logged(w, t, o)
    requires task in w.tasks && w.tasks[task] == TaskAt(c, o, phase) && !(c.InWork? && phase.HandOver?)
    requires (inp.ack ==> inp.taken) && inp.retryId !in w.hist.issued
    ensures Enabled(cfg, w, Run(task, inp))
    ensures Apply(cfg, w, Run(task, inp))
         == Phased(cfg, w, task, c, s, t, o, phase, inp)
  {
    RunEnabled(cfg, w, task, inp);
    hide Effect, NextPhase, Enabled;
  }

  /** The world after one phase of a delivery. */
  ghost function Phased(cfg: Config, w: World, task: string, c: Context, s: string, t: string, o: nat, phase: Phase,
                        inp: Input): World
    requires s in w.subs && Logged(w, t, o)
  {
    SetTask(Effect(cfg, w, s, t, o, phase, inp), task,
            match NextPhase(cfg, w, s, t, phase, inp)
            case Some(p) => TaskAt(c, o, p)
            case None => TaskDone(c, o))
  }

  function Arrived(received: map<string, seq<string>>, endpoint: string, reply: Reply, id: string)
    : map<string, seq<string>>
  {
    var ids := if endpoint in received then received[endpoint] else [];
    if reply.taken && id !in ids then received[endpoint := ids + [id]] else received
  }

  lemma SentWorld(cfg: Config, w: World, task: string, c: Context, s: string, t: string, o: nat, n: nat, reply: Reply,
                  inp: Input)
    requires s in w.subs && Logged(w, t, o) && reply == Reply(inp.taken, inp.ack, inp.retry)
    ensures Phased(cfg, w, task, c, s, t, o, Sending(n), inp)
         == SetTask(w.(received := Arrived(w.received, w.subs[s].endpoint, reply, w.logs[t].recs[o].eventId)), task,
                    TaskAt(c, o, Sent(n, reply.ack, reply.retry)))
  {
  }

  lemma RecordedWorld(cfg: Config, w: World, task: string, c: Context, s: string, t: string, o: nat, n: nat,
                      reply: Reply, inp: Input)
    requires s in w.subs && Logged(w, t, o)
    ensures var status := StatusOf(cfg, n, reply.ack, reply.retry);
      Phased(cfg, w, task, c, s, t, o, Sent(n, reply.ack, reply.retry), inp)
      == SetTask(w.(attempts := w.attempts + [DeliveryAttempt(s, w.logs[t].recs[o].eventId, t, o, n, status)]), task,
                 TaskAt(c, o, match status
                              case Delivered => Acknowledge
                              case DeadLetter => BuryMark
                              case Retry => HandOver(n)))
  {
  }

  lemma AckedWorld(cfg: Config, w: World, task: string, c: Context, s: string, t: string, o: nat, inp: Input)
    requires s in w.subs && Logged(w, t, o)
    ensures Phased(cfg, w, task, c, s, t, o, Acknowledge, inp)
         == SetTask(AdvanceCursor(w, s, t, Encode(t, o)), task, TaskAt(c, o, ReadMark))
  {
  }

  lemma MarkedWorld(cfg: Config, w: World, task: string, c: Context, s: string, t: string, o: nat, mark: int,
                    inp: Input)
    requires s in w.subs && Logged(w, t, o)
    ensures Phased(cfg, w, task, c, s, t, o, ReadMark, inp) == SetTask(w, task, TaskAt(c, o, WriteMark(Mark(w, s, t))))
    ensures Phased(cfg, w, task, c, s, t, o, WriteMark(mark), inp)
         == SetTask(if o > mark then SetMark(w, s, t, o) else w, task, TaskDone(c, o))
    ensures Phased(cfg, w, task, c, s, t, o, BuryMark, inp) == SetTask(SetMark(w, s, t, o), task, TaskDone(c, o))
    ensures Phased(cfg, w, task, c, s, t, o, HandedMark, inp) == SetTask(SetMark(w, s, t, o), task, TaskDone(c, o))
  {
  }

  lemma HandedWorld(cfg: Config, w: World, task: string, c: Context, s: string, t: string, o: nat, n: nat, inp: Input)
    requires s in w.subs && Logged(w, t, o)
    ensures Phased(cfg, w, task, c, s, t, o, HandOver(n), inp)
         == if cfg.queued
            then SetTask(Enqueue(w, RetryItem(inp.retryId, s, t, o, w.logs[t].recs[o].eventId, 1, inp.at)), task,
                         TaskAt(c, o, HandedMark))
            else SetTask(w, task, TaskAt(c, o, Sending(n + 1)))
  {
  }

  /** A task is no store. */
  lemma TaskAside(x: World, task: string, a: Task)
    ensures var v := SetTask(x, task, a);
      && v.clock == x.clock && v.logs == x.logs && v.subs == x.subs && v.marks == x.marks && v.attempts == x.attempts
      && v.queue == x.queue && v.received == x.received && v.locks == x.locks && v.hist == x.hist
      && task in v.tasks && v.tasks[task] == a
  {
  }

  lemma SetTwice(w: World, task: string, a: Task, b: Task)
    ensures SetTask(SetTask(w, task, a), task, b) == SetTask(w, task, b)
  {
    assert w.tasks[task := a][task := b] == w.tasks[task := b];
  }

  ghost predicate InLoop(w: World, task: string, s: string, topics: seq<string>, page: PageStage) {
    && topics != [] && topics[0] in w.logs && s in w.subs
    && task in w.tasks && w.tasks[task] == Dispatching(s, topics, On(page))
  }

  lemma StageStep(cfg: Config, w: World, task: string, s: string, topics: seq<string>, page: PageStage, inp: Input)
    requires InLoop(w, task, s, topics, page) && (inp.ack ==> inp.taken) && inp.retryId !in w.hist.issued
    ensures Enabled(cfg, w, Run(task, inp))
    ensures Apply(cfg, w, Run(task, inp)) == RunCatchUp(cfg, w, task, s, topics, page, inp)
  {
    RunEnabled(cfg, w, task, inp);
    hide RunCatchUp, Enabled;
  }

  lemma PositionStep(cfg: Config, w: World, task: string, s: string, topics: seq<string>, inp: Input)
    requires task in w.tasks && w.tasks[task] == Dispatching(s, topics, Position) && s in w.subs
    requires (inp.ack ==> inp.taken) && inp.retryId !in w.hist.issued
    ensures Enabled(cfg, w, Run(task, inp))
    ensures topics != [] ==>
        Apply(cfg, w, Run(task, inp)) == OnPage(w, task, s, topics, Fetching(Mark(w, s, topics[0])))
    ensures topics == [] ==> Apply(cfg, w, Run(task, inp)) == Release(w, task, s)
  {
    RunEnabled(cfg, w, task, inp);
    hide Enabled, RunCatchUp;
  }

  /** A page at offsets `lo` to `hi` was read; an empty one ends the loop on its topic. */
  ghost function Opened(w: World, task: string, s: string, topics: seq<string>, lo: nat, hi: nat, position: int): World
    requires topics != []
  {
    if lo < hi then SetTask(SeePage(w, s, topics[0], lo, hi), task,
                            Dispatching(s, topics, On(Scanning(lo, hi, position))))
    else SetTask(w, task, Dispatching(s, topics[1..], Position))
  }

  lemma FetchWorld(cfg: Config, w: World, task: string, s: string, topics: seq<string>, position: int, inp: Input)
    requires InLoop(w, task, s, topics, Fetching(position)) || InLoop(w, task, s, topics, Refetching(position))
    ensures var log := w.logs[topics[0]];
      && var page := Fetch(log, w.clock, position, |log.recs|, cfg.pageSize);
      && var again := Fetch(log, w.clock, -1, |log.recs|, cfg.pageSize);
      && again.Range?
      && RunCatchUp(cfg, w, task, s, topics, Fetching(position), inp)
         == (if page.Stale? then OnPage(w, task, s, topics, Refetching(position))
             else Opened(w, task, s, topics, page.lo, page.hi, position))
      && RunCatchUp(cfg, w, task, s, topics, Refetching(position), inp)
         == Opened(w, task, s, topics, again.lo, again.hi, position)
  {
    hide SeePage;
  }

  lemma ScanWorld(cfg: Config, w: World, task: string, s: string, topics: seq<string>, next: nat, hi: nat, scan: int,
                  inp: Input)
    requires InLoop(w, task, s, topics, Scanning(next, hi, scan))
    ensures RunCatchUp(cfg, w, task, s, topics, Scanning(next, hi, scan), inp)
         == OnPage(w, task, s, topics,
                   if next >= hi then Settling(scan)
                   else if next <= scan then Scanning(next + 1, hi, scan)
                   else if !Matched(w, s, topics[0], next) then Scanning(next + 1, hi, next)
                   else Handling(next, hi, Sending(1)))
  {
    hide Effect, NextPhase, Fetch, OnPage, OpenPage, Matched;
  }

  lemma SettleWorld(cfg: Config, w: World, task: string, s: string, topics: seq<string>, scan: nat, mark: int,
                    inp: Input)
    requires InLoop(w, task, s, topics, Settling(scan)) || InLoop(w, task, s, topics, SettleMark(scan, mark))
    ensures RunCatchUp(cfg, w, task, s, topics, Settling(scan), inp)
         == OnPage(w, task, s, topics, SettleMark(scan, Mark(w, s, topics[0])))
    ensures RunCatchUp(cfg, w, task, s, topics, SettleMark(scan, mark), inp)
         == SetTask(if scan > mark then SetMark(w, s, topics[0], scan) else w, task, Dispatching(s, topics, Position))
  {
  }

  /** The subscription may be served now. */
  ghost predicate Serving(w: World, s: string)
    requires s in w.subs
  {
    w.subs[s].status == Active && w.subs[s].leaseUntil > w.clock
  }

  lemma StartStep(cfg: Config, w: World, task: string, s: string, topics: seq<string>)
    requires task !in w.tasks && s in w.subs && forall t :: t in topics ==> t in w.subs[s].topics
    ensures Enabled(cfg, w, StartDispatch(task, s, topics))
    ensures Apply(cfg, w, StartDispatch(task, s, topics)) == SetTask(w, task, Dispatching(s, topics, Checking))
  {
  }

  lemma CheckStep(cfg: Config, w: World, task: string, s: string, topics: seq<string>, inp: Input)
    requires task in w.tasks && w.tasks[task] == Dispatching(s, topics, Checking) && s in w.subs
    requires (inp.ack ==> inp.taken) && inp.retryId !in w.hist.issued
    ensures Enabled(cfg, w, Run(task, inp))
    ensures var x := ExpireIfDue(w, s);
      Apply(cfg, w, Run(task, inp))
      == if Serving(w, s) && inp.allowed then SetTask(x, task, Dispatching(s, topics, Waiting))
         else EndTask(x.(hist := x.hist.(lapsed := x.hist.lapsed + {s})), task)
  {
    RunEnabled(cfg, w, task, inp);
    hide Enabled;
  }

  lemma LockStep(cfg: Config, w: World, task: string, s: string, topics: seq<string>, inp: Input)
    requires task in w.tasks && w.tasks[task] == Dispatching(s, topics, Waiting) && s in w.subs && s !in w.locks
    requires (inp.ack ==> inp.taken) && inp.retryId !in w.hist.issued
    ensures Enabled(cfg, w, Run(task, inp))
    ensures Apply(cfg, w, Run(task, inp))
         == SetTask(w.(locks := w.locks[s := task]), task, Dispatching(s, topics, Position))
  {
  }

  ghost predicate AtWork(w: World, task: string, rest: seq<RetryItem>, work: WorkStage) {
    rest != [] && task in w.tasks && w.tasks[task] == Working(rest, work)
  }

  lemma WorkStep(cfg: Config, w: World, task: string, rest: seq<RetryItem>, work: WorkStage, inp: Input)
    requires task in w.tasks && w.tasks[task] == Working(rest, work)
    requires (inp.ack ==> inp.taken) && inp.retryId !in w.hist.issued
    ensures Enabled(cfg, w, Run(task, inp)) && Apply(cfg, w, Run(task, inp)) == RunWork(cfg, w, task, inp)
  {
    RunEnabled(cfg, w, task, inp);
    hide RunWork, Enabled;
  }

  /** The subscription is gone or no longer active. */
  ghost predicate Gone(w: World, s: string) { s !in w.subs || w.subs[s].status != Active }

  ghost function Drop(w: World, item: RetryItem): World {
    w.(hist := w.hist.(dropped := w.hist.dropped + {Spot(item.sub, item.topic, item.offset)}))
  }

  lemma ReviewWorld(cfg: Config, w: World, task: string, rest: seq<RetryItem>, inp: Input)
    requires AtWork(w, task, rest, Reviewing)
    ensures RunWork(cfg, w, task, inp)
         == if Gone(w, rest[0].sub) then SetTask(Drop(w, rest[0]), task, Working(rest, Completing))
            else SetTask(w, task, Working(rest, Loading))
  {
  }

  lemma CompleteWorld(cfg: Config, w: World, task: string, rest: seq<RetryItem>, inp: Input)
    requires AtWork(w, task, rest, Completing)
    ensures RunWork(cfg, w, task, inp)
         == SetTask(w.(queue := w.queue - {rest[0].retryId}), task, Working(rest[1..], Reviewing))
  {
  }

  ghost function PostponedIn(w: World, q: string, n: nat, at: int): World {
    if q in w.queue then w.(queue := w.queue[q := w.queue[q].(attempt := n, nextRetryAt := at)]) else w
  }

  lemma RescheduleWorld(cfg: Config, w: World, task: string, rest: seq<RetryItem>, n: nat, inp: Input)
    requires AtWork(w, task, rest, Redelivering(HandOver(n))) && rest[0].sub in w.subs
    requires Logged(w, rest[0].topic, rest[0].offset)
    ensures RunWork(cfg, w, task, inp)
         == SetTask(PostponedIn(w, rest[0].retryId, n, inp.at), task, Working(rest[1..], Reviewing))
  {
  }

  lemma ClaimStep(cfg: Config, w: World, task: string, claimed: seq<string>, leased: int)
    requires task !in w.tasks && forall i, j :: 0 <= i < j < |claimed| ==> claimed[i] != claimed[j]
    requires forall c :: c in claimed ==> c in w.queue && w.queue[c].nextRetryAt <= w.clock
    ensures Enabled(cfg, w, StartWork(task, claimed, leased))
    ensures Apply(cfg, w, StartWork(task, claimed, leased))
         == SetTask(Leased(w, claimed, leased), task, Working(LeasedItems(w.queue, claimed, leased), Reviewing))
  {
  }

  ghost function LeasedItems(queue: map<string, RetryItem>, claimed: seq<string>, leased: int): seq<RetryItem>
    requires forall c :: c in claimed ==> c in queue
  {
    seq(|claimed|, i requires 0 <= i < |claimed| => queue[claimed[i]].(nextRetryAt := leased))
  }

  /** After the checks of an ack: refused, or under way. */
  ghost function AckBegun(w: World, task: string, s: string, cursor: string): World
    requires s in w.subs
  {
    var x := ExpireIfDue(w, s);
    match Split(cursor)
    case Failure(_) => x
    case Success((t, o)) =>
      if x.subs[s].status != Active || t !in x.subs[s].topics then x
      else SetTask(x, task, Acking(s, t, o, cursor, AckCursor))
  }

  lemma AckStarts(cfg: Config, w: World, task: string, s: string, cursor: string)
    requires task !in w.tasks && s in w.subs
    ensures Enabled(cfg, w, StartAck(task, s, cursor))
    ensures Apply(cfg, w, StartAck(task, s, cursor)) == AckBegun(w, task, s, cursor)
  {
    hide Split;
  }

  lemma AckEnabled(cfg: Config, w: World, task: string, inp: Input)
    requires task in w.tasks && w.tasks[task].Acking? && (inp.ack ==> inp.taken) && inp.retryId !in w.hist.issued
    ensures Enabled(cfg, w, Run(task, inp)) && Apply(cfg, w, Run(task, inp)) == RunAck(w, task)
  {
    hide RunAck;
  }

  lemma EndSet(x: World, task: string, a: Task)
    requires task !in x.tasks
    ensures EndTask(SetTask(x, task, a), task) == x
  {
    assert x.tasks[task := a] - {task} == x.tasks;
  }

  ghost function Appended(w: World, topic: string, record: EventRecord): World
    requires topic in w.logs
  {
    w.(logs := w.logs[topic := w.logs[topic].(recs := w.logs[topic].recs + [record])])
  }

  /** The world with one dispatch under way for each subscription of `ids`. */
  ghost function Fanning(w: World, topic: string, ids: set<string>): World {
    w.(tasks := map s | s in ids :: Dispatching(s, [topic], Checking))
  }

  lemma PublishStep(cfg: Config, w: World, task: string, topic: string, eventId: string, content: Content)
    requires task !in w.tasks && topic in w.logs && Fresh(w, eventId)
    ensures var record := EventRecord(eventId, topic, |w.logs[topic].recs|, content, w.clock);
      && Enabled(cfg, w, Dispatch.Event.Publish(task, topic, eventId, content))
      && Apply(cfg, w, Dispatch.Event.Publish(task, topic, eventId, content))
         == SetTask(Appended(w, topic, record), task, Publishing(topic, record.offset))
  {
    hide Fresh;
  }

  lemma FanEnabled(cfg: Config, v: World, task: string, topic: string, o: nat, inp: Input)
    requires v.tasks == map[] && task !in v.subs && inp.retryId !in v.hist.issued && (inp.ack ==> inp.taken)
    requires inp.children == map s | s in Audience(v, topic) :: s
    ensures Enabled(cfg, SetTask(v, task, Publishing(topic, o)), Run(task, inp))
  {
    var w := SetTask(v, task, Publishing(topic, o));
    assert Audience(w, topic) == Audience(v, topic);
    forall s | s in Audience(v, topic) ensures s in inp.children.Values { assert inp.children[s] == s; }
    hide Audience;
    assert inp.children.Values == Audience(v, topic);
    assert Fanned(w, topic, inp.children);
    hide Fanned;
  }

  lemma ChildTasks(ids: set<string>, children: map<string, string>, topic: string)
    requires children == map s | s in ids :: s
    ensures map[] + (map c | c in children :: Dispatching(children[c], [topic], Checking))
         == map s | s in ids :: Dispatching(s, [topic], Checking)
  {
  }

  lemma SetOnly(v: World, task: string, a: Task)
    requires v.tasks == map[]
    ensures var w := SetTask(v, task, a);
      task in w.tasks && w.tasks[task] == a && w.tasks - {task} == map[] && w.(tasks := map[]) == v
        && w == v.(tasks := w.tasks)
  {
  }

  lemma FanApplied(cfg: Config, v: World, task: string, topic: string, o: nat, inp: Input)
    requires v.tasks == map[] && inp.children == map s | s in Audience(v, topic) :: s
    ensures var w := SetTask(v, task, Publishing(topic, o));
      RunPublish(cfg, w, task, inp) == if cfg.deferred then v else Fanning(v, topic, Audience(v, topic))
  {
    hide Audience, SetTask;
    var w := SetTask(v, task, Publishing(topic, o));
    SetOnly(v, task, Publishing(topic, o));
    ChildTasks(Audience(v, topic), inp.children, topic);
    if cfg.deferred { EndSet(v, task, Publishing(topic, o)); }
    hide EndTask;
  }

  /** What a publish does after its append: nothing more, or one dispatch for every subscription of the topic. */
  lemma FanOut(cfg: Config, v: World, task: string, topic: string, o: nat, inp: Input)
    requires v.tasks == map[] && task !in v.subs && inp.retryId !in v.hist.issued && (inp.ack ==> inp.taken)
    requires inp.children == map s | s in Audience(v, topic) :: s
    ensures var w := SetTask(v, task, Publishing(topic, o));
      && Enabled(cfg, w, Run(task, inp))
      && Apply(cfg, w, Run(task, inp)) == if cfg.deferred then v else Fanning(v, topic, Audience(v, topic))
  {
    hide Enabled, RunPublish, Fanning, Audience;
    FanEnabled(cfg, v, task, topic, o, inp);
    FanApplied(cfg, v, task, topic, o, inp);
  }

  lemma SubscribeStep(cfg: Config, w: World, task: string, id: string, sub: Subscription, from: From)
    requires task !in w.tasks && sub.status == Active && sub.cursors == map[]
    requires forall i, j :: 0 <= i < j < |sub.topics| ==> sub.topics[i] != sub.topics[j]
    requires forall t :: t in sub.topics ==> t in w.logs
    ensures Enabled(cfg, w, Dispatch.Event.Subscribe(task, id, sub, from))
    ensures Apply(cfg, w, Dispatch.Event.Subscribe(task, id, sub, from))
         == SetTask(w, task, Subscribing(id, sub, from, sub.topics, map[], map[]))
  {
  }

  lemma CaptureEnabled(cfg: Config, w: World, task: string, inp: Input)
    requires task in w.tasks && w.tasks[task].Subscribing? && (inp.ack ==> inp.taken) && inp.retryId !in w.hist.issued
    ensures Enabled(cfg, w, Run(task, inp)) && Apply(cfg, w, Run(task, inp)) == RunSubscribe(cfg, w, task)
  {
    hide RunSubscribe;
  }

  /** One capture, or the last step of a subscribe call. */
  lemma SubscribeRuns(cfg: Config, u: World, task: string, id: string, sub: Subscription, from: From, todo: seq<string>,
                      starts: map<string, int>, heads: map<string, nat>)
    requires task !in u.tasks && id !in u.subs && forall t :: t in todo ==> t in u.logs
    ensures var w := SetTask(u, task, Subscribing(id, sub, from, todo, starts, heads));
      RunSubscribe(cfg, w, task)
      == if todo != [] then
           var t := todo[0];
           match StartOffset(u.logs[t], u.clock, t, from)
           case None => u
           case Some(o) =>
             SetTask(u, task, Subscribing(id, sub, from, todo[1..], starts[t := o], heads[t := |u.logs[t].recs|]))
         else if cfg.deferred then Added(u, id, sub, starts, Taken(from, heads))
         else SetTask(Added(u, id, sub, starts, Taken(from, heads)), task, Dispatching(id, sub.topics, Checking))
  {
    var w := SetTask(u, task, Subscribing(id, sub, from, todo, starts, heads));
    EndSet(u, task, w.tasks[task]);
    if todo != [] {
      var t := todo[0];
      if StartOffset(u.logs[t], u.clock, t, from).Some? {
        var o := StartOffset(u.logs[t], u.clock, t, from).value;
        SetTwice(u, task, w.tasks[task],
                 Subscribing(id, sub, from, todo[1..], starts[t := o], heads[t := |u.logs[t].recs|]));
      }
      hide StartOffset;
    } else {
      var x := Added(u, id, sub, starts, Taken(from, heads));
      assert Added(w, id, sub, starts, Taken(from, heads)) == SetTask(x, task, w.tasks[task]);
      EndSet(x, task, w.tasks[task]);
      SetTwice(x, task, w.tasks[task], Dispatching(id, sub.topics, Checking));
    }
  }

  /** The mark is raised to `o`, never lowered. */
  ghost function Raised(w: World, s: string, t: string, o: nat): World {
    if o > Mark(w, s, t) then SetMark(w, s, t, o) else w
  }

  lemma AdvanceCommutes(x: World, task: string, a: Task, s: string, t: string, cursor: string)
    requires s in x.subs
    ensures AdvanceCursor(SetTask(x, task, a), s, t, cursor) == SetTask(AdvanceCursor(x, s, t, cursor), task, a)
  {
    hide Less;
  }

  lemma MarkCommutes(x: World, task: string, a: Task, s: string, t: string, o: nat)
    ensures SetMark(SetTask(x, task, a), s, t, o) == SetTask(SetMark(x, s, t, o), task, a)
    ensures Raised(SetTask(x, task, a), s, t, o) == SetTask(Raised(x, s, t, o), task, a)
  {
  }

  lemma AckBegins(u: World, task: string, s: string, cursor: string)
    requires task !in u.tasks && s in u.subs
    ensures var x := ExpireIfDue(u, s);
      && s in x.subs && task !in x.tasks
      && match Split(cursor)
         case Failure(_) => AckBegun(u, task, s, cursor) == x
         case Success((t, o)) =>
           AckBegun(u, task, s, cursor)
           == if x.subs[s].status != Active || t !in x.subs[s].topics then x
              else SetTask(x, task, Acking(s, t, o, cursor, AckCursor))
  {
    hide Split;
  }

  /** The mark is raised to `o` by an explicit ack, never lowered. */
  ghost function AckRaised(w: World, s: string, t: string, o: nat): World {
    if o > Mark(w, s, t) then AckMark(w, s, t, o) else w
  }

  lemma AckMarkCommutes(x: World, task: string, a: Task, s: string, t: string, o: nat)
    ensures AckMark(SetTask(x, task, a), s, t, o) == SetTask(AckMark(x, s, t, o), task, a)
    ensures AckRaised(SetTask(x, task, a), s, t, o) == SetTask(AckRaised(x, s, t, o), task, a)
    ensures AckRaised(x, s, t, o).tasks == x.tasks
  {
    MarkCommutes(x, task, a, s, t, o);
  }

  /** After an accepted explicit ack. */
  ghost function AckedBy(w: World, s: string, t: string, o: nat, cursor: string): World
    requires s in w.subs
  {
    AckRaised(AdvanceCursor(w, s, t, cursor), s, t, o)
  }

  /** Where an accepted ack ends: the cursor moved, the mark raised, no task left. */
  lemma AckEnds(x: World, task: string, a: Task, b: Task, c: Task, s: string, t: string, o: nat, cursor: string)
    requires s in x.subs && task !in x.tasks
    ensures var y := AdvanceCursor(x, s, t, cursor);
      && SetTask(AdvanceCursor(SetTask(x, task, a), s, t, cursor), task, b) == SetTask(y, task, b)
      && SetTask(SetTask(y, task, b), task, c) == SetTask(y, task, c)
      && s in y.subs && Mark(SetTask(y, task, b), s, t) == Mark(SetTask(y, task, c), s, t) == Mark(y, s, t)
      && EndTask(AckRaised(SetTask(y, task, c), s, t, o), task) == AckRaised(y, s, t, o)
  {
    var y := AdvanceCursor(x, s, t, cursor);
    AdvanceCommutes(x, task, a, s, t, cursor);
    SetTwice(y, task, a, b);
    SetTwice(y, task, b, c);
    AckMarkCommutes(y, task, c, s, t, o);
    EndSet(AckRaised(y, s, t, o), task, c);
    hide AdvanceCursor, SetMark, AckMark;
  }

  /** The three steps of an accepted ack. */
  lemma AckWorld(w: World, task: string, s: string, t: string, o: nat, cursor: string, stage: AckStage)
    requires s in w.subs && task in w.tasks && w.tasks[task] == Acking(s, t, o, cursor, stage)
    ensures RunAck(w, task) ==
            match stage
            case AckCursor => SetTask(AdvanceCursor(w, s, t, cursor), task, Acking(s, t, o, cursor, AckRead))
            case AckRead => SetTask(w, task, Acking(s, t, o, cursor, AckWrite(Mark(w, s, t))))
            case AckWrite(mark) => EndTask(if o > mark then AckMark(w, s, t, o) else w, task)
  {
  }

  /** Where a read for the item's event leads. */
  function Loads(w: World, item: RetryItem, work: WorkStage): WorkStage
    requires item.topic in w.logs
  {
    var page := Fetch(w.logs[item.topic], w.clock, if work.Loading? then item.offset - 1 else -1, item.offset, 1);
    if page.Stale? then Reloading
    else if page.lo < page.hi && page.lo == item.offset then Redelivering(Sending(item.attempt + 1))
    else Completing
  }

  lemma LoadStep(cfg: Config, w: World, id: string, rest: seq<RetryItem>, work: WorkStage, inp: Input)
    requires id in w.tasks && w.tasks[id] == Working(rest, work) && rest != [] && (work.Loading? || work.Reloading?)
    requires rest[0].topic in w.logs
    ensures RunWork(cfg, w, id, inp) == SetTask(w, id, Working(rest, Loads(w, rest[0], work)))
  {
    hide SetTask, Effect, Stream.FirstLive;
  }
}
