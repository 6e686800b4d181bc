/**
 * The publisher's durable dispatch protocol as a state machine.
 *
 * The durable stores, the dispatch locks and every call in progress make up one `World`.
 * A call is a `Task` that remembers where it is between two store calls, sends or sleeps;
 * one `Run` event takes one task over exactly one of those.  So calls interleave at every
 * await, and a `Crash` may fall between any two store writes.
 */
module Dispatch {
  import opened Contracts
  import opened Cursors
  import opened Stream

  datatype Config = Config(queued: bool, deferred: bool, maxAttempts: nat, pageSize: int)

  /** One event as seen by one subscription. */
  datatype Spot = Spot(sub: string, topic: string, offset: nat)

  /** An event handed to a dispatch loop, and the time its page was read. */
  datatype Sight = Sight(offset: nat, at: int)

  /** Facts about the past that no store keeps. */
  datatype History = History(
    starts: map<string, map<string, int>>,       // high-water each subscription was added with
    taken: map<string, Taken>,                   // where it asked to start, and the log lengths then
    acked: set<Spot>,                            // marks written by an explicit ack
    dropped: set<Spot>,                          // retries given up because the subscription was not active
    issued: map<string, Spot>,                   // every retry id ever used, and for which event
    lapsed: set<string>,                         // subscriptions a dispatch found inactive or unauthorised
    scanned: map<(string, string), seq<Sight>>)  // what the dispatch loops were handed, in order

  datatype World = World(
    clock: int,
    logs: map<string, Stream>,
    subs: map<string, Subscription>,
    marks: map<string, map<string, int>>,        // high-water per subscription and topic
    attempts: seq<DeliveryAttempt>,
    queue: map<string, RetryItem>,
    received: map<string, seq<string>>,          // event ids each endpoint accepted, in order
    locks: map<string, string>,                  // subscription -> task holding its dispatch lock
    tasks: map<string, Task>,
    hist: History)

  /** Where the delivery of one event is. */
  datatype Phase =
    | Sending(n: nat)                            // attempt n is about to go out
    | Sent(n: nat, ack: bool, retry: bool)       // answered, not recorded yet
    | Acknowledge                                // "delivered" recorded, acked cursor not moved yet
    | ReadMark                                   // acked cursor moved, high-water not read yet
    | WriteMark(mark: int)                       // high-water read as `mark`
    | BuryMark                                   // "dead_letter" recorded, high-water not moved yet
    | HandOver(n: nat)                           // "retry" recorded, next try not arranged yet
    | HandedMark                                 // queued for retry, high-water not moved yet

  /** Where a dispatch of one subscription is. */
  datatype Stage =
    | Checking
    | Waiting
    | Position
    | On(page: PageStage)

  /** Where the catch-up loop on one topic is. */
  datatype PageStage =
    | Fetching(position: int)
    | Refetching(position: int)
    | Scanning(next: nat, hi: nat, scan: int)
    | Handling(next: nat, hi: nat, phase: Phase)
    | Settling(scan: int)
    | SettleMark(scan: int, mark: int)

  /** Where the retry worker is with its current item. */
  datatype WorkStage =
    | Reviewing
    | Loading
    | Reloading
    | Redelivering(phase: Phase)
    | Completing

  /** What a subscribe call captured: its `from` and each topic's log length at that moment. */
  datatype Taken = Taken(from: From, heads: map<string, nat>)

  datatype AckStage = AckCursor | AckRead | AckWrite(mark: int)

  datatype From = Earliest | Latest | After(topic: string, offset: nat)

  datatype Task =
    | Publishing(topic: string, offset: nat)
    | Subscribing(id: string, sub: Subscription, from: From, todo: seq<string>,
                  starts: map<string, int>, heads: map<string, nat>)
    | Dispatching(id: string, topics: seq<string>, stage: Stage)
    | Working(rest: seq<RetryItem>, work: WorkStage)
    | Acking(id: string, topic: string, offset: nat, cursor: string, ackStage: AckStage)

  /** What the world outside decides during one step. */
  datatype Input = Input(
    allowed: bool,                               // the authoriser still grants delivery
    taken: bool, ack: bool, retry: bool,         // the endpoint accepted; the answer that came back
    retryId: string, at: int,                    // a fresh retry id; when the next retry is due
    children: map<string, string>)               // fresh task ids for the dispatches a publish starts

  datatype Event =
    | Tick(to: int)
    | Publish(task: string, topic: string, eventId: string, content: Content)
    | Subscribe(task: string, id: string, sub: Subscription, from: From)
    | StartDispatch(task: string, id: string, topics: seq<string>)
    | StartWork(task: string, claimed: seq<string>, leased: int)
    | StartAck(task: string, id: string, cursor: string)
    | Renew(id: string, leaseUntil: int)           // the write of a renewal; a deletion may follow its read
    | Delete(id: string)
    | Lapse(id: string)
    | Run(task: string, input: Input)
    | Crash

  // --- Reading the world -------------------------------------------------------

  function Mark(w: World, s: string, t: string): int {
    if s in w.marks && t in w.marks[s] then w.marks[s][t] else -1
  }

  function Start(w: World, s: string, t: string): int {
    if s in w.hist.starts && t in w.hist.starts[s] then w.hist.starts[s][t] else -1
  }

  function Received(w: World, endpoint: string): seq<string> {
    if endpoint in w.received then w.received[endpoint] else []
  }

  function Scanned(w: World, s: string, t: string): seq<Sight> {
    if (s, t) in w.hist.scanned then w.hist.scanned[(s, t)] else []
  }

  predicate Logged(w: World, t: string, o: int) {
    t in w.logs && 0 <= o < |w.logs[t].recs|
  }

  /** The subscription's selector matches the logged event. */
  predicate Matched(w: World, s: string, t: string, o: int) {
    s in w.subs && Logged(w, t, o) && w.subs[s].selector(w.logs[t].recs[o].content)
  }

  // --- Store writes ------------------------------------------------------------

  function SetMark(w: World, s: string, t: string, o: int): World {
    w.(marks := w.marks[s := (if s in w.marks then w.marks[s] else map[])[t := o]])
  }

  /** An explicit ack writes the mark. */
  function AckMark(w: World, s: string, t: string, o: nat): World {
    var x := SetMark(w, s, t, o);
    x.(hist := x.hist.(acked := x.hist.acked + {Spot(s, t, o)}))
  }

  function SetStatus(w: World, s: string, status: SubscriptionStatus): World
    requires s in w.subs
  {
    w.(subs := w.subs[s := w.subs[s].(status := status)])
  }

  /** A lapsed lease turns an active subscription into an expired one. */
  function ExpireIfDue(w: World, s: string): World
    requires s in w.subs
  {
    if w.subs[s].status == Active && w.subs[s].leaseUntil <= w.clock then SetStatus(w, s, Expired) else w
  }

  /** The acked cursor only moves to a cursor that is greater as a string. */
  function AdvanceCursor(w: World, s: string, t: string, cursor: string): World
    requires s in w.subs
  {
    var sub := w.subs[s];
    if t !in sub.cursors || Less(sub.cursors[t], cursor)
    then w.(subs := w.subs[s := sub.(cursors := sub.cursors[t := cursor])])
    else w
  }

  /** The receiver's dedupe: an id it has already seen is acked but not taken again. */
  function Receive(w: World, endpoint: string, eventId: string): World {
    var ids := Received(w, endpoint);
    if eventId in ids then w else w.(received := w.received[endpoint := ids + [eventId]])
  }

  function RecordAttempt(w: World, s: string, t: string, o: nat, n: nat, status: AttemptStatus): World
    requires Logged(w, t, o)
  {
    w.(attempts := w.attempts + [DeliveryAttempt(s, w.logs[t].recs[o].eventId, t, o, n, status)])
  }

  function Enqueue(w: World, item: RetryItem): World {
    w.(queue := w.queue[item.retryId := item],
       hist := w.hist.(issued := w.hist.issued[item.retryId := Spot(item.sub, item.topic, item.offset)]))
  }

  /** A new subscription and its initial high-water marks. */
  function Added(w: World, s: string, sub: Subscription, starts: map<string, int>, taken: Taken): World {
    w.(subs := w.subs[s := sub],
       marks := w.marks[s := starts],
       hist := w.hist.(starts := w.hist.starts[s := starts], taken := w.hist.taken[s := taken]))
  }

  /** The claimed items become due again only when their lease ends. */
  function Leased(w: World, claimed: seq<string>, leased: int): World {
    w.(queue := map q | q in w.queue ::
         if q in claimed then w.queue[q].(nextRetryAt := leased) else w.queue[q])
  }

  function SetTask(w: World, id: string, task: Task): World { w.(tasks := w.tasks[id := task]) }

  function EndTask(w: World, id: string): World { w.(tasks := w.tasks - {id}) }

  // --- Delivering one event ------------------------------------------------------

  function StatusOf(cfg: Config, n: nat, ack: bool, retry: bool): AttemptStatus {
    if ack then Delivered else if !retry || n >= cfg.maxAttempts then DeadLetter else Retry
  }

  /** What the stores and the endpoint look like after `phase`. */
  function Effect(cfg: Config, w: World, s: string, t: string, o: nat, phase: Phase, inp: Input): World
    requires s in w.subs && Logged(w, t, o)
  {
    match phase
    case Sending(n) =>
      if inp.taken then Receive(w, w.subs[s].endpoint, w.logs[t].recs[o].eventId) else w
    case Sent(n, ack, retry) => RecordAttempt(w, s, t, o, n, StatusOf(cfg, n, ack, retry))
    case Acknowledge => AdvanceCursor(w, s, t, Encode(t, o))
    case ReadMark => w
    case WriteMark(mark) => if o > mark then SetMark(w, s, t, o) else w
    case BuryMark => SetMark(w, s, t, o)
    case HandOver(n) =>
      if cfg.queued
      then Enqueue(w, RetryItem(inp.retryId, s, t, o, w.logs[t].recs[o].eventId, 1, inp.at))
      else w
    case HandedMark => SetMark(w, s, t, o)
  }

  /** Where the delivery stands after `phase`; `None` when it is over. */
  function NextPhase(cfg: Config, w: World, s: string, t: string, phase: Phase, inp: Input): Option<Phase> {
    match phase
    case Sending(n) => Some(Sent(n, inp.ack, inp.retry))
    case Sent(n, ack, retry) =>
      Some(match StatusOf(cfg, n, ack, retry)
           case Delivered => Acknowledge
           case DeadLetter => BuryMark
           case Retry => HandOver(n))
    case Acknowledge => Some(ReadMark)
    case ReadMark => Some(WriteMark(Mark(w, s, t)))
    case WriteMark(_) => None
    case BuryMark => None
    case HandOver(n) => Some(if cfg.queued then HandedMark else Sending(n + 1))
    case HandedMark => None
  }

  // --- One step of each kind of task ---------------------------------------------

  /** A dispatch leaves its lock and ends. */
  function Release(w: World, id: string, s: string): World {
    EndTask(w.(locks := w.locks - {s}), id)
  }

  /** A page was read: remember what the loop is handed. */
  function SeePage(w: World, s: string, t: string, lo: nat, hi: nat): World
    requires lo <= hi
  {
    var sights := seq(hi - lo, i requires 0 <= i => Sight(lo + i, w.clock));
    w.(hist := w.hist.(scanned := w.hist.scanned[(s, t) := Scanned(w, s, t) + sights]))
  }

  function OpenPage(w: World, id: string, s: string, topics: seq<string>, page: Page, position: int): World
    requires topics != [] && page.Range? && page.lo <= page.hi
  {
    if page.lo == page.hi
    then SetTask(w, id, Dispatching(s, topics[1..], Position))
    else SetTask(SeePage(w, s, topics[0], page.lo, page.hi), id,
                 Dispatching(s, topics, On(Scanning(page.lo, page.hi, position))))
  }

  function OnPage(w: World, id: string, s: string, topics: seq<string>, page: PageStage): World {
    SetTask(w, id, Dispatching(s, topics, On(page)))
  }

  /** One step of the catch-up loop on the first of `topics`. */
  function RunCatchUp(cfg: Config, w: World, id: string, s: string, topics: seq<string>, stage: PageStage, inp: Input)
    : World
    requires s in w.subs && topics != [] && topics[0] in w.logs
  {
    var t := topics[0];
    var log := w.logs[t];
    match stage
    case Fetching(position) =>
      var page := Fetch(log, w.clock, position, |log.recs|, cfg.pageSize);
      if page.Stale? then OnPage(w, id, s, topics, Refetching(position))
      else OpenPage(w, id, s, topics, page, position)
    case Refetching(position) =>
      OpenPage(w, id, s, topics, Fetch(log, w.clock, -1, |log.recs|, cfg.pageSize), position)
    case Scanning(next, hi, scan) =>
      if next >= hi then OnPage(w, id, s, topics, Settling(scan))
      else if next <= scan then OnPage(w, id, s, topics, Scanning(next + 1, hi, scan))
      else if !Matched(w, s, t, next) then OnPage(w, id, s, topics, Scanning(next + 1, hi, next))
      else OnPage(w, id, s, topics, Handling(next, hi, Sending(1)))
    case Handling(next, hi, phase) =>
      if !Logged(w, t, next) then Release(w, id, s)
      else
        var w1 := Effect(cfg, w, s, t, next, phase, inp);
        (match NextPhase(cfg, w, s, t, phase, inp)
         case Some(p) => OnPage(w1, id, s, topics, Handling(next, hi, p))
         case None => OnPage(w1, id, s, topics, Scanning(next + 1, hi, next)))
    case Settling(scan) => OnPage(w, id, s, topics, SettleMark(scan, Mark(w, s, t)))
    case SettleMark(scan, mark) =>
      SetTask(if scan > mark then SetMark(w, s, t, scan) else w, id, Dispatching(s, topics, Position))
  }

  function RunDispatch(cfg: Config, w: World, id: string, inp: Input): World
    requires id in w.tasks && w.tasks[id].Dispatching?
  {
    var Dispatching(s, topics, stage) := w.tasks[id];
    if s !in w.subs then EndTask(w, id)
    else match stage
      case Checking =>
        var w1 := ExpireIfDue(w, s);
        if w1.subs[s].status != Active || !inp.allowed
        then EndTask(w1.(hist := w1.hist.(lapsed := w1.hist.lapsed + {s})), id)
        else SetTask(w1, id, Dispatching(s, topics, Waiting))
      case Waiting =>
        SetTask(w.(locks := w.locks[s := id]), id, Dispatching(s, topics, Position))
      case Position =>
        if topics == [] then Release(w, id, s)
        else OnPage(w, id, s, topics, Fetching(Mark(w, s, topics[0])))
      case On(page) =>
        if topics == [] || topics[0] !in w.logs then Release(w, id, s)
        else RunCatchUp(cfg, w, id, s, topics, page, inp)
  }

  /** The worker turns to its next item. */
  function NextItem(w: World, id: string, rest: seq<RetryItem>): World
    requires rest != []
  {
    SetTask(w, id, Working(rest[1..], Reviewing))
  }

  function RunWork(cfg: Config, w: World, id: string, inp: Input): World
    requires id in w.tasks && w.tasks[id].Working?
  {
    var Working(rest, work) := w.tasks[id];
    if rest == [] then EndTask(w, id)
    else
      var item := rest[0];
      var s, t, o := item.sub, item.topic, item.offset;
      match work
      case Reviewing =>
        if s !in w.subs || w.subs[s].status != Active
        then SetTask(w.(hist := w.hist.(dropped := w.hist.dropped + {Spot(s, t, o)})), id, Working(rest, Completing))
        else SetTask(w, id, Working(rest, Loading))
      case Loading =>
        if t !in w.logs then SetTask(w, id, Working(rest, Completing))
        else (
          match Fetch(w.logs[t], w.clock, o - 1, o, 1)
          case Stale => SetTask(w, id, Working(rest, Reloading))
          case Range(lo, hi) =>
            if lo < hi && lo == o
            then SetTask(w, id, Working(rest, Redelivering(Sending(item.attempt + 1))))
            else SetTask(w, id, Working(rest, Completing)))
      case Reloading =>
        if t !in w.logs then SetTask(w, id, Working(rest, Completing))
        else
          var page := Fetch(w.logs[t], w.clock, -1, o, 1);
          if page.Range? && page.lo < page.hi && page.lo == o
          then SetTask(w, id, Working(rest, Redelivering(Sending(item.attempt + 1))))
          else SetTask(w, id, Working(rest, Completing))
      case Redelivering(phase) =>
        if s !in w.subs || !Logged(w, t, o) then SetTask(w, id, Working(rest, Completing))
        else if phase.HandOver? then
          var w1 :=
            if item.retryId in w.queue
            then w.(queue := w.queue[item.retryId :=
                      w.queue[item.retryId].(attempt := phase.n, nextRetryAt := inp.at)])
            else w;
          NextItem(w1, id, rest)
        else
          var w1 := Effect(cfg, w, s, t, o, phase, inp);
          (match NextPhase(cfg, w, s, t, phase, inp)
           case Some(p) => SetTask(w1, id, Working(rest, Redelivering(p)))
           case None => SetTask(w1, id, Working(rest, Completing)))
      case Completing =>
        NextItem(w.(queue := w.queue - {item.retryId}), id, rest)
  }

  function RunAck(w: World, id: string): World
    requires id in w.tasks && w.tasks[id].Acking?
  {
    var Acking(s, t, o, cursor, stage) := w.tasks[id];
    if s !in w.subs then EndTask(w, id)
    else match stage
      case AckCursor => SetTask(AdvanceCursor(w, s, t, cursor), id, Acking(s, t, o, cursor, AckRead))
      case AckRead => SetTask(w, id, Acking(s, t, o, cursor, AckWrite(Mark(w, s, t))))
      case AckWrite(mark) => EndTask(if o > mark then AckMark(w, s, t, o) else w, id)
  }

  /** The start offset of one topic, or `None` when its cursor has expired. */
  function StartOffset(log: Stream, now: int, t: string, from: From): Option<int> {
    match from
    case Earliest => Some(-1)
    case Latest => Some(|log.recs| - 1)
    case After(topic, offset) =>
      if topic != t then Some(|log.recs| - 1)
      else if Fetch(log, now, offset, offset, 1).Stale? then None
      else Some(offset)
  }

  function RunSubscribe(cfg: Config, w: World, id: string): World
    requires id in w.tasks && w.tasks[id].Subscribing?
  {
    var Subscribing(s, sub, from, todo, starts, heads) := w.tasks[id];
    if todo != [] then
      var t := todo[0];
      if t !in w.logs then EndTask(w, id)
      else (
        match StartOffset(w.logs[t], w.clock, t, from)
        case None => EndTask(w, id)
        case Some(o) =>
          SetTask(w, id, Subscribing(s, sub, from, todo[1..], starts[t := o], heads[t := |w.logs[t].recs|])))
    else if s in w.subs then EndTask(w, id)
    else
      var w1 := Added(w, s, sub, starts, Taken(from, heads));
      if cfg.deferred then EndTask(w1, id)
      else SetTask(w1, id, Dispatching(s, sub.topics, Checking))
  }

  /** The subscriptions a publish on `t` has to catch up. */
  function Audience(w: World, t: string): set<string> {
    set s | s in w.subs && t in w.subs[s].topics
  }

  /** The publish lists the subscriptions and starts one dispatch for each. */
  function RunPublish(cfg: Config, w: World, id: string, inp: Input): World
    requires id in w.tasks && w.tasks[id].Publishing?
  {
    if cfg.deferred then EndTask(w, id)
    else
      var t := w.tasks[id].topic;
      w.(tasks := (w.tasks - {id}) +
           map c | c in inp.children :: Dispatching(inp.children[c], [t], Checking))
  }

  // --- Events -----------------------------------------------------------------------

  predicate Enabled(cfg: Config, w: World, e: Event) {
    match e
    case Tick(to) => to >= w.clock
    case Publish(task, topic, eventId, content) =>
      && task !in w.tasks
      && topic in w.logs
      && Fresh(w, eventId)
    case Subscribe(task, id, sub, from) =>
      && task !in w.tasks
      && sub.status == Active
      && sub.cursors == map[]
      && (forall i, j :: 0 <= i < j < |sub.topics| ==> sub.topics[i] != sub.topics[j])
      && (forall t :: t in sub.topics ==> t in w.logs)
    case StartDispatch(task, id, topics) =>
      && task !in w.tasks
      && id in w.subs
      && forall t :: t in topics ==> t in w.subs[id].topics
    case StartWork(task, claimed, leased) =>
      && task !in w.tasks
      && (forall i, j :: 0 <= i < j < |claimed| ==> claimed[i] != claimed[j])
      && forall c :: c in claimed ==> c in w.queue && w.queue[c].nextRetryAt <= w.clock
    case StartAck(task, id, cursor) => task !in w.tasks && id in w.subs
    case Renew(id, _) => id in w.subs
    case Delete(id) => id in w.subs
    case Lapse(id) => id in w.subs
    case Run(task, inp) =>
      && task in w.tasks
      && (inp.ack ==> inp.taken)
      && inp.retryId !in w.hist.issued
      && !Blocked(w, w.tasks[task])
      && (w.tasks[task].Publishing? && !cfg.deferred ==> Fanned(w, w.tasks[task].topic, inp.children))
    case Crash => true
  }

  /** An event id that was never used before. */
  predicate Fresh(w: World, eventId: string) {
    forall t :: t in w.logs ==> forall o :: 0 <= o < |w.logs[t].recs| ==> w.logs[t].recs[o].eventId != eventId
  }

  /** A dispatch that waits for a lock someone else holds. */
  predicate Blocked(w: World, task: Task) {
    task.Dispatching? && task.stage.Waiting? && task.id in w.locks
  }

  /** One fresh task for every subscription of `t`. */
  predicate Fanned(w: World, t: string, children: map<string, string>) {
    && (forall c :: c in children ==> c !in w.tasks)
    && children.Values == Audience(w, t)
  }

  function Apply(cfg: Config, w: World, e: Event): World
    requires Enabled(cfg, w, e)
  {
    match e
    case Tick(to) => w.(clock := to)
    case Publish(task, topic, eventId, content) =>
      var log := w.logs[topic];
      var record := EventRecord(eventId, topic, |log.recs|, content, w.clock);
      SetTask(w.(logs := w.logs[topic := log.(recs := log.recs + [record])]),
              task, Publishing(topic, |log.recs|))
    case Subscribe(task, id, sub, from) =>
      SetTask(w, task, Subscribing(id, sub, from, sub.topics, map[], map[]))
    case StartDispatch(task, id, topics) => SetTask(w, task, Dispatching(id, topics, Checking))
    case StartWork(task, claimed, leased) =>
      var items := seq(|claimed|, i requires 0 <= i < |claimed| => w.queue[claimed[i]].(nextRetryAt := leased));
      SetTask(Leased(w, claimed, leased), task, Working(items, Reviewing))
    case StartAck(task, id, cursor) =>
      var w1 := ExpireIfDue(w, id);
      (match Split(cursor)
       case Failure(_) => w1
       case Success((t, o)) =>
         if w1.subs[id].status != Active || t !in w1.subs[id].topics then w1
         else SetTask(w1, task, Acking(id, t, o, cursor, AckCursor)))
    case Renew(id, leaseUntil) =>
      w.(subs := w.subs[id := w.subs[id].(leaseUntil := leaseUntil, status := Active)])
    case Delete(id) => SetStatus(w, id, Deleted)
    case Lapse(id) => ExpireIfDue(w, id)
    case Run(task, inp) =>
      (match w.tasks[task]
       case Publishing(_, _) => RunPublish(cfg, w, task, inp)
       case Subscribing(_, _, _, _, _, _) => RunSubscribe(cfg, w, task)
       case Dispatching(_, _, _) => RunDispatch(cfg, w, task, inp)
       case Working(_, _) => RunWork(cfg, w, task, inp)
       case Acking(_, _, _, _, _) => RunAck(w, task))
    case Crash => w.(tasks := map[], locks := map[])
  }

  // --- Runs -------------------------------------------------------------------------

  /** A publisher that has declared its topics and done nothing else. */
  ghost predicate Initial(w: World) {
    && (forall t :: t in w.logs ==> w.logs[t].recs == [])
    && w.subs == map[] && w.marks == map[] && w.attempts == [] && w.queue == map[] && w.received == map[]
    && w.locks == map[] && w.tasks == map[]
    && w.hist == History(map[], map[], {}, {}, map[], {}, map[])
  }

  /** `es` can happen one after the other, starting in `w`. */
  ghost predicate Possible(cfg: Config, w: World, es: seq<Event>)
    decreases |es|
  {
    es == [] || (Enabled(cfg, w, es[0]) && Possible(cfg, Apply(cfg, w, es[0]), es[1..]))
  }

  /** The world after `es`. */
  ghost function Outcome(cfg: Config, w: World, es: seq<Event>): World
    requires Possible(cfg, w, es)
    decreases |es|
  {
    if es == [] then w else Outcome(cfg, Apply(cfg, w, es[0]), es[1..])
  }

  lemma {:induction false} Extend(cfg: Config, u: World, es: seq<Event>, e: Event)
    requires Possible(cfg, u, es) && Enabled(cfg, Outcome(cfg, u, es), e)
    ensures Possible(cfg, u, es + [e]) && Outcome(cfg, u, es + [e]) == Apply(cfg, Outcome(cfg, u, es), e)
    decreases |es|
  {
    hide Enabled, Apply;
    if es == [] {
      assert es + [e] == [e];
      assert Possible(cfg, Apply(cfg, u, e), []);
      assert [e][1..] == [];
    } else {
      Extend(cfg, Apply(cfg, u, es[0]), es[1..], e);
      assert (es + [e])[1..] == es[1..] + [e];
    }
  }
}
