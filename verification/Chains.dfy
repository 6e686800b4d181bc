/**
 * Attempts at one event through the retry queue.  Every recorded attempt of a queued delivery is
 * tagged with the retry id it belongs to.  In every run without a crash in which each claimed item is
 * dealt with before its claim lapses, the attempts of one retry id, the first inline one included,
 * are numbered from one without a gap, whatever happens in between.
 */
module Chains {
  import opened Contracts
  import opened Cursors
  import opened Stream
  import opened Dispatch
  import opened NoLoss
  import opened Steps
  import Backoff

  /** The waits a publisher is configured with. */
  datatype Pace = Pace(initial: int, max: int)

  /** One retry id: its attempts, how many of them a wait was scheduled after, those waits, and who claimed it last. */
  datatype Chain = Chain(tries: seq<nat>, handed: nat, waited: int, worker: string)

  /** What an observer notes along a run; attempts are named by their place in the record. */
  datatype Tags = Tags(
    last: map<string, nat>,                      // the latest attempt of each dispatch
    maker: map<nat, string>,                     // which dispatch made it
    whose: map<nat, string>,                     // the retry id of each tagged attempt
    chains: map<string, Chain>)

  const UNTAGGED := Tags(map[], map[], map[], map[])

  /** A first attempt gets its tag when its event is queued, a later one when it is recorded. */
  function Note(w: World, e: Event, c: Tags): Tags {
    if e.StartWork? then Claim(c, e.claimed, e.task)
    else if !e.Run? || e.task !in w.tasks then c
    else
      match w.tasks[e.task]
      case Dispatching(_, _, On(Handling(_, _, Sent(_, _, _)))) => Make(c, e.task, |w.attempts|)
      case Dispatching(_, _, On(Handling(_, _, HandOver(_)))) =>
        if e.task in c.last then Queue(c, e.input.retryId, c.last[e.task], e.input.at - w.clock) else c
      case Working(rest, Redelivering(Sent(_, _, _))) =>
        if rest != [] && rest[0].retryId in c.chains then Try(c, rest[0].retryId, |w.attempts|) else c
      case Working(rest, Redelivering(HandOver(_))) =>
        if rest != [] && rest[0].retryId in c.chains then Wait(c, rest[0].retryId, e.input.at - w.clock) else c
      case _ => c
  }

  function Claim(c: Tags, claimed: seq<string>, id: string): Tags {
    c.(chains := map r | r in c.chains :: if r in claimed then c.chains[r].(worker := id) else c.chains[r])
  }

  function Make(c: Tags, id: string, i: nat): Tags {
    c.(last := c.last[id := i], maker := c.maker[i := id])
  }

  function Queue(c: Tags, r: string, i: nat, wait: int): Tags {
    c.(whose := c.whose[i := r], chains := c.chains[r := Chain([i], 1, wait, "")])
  }

  function Try(c: Tags, r: string, i: nat): Tags
    requires r in c.chains
  {
    c.(whose := c.whose[i := r], chains := c.chains[r := c.chains[r].(tries := c.chains[r].tries + [i])])
  }

  function Wait(c: Tags, r: string, wait: int): Tags
    requires r in c.chains
  {
    var ch := c.chains[r];
    c.(chains := c.chains[r := ch.(handed := ch.handed + 1, waited := ch.waited + wait)])
  }

  ghost function Noted(cfg: Config, w: World, es: seq<Event>, c: Tags): Tags
    requires Possible(cfg, w, es)
    decreases |es|
  {
    if es == [] then c else Noted(cfg, Apply(cfg, w, es[0]), es[1..], Note(w, es[0], c))
  }

  // --- Runs in which claims are kept --------------------------------------------------------------

  /** No worker still holds an item whose claim has lapsed. */
  ghost predicate OnTime(w: World) {
    forall id :: id in w.tasks && w.tasks[id].Working? ==>
      forall i :: 0 <= i < |w.tasks[id].rest| ==> w.clock < w.tasks[id].rest[i].nextRetryAt
  }

  /** How many attempts were made when this step schedules the next one. */
  function Schedules(w: World, e: Event): Option<nat> {
    if !e.Run? || e.task !in w.tasks then None
    else
      match w.tasks[e.task]
      case Dispatching(_, _, On(Handling(_, _, HandOver(n)))) => Some(n)
      case Working(_, Redelivering(HandOver(n))) => Some(n)
      case _ => None
  }

  /** The next attempt is scheduled as the backoff says. */
  ghost predicate Paced(pace: Pace, w: World, e: Event) {
    var n := Schedules(w, e);
    n.Some? && n.value >= 1 ==> e.input.at == w.clock + Backoff.Delay(pace.initial, pace.max, n.value)
  }

  ghost predicate InTime(cfg: Config, pace: Pace, w: World, es: seq<Event>)
    requires Possible(cfg, w, es)
    decreases |es|
  {
    OnTime(w) && (es != [] ==>
      !es[0].Crash? && Paced(pace, w, es[0]) && InTime(cfg, pace, Apply(cfg, w, es[0]), es[1..]))
  }

  // --- What such runs keep ------------------------------------------------------------------------

  predicate At(a: DeliveryAttempt, spot: Spot) { a.sub == spot.sub && a.topic == spot.topic && a.offset == spot.offset }

  /** The attempts at `tries` are all at one event, numbered from one, each but the last to be retried. */
  ghost predicate Numbered(cfg: Config, attempts: seq<DeliveryAttempt>, spot: Spot, tries: seq<nat>) {
    && 1 <= |tries| <= cfg.maxAttempts
    && (forall i :: 0 <= i < |tries| ==> tries[i] < |attempts| && At(attempts[tries[i]], spot))
    && (forall i :: 0 <= i < |tries| ==> attempts[tries[i]].attempt == i + 1)
    && (forall i :: 0 <= i < |tries| - 1 ==> attempts[tries[i]].status == Retry)
    && (forall i, j :: 0 <= i < j < |tries| ==> tries[i] < tries[j])
  }

  predicate Recorded(attempts: seq<DeliveryAttempt>, tries: seq<nat>) {
    tries != [] && tries[|tries| - 1] < |attempts|
  }

  /** How the last attempt of `tries` ended. */
  function LastStatus(attempts: seq<DeliveryAttempt>, tries: seq<nat>): AttemptStatus
    requires Recorded(attempts, tries)
  {
    attempts[tries[|tries| - 1]].status
  }

  /** Given up without a last attempt: dropped, or the event left retention. */
  ghost predicate GivenUp(w: World, spot: Spot) {
    spot in w.hist.dropped || Aged(w, spot.topic, spot.offset)
  }

  ghost predicate HeldBy(w: World, id: string, r: string) {
    id in w.tasks && w.tasks[id].Working? && w.tasks[id].rest != [] && w.tasks[id].rest[0].retryId == r
  }

  /** Waiting for its next attempt. */
  predicate Pending(ch: Chain) { ch.handed == |ch.tries| }

  ghost predicate ChainOk(cfg: Config, pace: Pace, w: World, r: string, spot: Spot, ch: Chain) {
    && Numbered(cfg, w.attempts, spot, ch.tries)
    && ch.waited == Backoff.Total(pace.initial, pace.max, ch.handed + 1)
    && if Pending(ch) then
         && LastStatus(w.attempts, ch.tries) == Retry && |ch.tries| < cfg.maxAttempts
         && (if r in w.queue then w.queue[r].attempt == |ch.tries| else GivenUp(w, spot))
       else
         && ch.handed == |ch.tries| - 1
         && (if r in w.queue then HeldBy(w, ch.worker, r) else LastStatus(w.attempts, ch.tries) != Retry)
  }

  ghost predicate ChainsOk(cfg: Config, pace: Pace, w: World, c: Tags) {
    && c.chains.Keys == w.hist.issued.Keys
    && forall r :: r in c.chains ==> ChainOk(cfg, pace, w, r, w.hist.issued[r], c.chains[r])
  }

  /** Every tag is right, and every attempt after the first has one. */
  ghost predicate Tagged(w: World, c: Tags) {
    && (forall r, i :: r in c.chains && 0 <= i < |c.chains[r].tries| ==>
          c.chains[r].tries[i] in c.whose && c.whose[c.chains[r].tries[i]] == r)
    && (forall i :: i in c.whose ==> i < |w.attempts| && c.whose[i] in c.chains && i in c.chains[c.whose[i]].tries)
    && (forall i :: 0 <= i < |w.attempts| && w.attempts[i].attempt > 1 ==> i in c.whose)
  }

  /** A dispatch makes first attempts only; the one it is about to queue has no tag yet. */
  ghost predicate FirstOk(attempts: seq<DeliveryAttempt>, c: Tags, id: string, spot: Spot, phase: Phase) {
    match phase
    case Sending(n) => n == 1
    case Sent(n, _, _) => n == 1
    case HandOver(n) =>
      && n == 1 && id in c.last && c.last[id] < |attempts| && c.last[id] !in c.whose
      && c.last[id] in c.maker && c.maker[c.last[id]] == id
      && At(attempts[c.last[id]], spot) && attempts[c.last[id]].attempt == 1 && attempts[c.last[id]].status == Retry
    case _ => true
  }

  /** Where the worker is with the item at its head. */
  ghost predicate HeadOk(attempts: seq<DeliveryAttempt>, givenUp: bool, ch: Chain, work: WorkStage)
    requires Recorded(attempts, ch.tries)
  {
    var last := LastStatus(attempts, ch.tries);
    match work
    case Reviewing => Pending(ch)
    case Loading => Pending(ch)
    case Reloading => Pending(ch)
    case Redelivering(Sending(n)) => Pending(ch) && n == |ch.tries| + 1
    case Redelivering(Sent(n, _, _)) => Pending(ch) && n == |ch.tries| + 1
    case Redelivering(HandOver(n)) => !Pending(ch) && n == |ch.tries| && last == Retry
    case Redelivering(_) => !Pending(ch) && last != Retry
    case Completing => if Pending(ch) then givenUp else last != Retry
  }

  /** A claimed item is in the queue as it was claimed, and nobody else claimed it. */
  ghost predicate Claimed(w: World, c: Tags, id: string, item: RetryItem) {
    && item.retryId in w.queue && w.queue[item.retryId] == item
    && item.retryId in c.chains && c.chains[item.retryId].worker == id
  }

  ghost predicate WorkFits(w: World, c: Tags, id: string, rest: seq<RetryItem>, work: WorkStage) {
    && (forall i :: 0 <= i < |rest| ==> Claimed(w, c, id, rest[i]))
    && (forall i, j :: 0 <= i < j < |rest| ==> rest[i].retryId != rest[j].retryId)
    && (forall i :: 1 <= i < |rest| ==> rest[i].retryId in c.chains && Pending(c.chains[rest[i].retryId]))
    && (rest != [] ==>
          var r := rest[0].retryId;
          && r in c.chains && r in w.hist.issued && Recorded(w.attempts, c.chains[r].tries)
          && HeadOk(w.attempts, GivenUp(w, w.hist.issued[r]), c.chains[r], work))
  }

  ghost predicate TaskFits(w: World, c: Tags, id: string, task: Task) {
    match task
    case Dispatching(s, topics, On(Handling(next, hi, phase))) =>
      topics != [] && FirstOk(w.attempts, c, id, Spot(s, topics[0], next), phase)
    case Working(rest, work) => WorkFits(w, c, id, rest, work)
    case _ => true
  }

  ghost predicate Kept(cfg: Config, pace: Pace, w: World, c: Tags) {
    && ChainsOk(cfg, pace, w, c) && Tagged(w, c)
    && forall id :: id in w.tasks ==> TaskFits(w, c, id, w.tasks[id])
  }

  // --- Steps ----------------------------------------------------------------------------------------

  /** Attempts, drops, time and logs only grow. */
  ghost predicate Onward(w: World, v: World) {
    && w.attempts <= v.attempts && w.hist.dropped <= v.hist.dropped && w.clock <= v.clock
    && forall t :: t in w.logs ==>
         t in v.logs && v.logs[t].retention == w.logs[t].retention && w.logs[t].recs <= v.logs[t].recs
  }

  /** A task that has nothing to do with attempts yet, or never will. */
  predicate Idle(task: Task) { !task.Working? && (task.Dispatching? ==> !task.stage.On?) }

  /** Every task but `id` stays where it is; others may appear. */
  ghost predicate OthersWait(w: World, v: World, id: string) {
    && (forall x :: x in v.tasks && x != id ==> (x in w.tasks && v.tasks[x] == w.tasks[x]) || Idle(v.tasks[x]))
    && (forall x :: x in w.tasks && x != id && w.tasks[x].Working? ==> x in v.tasks && v.tasks[x] == w.tasks[x])
  }

  /** Only retry id `r`, if any, and the attempts of task `id` are touched. */
  ghost predicate Moves(w: World, v: World, c: Tags, d: Tags, id: string, r: Option<string>) {
    && Onward(w, v) && OthersWait(w, v, id)
    && (forall q :: Some(q) != r ==> (q in v.queue <==> q in w.queue) && (q in w.queue ==> v.queue[q] == w.queue[q]))
    && (forall q :: Some(q) != r ==>
      (q in d.chains <==> q in c.chains) && (q in c.chains ==> d.chains[q] == c.chains[q]))
    && (forall q :: Some(q) != r ==>
          (q in v.hist.issued <==> q in w.hist.issued) && (q in w.hist.issued ==> v.hist.issued[q] == w.hist.issued[q]))
    && (forall x :: x in c.last && x != id ==> x in d.last && d.last[x] == c.last[x])
    && (forall i :: i in c.maker && i < |w.attempts| ==> i in d.maker && d.maker[i] == c.maker[i])
    && (forall i :: i in d.whose && i !in c.whose && i < |w.attempts| ==> i in c.maker && c.maker[i] == id)
  }

  /** If the retry id is waiting it is this task's own. */
  ghost predicate Owns(w: World, c: Tags, id: string, r: Option<string>) {
    r.Some? && r.value in w.queue && r.value in c.chains ==> c.chains[r.value].worker == id
  }

  ghost predicate ChainSet(cfg: Config, pace: Pace, w: World, c: Tags, r: string) {
    && (r in c.chains <==> r in w.hist.issued)
    && (r in c.chains ==> ChainOk(cfg, pace, w, r, w.hist.issued[r], c.chains[r]))
  }

  lemma GivenUpStays(w: World, v: World, spot: Spot)
    requires Onward(w, v) && GivenUp(w, spot)
    ensures GivenUp(v, spot)
  {
    if Aged(w, spot.topic, spot.offset) {
      assert v.logs[spot.topic].recs[spot.offset] == w.logs[spot.topic].recs[spot.offset];
    }
  }

  lemma LastStays(a: seq<DeliveryAttempt>, b: seq<DeliveryAttempt>, tries: seq<nat>)
    requires a <= b && Recorded(a, tries)
    ensures Recorded(b, tries) && LastStatus(b, tries) == LastStatus(a, tries)
  {
  }

  lemma NumberedStays(cfg: Config, a: seq<DeliveryAttempt>, b: seq<DeliveryAttempt>, spot: Spot, tries: seq<nat>)
    requires a <= b && Numbered(cfg, a, spot, tries)
    ensures Numbered(cfg, b, spot, tries)
  {
    forall i | 0 <= i < |tries| ensures b[tries[i]] == a[tries[i]] {}
  }

  lemma NumberedRecorded(cfg: Config, a: seq<DeliveryAttempt>, spot: Spot, tries: seq<nat>)
    requires Numbered(cfg, a, spot, tries)
    ensures Recorded(a, tries)
  {
  }

  lemma Lengthens(w: World, v: World)
    requires Onward(w, v)
    ensures w.attempts <= v.attempts
  {
  }

  lemma ChainStays(cfg: Config, pace: Pace, w: World, v: World, r: string, spot: Spot, ch: Chain)
    requires ChainOk(cfg, pace, w, r, spot, ch) && Onward(w, v)
    requires (r in v.queue <==> r in w.queue) && (r in w.queue ==> v.queue[r].attempt == w.queue[r].attempt)
    requires HeldBy(w, ch.worker, r) ==> HeldBy(v, ch.worker, r)
    ensures ChainOk(cfg, pace, v, r, spot, ch)
  {
    hide GivenUp, HeldBy, Onward, Numbered, LastStatus, Backoff.Total;
    NumberedRecorded(cfg, w.attempts, spot, ch.tries);
    Lengthens(w, v);
    NumberedStays(cfg, w.attempts, v.attempts, spot, ch.tries);
    LastStays(w.attempts, v.attempts, ch.tries);
    if GivenUp(w, spot) { GivenUpStays(w, v, spot); }
  }

  lemma FirstStays(w: World, v: World, c: Tags, d: Tags, id: string, r: Option<string>, x: string, spot: Spot,
                   phase: Phase)
    requires FirstOk(w.attempts, c, x, spot, phase) && Moves(w, v, c, d, id, r) && x != id
    ensures FirstOk(v.attempts, d, x, spot, phase)
  {
    hide OthersWait;
    if phase.HandOver? {
      var i := c.last[x];
      assert v.attempts[i] == w.attempts[i];
    }
  }

  lemma ClaimStays(w: World, v: World, c: Tags, d: Tags, id: string, r: Option<string>, x: string, item: RetryItem)
    requires Claimed(w, c, x, item) && Moves(w, v, c, d, id, r) && x != id
    requires Owns(w, c, id, r)
    ensures Some(item.retryId) != r && Claimed(v, d, x, item)
    ensures item.retryId in c.chains && item.retryId in d.chains && d.chains[item.retryId] == c.chains[item.retryId]
    ensures item.retryId in w.hist.issued ==>
              item.retryId in v.hist.issued && v.hist.issued[item.retryId] == w.hist.issued[item.retryId]
  {
    hide Onward, OthersWait;
  }

  lemma MovesOn(w: World, v: World, c: Tags, d: Tags, id: string, r: Option<string>)
    requires Moves(w, v, c, d, id, r)
    ensures Onward(w, v) && OthersWait(w, v, id)
  {
  }

  lemma OtherHeld(w: World, v: World, id: string, x: string, q: string)
    requires OthersWait(w, v, id) && x != id && HeldBy(w, x, q)
    ensures HeldBy(v, x, q)
  {
  }

  lemma WorkStays(w: World, v: World, c: Tags, d: Tags, id: string, r: Option<string>, x: string, rest: seq<RetryItem>,
                  work: WorkStage)
    requires WorkFits(w, c, x, rest, work) && Moves(w, v, c, d, id, r) && x != id
    requires Owns(w, c, id, r)
    ensures WorkFits(v, d, x, rest, work)
  {
    hide Moves, GivenUp, Recorded, LastStatus, Claimed, Owns, Onward;
    MovesOn(w, v, c, d, id, r);
    Lengthens(w, v);
    forall i | 0 <= i < |rest|
      ensures var q := rest[i].retryId; Claimed(v, d, x, rest[i]) && q in d.chains && d.chains[q] == c.chains[q]
    {
      assert Claimed(w, c, x, rest[i]);
      ClaimStays(w, v, c, d, id, r, x, rest[i]);
    }
    if rest != [] {
      var q := rest[0].retryId;
      ClaimStays(w, v, c, d, id, r, x, rest[0]);
      LastStays(w.attempts, v.attempts, c.chains[q].tries);
      if GivenUp(w, w.hist.issued[q]) { GivenUpStays(w, v, w.hist.issued[q]); }
    }
  }

  lemma TaskStays(w: World, v: World, c: Tags, d: Tags, id: string, r: Option<string>, x: string, task: Task)
    requires TaskFits(w, c, x, task) && Moves(w, v, c, d, id, r) && x != id
    requires Owns(w, c, id, r)
    ensures TaskFits(v, d, x, task)
  {
    hide Moves, WorkFits, FirstOk;
    match task
    case Dispatching(s, topics, On(Handling(next, hi, phase))) =>
      FirstStays(w, v, c, d, id, r, x, Spot(s, topics[0], next), phase);
    case Working(rest, work) => WorkStays(w, v, c, d, id, r, x, rest, work);
    case _ =>
  }

  lemma OtherChain(cfg: Config, pace: Pace, w: World, v: World, c: Tags, d: Tags, id: string, r: Option<string>,
                   q: string)
    requires ChainsOk(cfg, pace, w, c) && Moves(w, v, c, d, id, r) && q in d.chains && Some(q) != r
    requires HeldBy(w, id, q) ==> HeldBy(v, id, q)
    ensures q in v.hist.issued && ChainOk(cfg, pace, v, q, v.hist.issued[q], d.chains[q])
  {
    hide ChainOk, HeldBy, OthersWait, Onward;
    assert ChainOk(cfg, pace, w, q, w.hist.issued[q], c.chains[q]);
    var x := c.chains[q].worker;
    if x != id && HeldBy(w, x, q) { OtherHeld(w, v, id, x, q); }
    ChainStays(cfg, pace, w, v, q, w.hist.issued[q], c.chains[q]);
  }

  lemma SameIssued(cfg: Config, pace: Pace, w: World, v: World, c: Tags, d: Tags, id: string, r: Option<string>)
    requires ChainsOk(cfg, pace, w, c) && Moves(w, v, c, d, id, r)
    requires r.Some? ==> (r.value in d.chains <==> r.value in v.hist.issued)
    ensures d.chains.Keys == v.hist.issued.Keys
  {
    hide ChainOk, OthersWait, Onward;
  }

  lemma IdleFits(v: World, d: Tags, x: string)
    requires x in v.tasks && Idle(v.tasks[x])
    ensures TaskFits(v, d, x, v.tasks[x])
  {
  }

  /** A step that is right about its own retry id and its own task keeps all others right. */
  lemma StepKept(cfg: Config, pace: Pace, w: World, v: World, c: Tags, d: Tags, id: string, r: Option<string>)
    requires Kept(cfg, pace, w, c) && Moves(w, v, c, d, id, r) && Tagged(v, d)
    requires Owns(w, c, id, r)
    requires r.Some? ==> ChainSet(cfg, pace, v, d, r.value)
    requires id in v.tasks ==> TaskFits(v, d, id, v.tasks[id])
    requires forall q :: Some(q) != r && HeldBy(w, id, q) ==> HeldBy(v, id, q)
    ensures Kept(cfg, pace, v, d)
  {
    hide ChainOk, TaskFits, Tagged, Moves, HeldBy, Owns, Onward;
    MovesOn(w, v, c, d, id, r);
    SameIssued(cfg, pace, w, v, c, d, id, r);
    forall q | q in d.chains ensures q in v.hist.issued && ChainOk(cfg, pace, v, q, v.hist.issued[q], d.chains[q]) {
      if Some(q) != r { OtherChain(cfg, pace, w, v, c, d, id, r, q); }
    }
    forall x | x in v.tasks ensures TaskFits(v, d, x, v.tasks[x]) {
      if x != id {
        if x in w.tasks && v.tasks[x] == w.tasks[x] { TaskStays(w, v, c, d, id, r, x, w.tasks[x]); }
        else { IdleFits(v, d, x); }
      }
    }
  }

  // --- The steps that record, queue and schedule ------------------------------------------------------

  /** No attempt is recorded and no retry id moves. */
  ghost predicate Still(w: World, v: World) {
    && Onward(w, v) && v.attempts == w.attempts && v.queue == w.queue && v.hist.issued == w.hist.issued
  }

  lemma StillKept(cfg: Config, pace: Pace, w: World, v: World, c: Tags, id: string)
    requires Kept(cfg, pace, w, c) && Still(w, v) && OthersWait(w, v, id)
    requires id in v.tasks ==> TaskFits(v, c, id, v.tasks[id])
    requires forall q :: HeldBy(w, id, q) ==> HeldBy(v, id, q)
    ensures Kept(cfg, pace, v, c)
  {
    hide Kept, OthersWait, Onward, HeldBy, TaskFits;
    assert Tagged(v, c) by { KeptTagged(cfg, pace, w, c); StillTagged(w, v, c); }
    assert Moves(w, v, c, c, id, None);
    hide Moves, Tagged;
    StepKept(cfg, pace, w, v, c, c, id, None);
  }

  lemma KeptTagged(cfg: Config, pace: Pace, w: World, c: Tags)
    requires Kept(cfg, pace, w, c)
    ensures Tagged(w, c) && c.chains.Keys == w.hist.issued.Keys
  {
  }

  lemma KeptChain(cfg: Config, pace: Pace, w: World, c: Tags, r: string)
    requires Kept(cfg, pace, w, c) && r in w.hist.issued
    ensures r in c.chains && ChainOk(cfg, pace, w, r, w.hist.issued[r], c.chains[r])
  {
  }

  lemma StillTagged(w: World, v: World, c: Tags)
    requires Tagged(w, c) && v.attempts == w.attempts
    ensures Tagged(v, c)
  {
  }

  /** A dispatch recorded a first attempt. */
  lemma MadeKept(cfg: Config, pace: Pace, w: World, v: World, c: Tags, id: string, a: DeliveryAttempt)
    requires Kept(cfg, pace, w, c) && Onward(w, v) && OthersWait(w, v, id)
    requires v.attempts == w.attempts + [a] && a.attempt <= 1 && v.queue == w.queue && v.hist.issued == w.hist.issued
    requires id in w.tasks ==> !w.tasks[id].Working?
    requires id in v.tasks ==> TaskFits(v, Make(c, id, |w.attempts|), id, v.tasks[id])
    ensures Kept(cfg, pace, v, Make(c, id, |w.attempts|))
  {
    hide Kept, OthersWait, Onward, TaskFits;
    var d := Make(c, id, |w.attempts|);
    assert Tagged(v, d) by { KeptTagged(cfg, pace, w, c); MadeTagged(w, v, c, id, a); }
    assert Moves(w, v, c, d, id, None);
    hide Moves, Tagged, Make;
    StepKept(cfg, pace, w, v, c, d, id, None);
  }

  lemma MadeTagged(w: World, v: World, c: Tags, id: string, a: DeliveryAttempt)
    requires Tagged(w, c) && v.attempts == w.attempts + [a] && a.attempt <= 1
    ensures Tagged(v, Make(c, id, |w.attempts|))
  {
  }

  /** A dispatch queued its event under a fresh retry id. */
  lemma QueuedKept(cfg: Config, pace: Pace, w: World, v: World, c: Tags, id: string, r: string, spot: Spot, wait: int)
    requires Kept(cfg, pace, w, c) && Onward(w, v) && OthersWait(w, v, id) && v.attempts == w.attempts
    requires id in c.last && FirstOk(w.attempts, c, id, spot, HandOver(1)) && 1 < cfg.maxAttempts
    requires r !in w.hist.issued && r !in w.queue && r in v.queue && v.queue[r].attempt == 1
    requires v.queue == w.queue[r := v.queue[r]] && v.hist.issued == w.hist.issued[r := spot]
    requires wait == Backoff.Delay(pace.initial, pace.max, 1)
    requires id in w.tasks ==> !w.tasks[id].Working?
    requires id in v.tasks ==> TaskFits(v, Queue(c, r, c.last[id], wait), id, v.tasks[id])
    ensures Kept(cfg, pace, v, Queue(c, r, c.last[id], wait))
  {
    hide Kept, OthersWait, Onward, TaskFits, Moves, Tagged, ChainSet, FirstOk, HeldBy;
    var d := Queue(c, r, c.last[id], wait);
    KeptTagged(cfg, pace, w, c);
    QueuedTagged(w, v, c, id, r, spot, wait);
    QueuedChain(cfg, pace, w, v, c, id, r, spot, wait);
    QueuedMoves(w, v, c, id, r, spot, wait);
    assert forall q :: !HeldBy(w, id, q) by { NoHead(w, id); }
    hide Queue;
    StepKept(cfg, pace, w, v, c, d, id, Some(r));
  }

  lemma NoHead(w: World, id: string)
    requires id in w.tasks ==> !w.tasks[id].Working?
    ensures forall q :: !HeldBy(w, id, q)
  {
  }

  lemma QueuedMoves(w: World, v: World, c: Tags, id: string, r: string, spot: Spot, wait: int)
    requires Onward(w, v) && OthersWait(w, v, id) && id in c.last && FirstOk(w.attempts, c, id, spot, HandOver(1))
    requires r in v.queue && v.queue == w.queue[r := v.queue[r]] && v.hist.issued == w.hist.issued[r := spot]
    ensures Moves(w, v, c, Queue(c, r, c.last[id], wait), id, Some(r))
  {
    hide Onward, OthersWait;
  }

  lemma QueuedChain(cfg: Config, pace: Pace, w: World, v: World, c: Tags, id: string, r: string, spot: Spot, wait: int)
    requires id in c.last && FirstOk(w.attempts, c, id, spot, HandOver(1)) && 1 < cfg.maxAttempts
        && v.attempts == w.attempts
    requires r in v.queue && v.queue[r].attempt == 1 && v.hist.issued == w.hist.issued[r := spot]
    requires wait == Backoff.Delay(pace.initial, pace.max, 1)
    ensures ChainSet(cfg, pace, v, Queue(c, r, c.last[id], wait), r)
  {
    hide GivenUp, HeldBy, Backoff.Delay;
    assert Backoff.Total(pace.initial, pace.max, 1) == 0;
  }

  lemma QueuedTagged(w: World, v: World, c: Tags, id: string, r: string, spot: Spot, wait: int)
    requires Tagged(w, c) && v.attempts == w.attempts && r !in c.chains
    requires id in c.last && FirstOk(w.attempts, c, id, spot, HandOver(1))
    ensures Tagged(v, Queue(c, r, c.last[id], wait))
  {
    var i := c.last[id];
    var d := Queue(c, r, i, wait);
    assert d.chains[r].tries[0] == i;
    forall q, j | q in d.chains && 0 <= j < |d.chains[q].tries|
      ensures d.chains[q].tries[j] in d.whose && d.whose[d.chains[q].tries[j]] == q
    {
      if q != r { assert c.chains[q].tries[j] in c.whose; }
    }
  }

  /** A worker recorded one more attempt of the item at its head. */
  lemma TriedKept(cfg: Config, pace: Pace, w: World, v: World, c: Tags, id: string, rest: seq<RetryItem>,
                  n: nat, ack: bool, retry: bool, a: DeliveryAttempt, p: Phase)
    requires Kept(cfg, pace, w, c) && Onward(w, v) && OthersWait(w, v, id) && rest != []
    requires id in w.tasks && w.tasks[id] == Working(rest, Redelivering(Sent(n, ack, retry)))
    requires id in v.tasks && v.tasks[id] == Working(rest, Redelivering(p))
    requires v.attempts == w.attempts + [a] && v.queue == w.queue && v.hist.issued == w.hist.issued
    requires a.attempt == n <= cfg.maxAttempts && rest[0].retryId in w.hist.issued
        && At(a, w.hist.issued[rest[0].retryId])
    requires p == if a.status == Retry then HandOver(n) else if a.status == Delivered then Acknowledge else BuryMark
    ensures rest[0].retryId in c.chains && Kept(cfg, pace, v, Try(c, rest[0].retryId, |w.attempts|))
  {
    hide Kept, OthersWait, Onward, TaskFits, Moves, Tagged, ChainSet, ChainOk, WorkFits, HeldBy;
    var r := rest[0].retryId;
    KeptTask(cfg, pace, w, c, id);
    KeptTagged(cfg, pace, w, c);
    KeptChain(cfg, pace, w, c, r);
    WorkHead(w, c, id, rest, Redelivering(Sent(n, ack, retry)));
    assert HeldBy(v, id, r) by { HeadHeld(v, id, rest); }
    TriedTagged(w, v, c, r, a);
    TriedChain(cfg, pace, w, v, c, r, a, id);
    TriedFits(w, v, c, id, rest, n, ack, retry, a, p);
    TriedMoves(w, v, c, id, r, a);
    var d := Try(c, r, |w.attempts|);
    WorkTask(v, d, id, rest, Redelivering(p));
    hide Try;
    assert forall q :: Some(q) != Some(r) ==> !HeldBy(w, id, q) by { OneHead(w, id, rest); }
    StepKept(cfg, pace, w, v, c, d, id, Some(r));
  }

  lemma TriedTagged(w: World, v: World, c: Tags, r: string, a: DeliveryAttempt)
    requires Tagged(w, c) && v.attempts == w.attempts + [a] && r in c.chains
    ensures Tagged(v, Try(c, r, |w.attempts|))
  {
    var d := Try(c, r, |w.attempts|);
    var k := |c.chains[r].tries|;
    assert d.chains[r].tries[k] == |w.attempts|;
    forall q, j | q in d.chains && 0 <= j < |d.chains[q].tries|
      ensures d.chains[q].tries[j] in d.whose && d.whose[d.chains[q].tries[j]] == q
    {
      if q != r || j < k { assert c.chains[q].tries[j] in c.whose && c.whose[c.chains[q].tries[j]] == q; }
    }
    forall i | i in d.whose ensures i < |v.attempts| && d.whose[i] in d.chains && i in d.chains[d.whose[i]].tries {
      if i != |w.attempts| { assert i in c.chains[c.whose[i]].tries; }
    }
  }

  lemma KeptTask(cfg: Config, pace: Pace, w: World, c: Tags, id: string)
    requires Kept(cfg, pace, w, c) && id in w.tasks
    ensures TaskFits(w, c, id, w.tasks[id])
    ensures w.tasks[id].Working? ==> WorkFits(w, c, id, w.tasks[id].rest, w.tasks[id].work)
  {
    hide ChainsOk, Tagged, WorkFits, FirstOk;
  }

  lemma WorkTask(w: World, c: Tags, id: string, rest: seq<RetryItem>, work: WorkStage)
    requires id in w.tasks && w.tasks[id] == Working(rest, work) && WorkFits(w, c, id, rest, work)
    ensures TaskFits(w, c, id, w.tasks[id])
  {
    hide WorkFits;
  }

  /** The item at the head is in the queue, claimed by this worker, and its chain is where the worker is. */
  lemma WorkHead(w: World, c: Tags, id: string, rest: seq<RetryItem>, work: WorkStage)
    requires WorkFits(w, c, id, rest, work) && rest != []
    ensures var r := rest[0].retryId;
      && r in w.queue && w.queue[r] == rest[0] && r in c.chains && c.chains[r].worker == id && r in w.hist.issued
      && Recorded(w.attempts, c.chains[r].tries)
      && HeadOk(w.attempts, GivenUp(w, w.hist.issued[r]), c.chains[r], work)
  {
    assert Claimed(w, c, id, rest[0]);
  }

  lemma HeadHeld(w: World, id: string, rest: seq<RetryItem>)
    requires id in w.tasks && w.tasks[id].Working? && w.tasks[id].rest == rest && rest != []
    ensures HeldBy(w, id, rest[0].retryId)
  {
  }

  lemma OneHead(w: World, id: string, rest: seq<RetryItem>)
    requires id in w.tasks && w.tasks[id].Working? && w.tasks[id].rest == rest && rest != []
    ensures forall q :: q != rest[0].retryId ==> !HeldBy(w, id, q)
  {
  }

  lemma TriedMoves(w: World, v: World, c: Tags, id: string, r: string, a: DeliveryAttempt)
    requires Onward(w, v) && OthersWait(w, v, id) && r in c.chains
    requires v.attempts == w.attempts + [a] && v.queue == w.queue && v.hist.issued == w.hist.issued
    ensures Moves(w, v, c, Try(c, r, |w.attempts|), id, Some(r))
  {
    hide Onward, OthersWait;
  }

  lemma TriedChain(cfg: Config, pace: Pace, w: World, v: World, c: Tags, r: string, a: DeliveryAttempt, id: string)
    requires r in c.chains && r in w.hist.issued && ChainOk(cfg, pace, w, r, w.hist.issued[r], c.chains[r])
    requires Pending(c.chains[r]) && c.chains[r].worker == id && r in v.queue && HeldBy(v, id, r)
    requires v.attempts == w.attempts + [a] && At(a, w.hist.issued[r]) && v.hist.issued == w.hist.issued
    requires a.attempt == |c.chains[r].tries| + 1 <= cfg.maxAttempts
    ensures ChainSet(cfg, pace, v, Try(c, r, |w.attempts|), r)
  {
    hide GivenUp, HeldBy, Backoff.Total;
    var ch := c.chains[r];
    var tries := ch.tries + [|w.attempts|];
    forall i | 0 <= i < |ch.tries| ensures v.attempts[tries[i]] == w.attempts[ch.tries[i]] {}
  }

  lemma TriedFits(w: World, v: World, c: Tags, id: string, rest: seq<RetryItem>, n: nat, ack: bool, retry: bool,
                  a: DeliveryAttempt, p: Phase)
    requires rest != [] && WorkFits(w, c, id, rest, Redelivering(Sent(n, ack, retry)))
    requires v.attempts == w.attempts + [a] && v.queue == w.queue && v.hist.issued == w.hist.issued
    requires p == if a.status == Retry then HandOver(n) else if a.status == Delivered then Acknowledge else BuryMark
    ensures WorkFits(v, Try(c, rest[0].retryId, |w.attempts|), id, rest, Redelivering(p))
  {
    hide GivenUp;
    var d := Try(c, rest[0].retryId, |w.attempts|);
    forall i | 0 <= i < |rest| ensures Claimed(v, d, id, rest[i]) {
      assert Claimed(w, c, id, rest[i]);
    }
  }

  /** The worker turns to the next item it claimed. */
  lemma NextFits(w: World, v: World, c: Tags, d: Tags, id: string, rest: seq<RetryItem>, work: WorkStage)
    requires WorkFits(w, c, id, rest, work) && rest != []
    requires forall q :: q != rest[0].retryId ==>
               && (q in w.queue ==> q in v.queue && v.queue[q] == w.queue[q])
               && (q in c.chains ==> q in d.chains && d.chains[q] == c.chains[q])
    requires v.attempts == w.attempts && v.hist.issued == w.hist.issued
    requires forall q :: q in c.chains ==> q in w.hist.issued && Recorded(w.attempts, c.chains[q].tries)
    ensures WorkFits(v, d, id, rest[1..], Reviewing)
  {
    hide GivenUp, Recorded, LastStatus;
    var next := rest[1..];
    forall i | 0 <= i < |next| ensures Claimed(v, d, id, next[i]) && Pending(d.chains[next[i].retryId]) {
      assert next[i] == rest[i + 1] && Claimed(w, c, id, rest[i + 1]) && rest[i + 1].retryId != rest[0].retryId;
    }
    forall i, j | 0 <= i < j < |next| ensures next[i].retryId != next[j].retryId {
      assert next[i] == rest[i + 1] && next[j] == rest[j + 1];
    }
  }

  lemma KeptRecorded(cfg: Config, pace: Pace, w: World, c: Tags)
    requires Kept(cfg, pace, w, c)
    ensures forall q :: q in c.chains ==> q in w.hist.issued && Recorded(w.attempts, c.chains[q].tries)
  {
    hide Numbered, Recorded;
    forall q | q in c.chains ensures q in w.hist.issued && Recorded(w.attempts, c.chains[q].tries) {
      assert ChainOk(cfg, pace, w, q, w.hist.issued[q], c.chains[q]);
      NumberedRecorded(cfg, w.attempts, w.hist.issued[q], c.chains[q].tries);
    }
  }

  /** A worker put the item at its head off. */
  lemma WaitedKept(cfg: Config, pace: Pace, w: World, v: World, c: Tags, id: string, rest: seq<RetryItem>, n: nat,
                   wait: int)
    requires Kept(cfg, pace, w, c) && Onward(w, v) && OthersWait(w, v, id) && rest != []
    requires id in w.tasks && w.tasks[id] == Working(rest, Redelivering(HandOver(n)))
    requires id in v.tasks && v.tasks[id] == Working(rest[1..], Reviewing)
    requires v.attempts == w.attempts && v.hist.issued == w.hist.issued && 1 <= n < cfg.maxAttempts
    requires var r := rest[0].retryId; r in v.queue && v.queue == w.queue[r := v.queue[r]] && v.queue[r].attempt == n
    requires wait == Backoff.Delay(pace.initial, pace.max, n)
    ensures rest[0].retryId in c.chains && Kept(cfg, pace, v, Wait(c, rest[0].retryId, wait))
  {
    hide Kept, OthersWait, Onward, TaskFits, Moves, Tagged, ChainSet, ChainOk, WorkFits, HeldBy, Recorded, HeadOk,
        GivenUp;
    var r := rest[0].retryId;
    KeptTask(cfg, pace, w, c, id);
    KeptTagged(cfg, pace, w, c);
    KeptRecorded(cfg, pace, w, c);
    WorkHead(w, c, id, rest, Redelivering(HandOver(n)));
    KeptChain(cfg, pace, w, c, r);
    var d := Wait(c, r, wait);
    WaitedTagged(w, v, c, r, wait);
    WaitedChain(cfg, pace, w, v, c, r, n, wait);
    WaitedMoves(w, v, c, id, r, wait);
    NextFits(w, v, c, d, id, rest, Redelivering(HandOver(n)));
    WorkTask(v, d, id, rest[1..], Reviewing);
    assert forall q :: Some(q) != Some(r) ==> !HeldBy(w, id, q) by { OneHead(w, id, rest); }
    hide Wait;
    StepKept(cfg, pace, w, v, c, d, id, Some(r));
  }

  lemma WaitedTagged(w: World, v: World, c: Tags, r: string, wait: int)
    requires Tagged(w, c) && v.attempts == w.attempts && r in c.chains
    ensures Tagged(v, Wait(c, r, wait))
  {
    var d := Wait(c, r, wait);
    assert forall q :: q in d.chains ==> q in c.chains && d.chains[q].tries == c.chains[q].tries;
  }

  lemma WaitedChain(cfg: Config, pace: Pace, w: World, v: World, c: Tags, r: string, n: nat, wait: int)
    requires r in c.chains && r in w.hist.issued && ChainOk(cfg, pace, w, r, w.hist.issued[r], c.chains[r])
    requires Recorded(w.attempts, c.chains[r].tries)
    requires HeadOk(w.attempts, GivenUp(w, w.hist.issued[r]), c.chains[r], Redelivering(HandOver(n)))
    requires v.attempts == w.attempts && v.hist.issued == w.hist.issued && 1 <= n < cfg.maxAttempts
    requires r in v.queue && v.queue[r].attempt == n && wait == Backoff.Delay(pace.initial, pace.max, n)
    ensures ChainSet(cfg, pace, v, Wait(c, r, wait), r)
  {
    hide GivenUp, HeldBy, Backoff.Delay, Numbered;
  }

  lemma WaitedMoves(w: World, v: World, c: Tags, id: string, r: string, wait: int)
    requires Onward(w, v) && OthersWait(w, v, id) && r in c.chains && v.hist.issued == w.hist.issued
    requires r in v.queue && v.queue == w.queue[r := v.queue[r]]
    ensures Moves(w, v, c, Wait(c, r, wait), id, Some(r))
  {
    hide Onward, OthersWait;
  }

  /** A worker completed the item at its head. */
  lemma DoneKept(cfg: Config, pace: Pace, w: World, v: World, c: Tags, id: string, rest: seq<RetryItem>)
    requires Kept(cfg, pace, w, c) && Onward(w, v) && OthersWait(w, v, id) && rest != []
    requires id in w.tasks && w.tasks[id] == Working(rest, Completing)
    requires id in v.tasks && v.tasks[id] == Working(rest[1..], Reviewing)
    requires v.attempts == w.attempts && v.hist.issued == w.hist.issued && v.queue == w.queue - {rest[0].retryId}
    ensures Kept(cfg, pace, v, c)
  {
    hide Kept, OthersWait, Onward, TaskFits, Moves, Tagged, ChainSet, ChainOk, WorkFits, HeldBy, Recorded, HeadOk,
        GivenUp;
    var r := rest[0].retryId;
    KeptTask(cfg, pace, w, c, id);
    KeptTagged(cfg, pace, w, c);
    KeptRecorded(cfg, pace, w, c);
    WorkHead(w, c, id, rest, Completing);
    KeptChain(cfg, pace, w, c, r);
    StillTagged(w, v, c);
    DoneChain(cfg, pace, w, v, c, r);
    DoneMoves(w, v, c, id, r);
    NextFits(w, v, c, c, id, rest, Completing);
    WorkTask(v, c, id, rest[1..], Reviewing);
    assert forall q :: Some(q) != Some(r) ==> !HeldBy(w, id, q) by { OneHead(w, id, rest); }
    StepKept(cfg, pace, w, v, c, c, id, Some(r));
  }

  lemma DoneChain(cfg: Config, pace: Pace, w: World, v: World, c: Tags, r: string)
    requires r in c.chains && r in w.hist.issued && ChainOk(cfg, pace, w, r, w.hist.issued[r], c.chains[r])
    requires Onward(w, v) && Recorded(w.attempts, c.chains[r].tries)
    requires HeadOk(w.attempts, GivenUp(w, w.hist.issued[r]), c.chains[r], Completing)
    requires v.attempts == w.attempts && v.hist.issued == w.hist.issued && r !in v.queue
    ensures ChainSet(cfg, pace, v, c, r)
  {
    hide GivenUp, HeldBy, Numbered, Onward;
    if GivenUp(w, w.hist.issued[r]) { GivenUpStays(w, v, w.hist.issued[r]); }
  }

  lemma DoneMoves(w: World, v: World, c: Tags, id: string, r: string)
    requires Onward(w, v) && OthersWait(w, v, id) && v.queue == w.queue - {r} && v.hist.issued == w.hist.issued
    ensures Moves(w, v, c, c, id, Some(r))
  {
    hide Onward, OthersWait;
  }

  // --- Claiming ---------------------------------------------------------------------------------------

  /** A claim takes due items over: they stay queued, leased until later. */
  ghost predicate Takes(w: World, v: World, id: string, claimed: seq<string>, items: seq<RetryItem>) {
    && id !in w.tasks && v.tasks == w.tasks[id := Working(items, Reviewing)]
    && v.attempts == w.attempts && v.hist.issued == w.hist.issued && v.queue.Keys == w.queue.Keys
    && (forall q :: q in w.queue && q !in claimed ==> v.queue[q] == w.queue[q])
    && (forall q :: q in w.queue && q in claimed ==>
          v.queue[q] == w.queue[q].(nextRetryAt := v.queue[q].nextRetryAt) && w.queue[q].nextRetryAt <= w.clock)
    && |items| == |claimed|
    && (forall i :: 0 <= i < |claimed| ==>
          claimed[i] in v.queue && items[i] == v.queue[claimed[i]] && items[i].retryId == claimed[i])
    && (forall i, j :: 0 <= i < j < |claimed| ==> claimed[i] != claimed[j])
  }

  /** What a worker holds is not due while it is on time. */
  lemma HeldNotDue(w: World, c: Tags, x: string, i: nat)
    requires OnTime(w) && x in w.tasks && w.tasks[x].Working? && i < |w.tasks[x].rest|
    requires Claimed(w, c, x, w.tasks[x].rest[i])
    ensures var q := w.tasks[x].rest[i].retryId; q in w.queue && w.clock < w.queue[q].nextRetryAt
  {
  }

  /** So a due item waits for its next attempt. */
  lemma DuePending(cfg: Config, pace: Pace, w: World, c: Tags, q: string)
    requires Kept(cfg, pace, w, c) && OnTime(w) && q in w.queue && w.queue[q].nextRetryAt <= w.clock
        && q in w.hist.issued
    ensures q in c.chains && Pending(c.chains[q])
  {
    hide Kept, OnTime, TaskFits, WorkFits, Numbered, GivenUp, LastStatus, Backoff.Total;
    KeptChain(cfg, pace, w, c, q);
    var x := c.chains[q].worker;
    if HeldBy(w, x, q) {
      KeptTask(cfg, pace, w, c, x);
      assert Claimed(w, c, x, w.tasks[x].rest[0]) by { WorkClaims(w, c, x, w.tasks[x].rest, w.tasks[x].work); }
      HeldNotDue(w, c, x, 0);
    }
  }

  lemma WorkClaims(w: World, c: Tags, id: string, rest: seq<RetryItem>, work: WorkStage)
    requires WorkFits(w, c, id, rest, work)
    ensures forall i :: 0 <= i < |rest| ==> Claimed(w, c, id, rest[i])
  {
  }

  /** What a claim leaves of one item. */
  lemma TakesAt(w: World, v: World, id: string, claimed: seq<string>, items: seq<RetryItem>, x: string, q: string)
    requires Takes(w, v, id, claimed, items)
    ensures v.attempts == w.attempts && v.hist.issued == w.hist.issued && (q in v.queue <==> q in w.queue)
    ensures q in w.queue ==> v.queue[q].attempt == w.queue[q].attempt
    ensures q in w.queue && q in claimed ==> w.queue[q].nextRetryAt <= w.clock
    ensures HeldBy(w, x, q) ==> HeldBy(v, x, q)
  {
  }

  lemma TakenChain(cfg: Config, pace: Pace, w: World, v: World, c: Tags, id: string, claimed: seq<string>,
                   items: seq<RetryItem>, q: string)
    requires Kept(cfg, pace, w, c) && OnTime(w) && Onward(w, v) && Takes(w, v, id, claimed, items) && q in w.hist.issued
    ensures var d := Claim(c, claimed, id);
      q in d.chains && ChainOk(cfg, pace, v, q, v.hist.issued[q], d.chains[q])
  {
    hide Kept, OnTime, Onward, Numbered, GivenUp, LastStatus, Backoff.Total, Takes, HeldBy;
    KeptChain(cfg, pace, w, c, q);
    TakesAt(w, v, id, claimed, items, c.chains[q].worker, q);
    var spot := w.hist.issued[q];
    if GivenUp(w, spot) { GivenUpStays(w, v, spot); }
    if q in claimed && q in w.queue { DuePending(cfg, pace, w, c, q); }
  }

  lemma TakenTask(w: World, v: World, c: Tags, id: string, claimed: seq<string>, items: seq<RetryItem>, x: string)
    requires x in w.tasks && TaskFits(w, c, x, w.tasks[x]) && OnTime(w) && Onward(w, v)
        && Takes(w, v, id, claimed, items)
    ensures x in v.tasks && TaskFits(v, Claim(c, claimed, id), x, v.tasks[x])
  {
    hide OnTime, Onward, GivenUp, Recorded, LastStatus;
    var d := Claim(c, claimed, id);
    if w.tasks[x].Working? {
      var Working(rest, work) := w.tasks[x];
      forall i | 0 <= i < |rest|
        ensures var q := rest[i].retryId; Claimed(v, d, x, rest[i]) && q in c.chains && d.chains[q] == c.chains[q]
      {
        assert Claimed(w, c, x, rest[i]);
        HeldNotDue(w, c, x, i);
      }
      if rest != [] && GivenUp(w, w.hist.issued[rest[0].retryId]) {
        GivenUpStays(w, v, w.hist.issued[rest[0].retryId]);
      }
    }
  }

  lemma NewItem(cfg: Config, pace: Pace, w: World, v: World, c: Tags, id: string, claimed: seq<string>,
                items: seq<RetryItem>, i: nat)
    requires Kept(cfg, pace, w, c) && OnTime(w) && Takes(w, v, id, claimed, items) && i < |items|
    requires forall q :: q in w.queue ==> q in w.hist.issued
    ensures var d, q := Claim(c, claimed, id), items[i].retryId;
      && Claimed(v, d, id, items[i]) && q in d.chains && Pending(d.chains[q])
      && q in v.hist.issued && Recorded(v.attempts, d.chains[q].tries)
  {
    hide Kept, OnTime, Recorded;
    assert claimed[i] in claimed;
    KeptRecorded(cfg, pace, w, c);
    DuePending(cfg, pace, w, c, claimed[i]);
  }

  lemma StartFits(v: World, d: Tags, id: string, items: seq<RetryItem>)
    requires forall i :: 0 <= i < |items| ==>
      var q := items[i].retryId;
      && Claimed(v, d, id, items[i]) && q in d.chains && Pending(d.chains[q])
      && q in v.hist.issued && Recorded(v.attempts, d.chains[q].tries)
    requires forall i, j :: 0 <= i < j < |items| ==> items[i].retryId != items[j].retryId
    ensures WorkFits(v, d, id, items, Reviewing)
  {
    hide Recorded, GivenUp, LastStatus, Claimed, Pending;
  }

  lemma NewTask(cfg: Config, pace: Pace, w: World, v: World, c: Tags, id: string, claimed: seq<string>,
                items: seq<RetryItem>)
    requires Kept(cfg, pace, w, c) && OnTime(w) && Takes(w, v, id, claimed, items)
    requires forall q :: q in w.queue ==> q in w.hist.issued
    ensures TaskFits(v, Claim(c, claimed, id), id, v.tasks[id])
  {
    hide Kept, OnTime, Recorded, GivenUp, LastStatus, Claim, Claimed, Pending, WorkFits;
    var d := Claim(c, claimed, id);
    forall i | 0 <= i < |items|
      ensures var q := items[i].retryId;
        && Claimed(v, d, id, items[i]) && q in d.chains && Pending(d.chains[q])
        && q in v.hist.issued && Recorded(v.attempts, d.chains[q].tries)
    {
      NewItem(cfg, pace, w, v, c, id, claimed, items, i);
    }
    StartFits(v, d, id, items);
    WorkTask(v, d, id, items, Reviewing);
  }

  lemma TakenTagged(w: World, v: World, c: Tags, id: string, claimed: seq<string>)
    requires Tagged(w, c) && v.attempts == w.attempts
    ensures Tagged(v, Claim(c, claimed, id))
  {
    var d := Claim(c, claimed, id);
    assert forall q :: q in d.chains ==> q in c.chains && d.chains[q].tries == c.chains[q].tries;
  }

  lemma TakenFrame(w: World, v: World, id: string, claimed: seq<string>, items: seq<RetryItem>)
    requires Takes(w, v, id, claimed, items)
    ensures v.tasks == w.tasks[id := Working(items, Reviewing)] && id !in w.tasks
    ensures v.attempts == w.attempts && v.hist.issued == w.hist.issued
  {
  }

  lemma KeptFrom(cfg: Config, pace: Pace, w: World, c: Tags)
    requires c.chains.Keys == w.hist.issued.Keys && Tagged(w, c)
    requires forall r :: r in c.chains ==> ChainOk(cfg, pace, w, r, w.hist.issued[r], c.chains[r])
    requires forall id :: id in w.tasks ==> TaskFits(w, c, id, w.tasks[id])
    ensures Kept(cfg, pace, w, c)
  {
    hide Tagged, TaskFits, ChainOk;
  }

  lemma TakenKept(cfg: Config, pace: Pace, w: World, v: World, c: Tags, id: string, claimed: seq<string>,
                  items: seq<RetryItem>)
    requires Kept(cfg, pace, w, c) && OnTime(w) && Onward(w, v) && Takes(w, v, id, claimed, items)
    requires forall q :: q in w.queue ==> q in w.hist.issued
    ensures Kept(cfg, pace, v, Claim(c, claimed, id))
  {
    hide Kept, Tagged, TaskFits, ChainOk, OnTime, Onward, Takes;
    var d := Claim(c, claimed, id);
    KeptTagged(cfg, pace, w, c);
    TakenFrame(w, v, id, claimed, items);
    TakenTagged(w, v, c, id, claimed);
    NewTask(cfg, pace, w, v, c, id, claimed, items);
    forall q | q in d.chains ensures q in v.hist.issued && ChainOk(cfg, pace, v, q, v.hist.issued[q], d.chains[q]) {
      TakenChain(cfg, pace, w, v, c, id, claimed, items, q);
    }
    forall x | x in v.tasks ensures TaskFits(v, d, x, v.tasks[x]) {
      if x != id {
        KeptTask(cfg, pace, w, c, x);
        TakenTask(w, v, c, id, claimed, items, x);
      }
    }
    KeptFrom(cfg, pace, v, d);
  }

  // --- Every event ------------------------------------------------------------------------------------

  /** No task moved either. */
  ghost predicate Bare(w: World, v: World) { Still(w, v) && v.tasks == w.tasks }

  lemma StillWork(w: World, v: World, c: Tags, x: string, rest: seq<RetryItem>, work: WorkStage)
    requires Still(w, v) && WorkFits(w, c, x, rest, work)
    ensures WorkFits(v, c, x, rest, work)
  {
    hide Onward, GivenUp;
    forall i | 0 <= i < |rest| ensures Claimed(v, c, x, rest[i]) {
      assert Claimed(w, c, x, rest[i]);
    }
    if rest != [] && GivenUp(w, w.hist.issued[rest[0].retryId]) { GivenUpStays(w, v, w.hist.issued[rest[0].retryId]); }
  }

  lemma StillTask(w: World, v: World, c: Tags, x: string, task: Task)
    requires Still(w, v) && TaskFits(w, c, x, task)
    ensures TaskFits(v, c, x, task)
  {
    hide Onward, WorkFits;
    if task.Working? { StillWork(w, v, c, x, task.rest, task.work); }
  }

  lemma BareKept(cfg: Config, pace: Pace, w: World, v: World, c: Tags)
    requires Kept(cfg, pace, w, c) && Bare(w, v)
    ensures Kept(cfg, pace, v, c)
  {
    hide Kept, TaskFits, Onward;
    var id := "";
    if id in w.tasks {
      KeptTask(cfg, pace, w, c, id);
      StillTask(w, v, c, id, w.tasks[id]);
    }
    StillKept(cfg, pace, w, v, c, id);
  }

  lemma StillSet(w: World, v: World, id: string, task: Task)
    requires Bare(w, v)
    ensures var x := SetTask(v, id, task);
      Still(w, x) && OthersWait(w, x, id) && Still(v, x) && id in x.tasks && x.tasks[id] == task
    ensures var x := EndTask(v, id); Still(w, x) && OthersWait(w, x, id) && id !in x.tasks
  {
  }

  /** One task moves on, or a new one begins. */
  lemma MoveKept(cfg: Config, pace: Pace, w: World, v: World, c: Tags, id: string, task: Task)
    requires Kept(cfg, pace, w, c) && Bare(w, v) && TaskFits(v, c, id, task)
    requires id in w.tasks && w.tasks[id].Working? && w.tasks[id].rest != [] ==>
               task.Working? && task.rest == w.tasks[id].rest
    ensures Kept(cfg, pace, SetTask(v, id, task), c)
  {
    hide Kept, TaskFits, Bare, Still, OthersWait, SetTask, EndTask;
    var x := SetTask(v, id, task);
    StillSet(w, v, id, task);
    StillTask(v, x, c, id, task);
    StillKept(cfg, pace, w, x, c, id);
  }

  lemma EndKept(cfg: Config, pace: Pace, w: World, v: World, c: Tags, id: string)
    requires Kept(cfg, pace, w, c) && Bare(w, v)
    requires id in w.tasks && w.tasks[id].Working? ==> w.tasks[id].rest == []
    ensures Kept(cfg, pace, EndTask(v, id), c)
  {
    hide Kept, TaskFits, Bare, Still, OthersWait, SetTask, EndTask;
    StillSet(w, v, id, Publishing("", 0));
    StillKept(cfg, pace, w, EndTask(v, id), c, id);
  }

  /** Status, lease, cursors, marks, what the endpoints hold, locks and most of the history do not matter here. */
  lemma BareIs(w: World, v: World)
    requires v.attempts == w.attempts && v.queue == w.queue && v.hist.issued == w.hist.issued && v.tasks == w.tasks
    requires v.logs == w.logs && v.clock >= w.clock && w.hist.dropped <= v.hist.dropped
    ensures Bare(w, v)
  {
  }

  lemma IdleTask(w: World, c: Tags, id: string, task: Task)
    requires Idle(task)
    ensures TaskFits(w, c, id, task)
  {
  }

  lemma PublishChains(cfg: Config, pace: Pace, w: World, e: Event, c: Tags)
    requires Kept(cfg, pace, w, c) && Enabled(cfg, w, e) && e.Publish?
    ensures Kept(cfg, pace, Apply(cfg, w, e), Note(w, e, c))
  {
    var log := w.logs[e.topic];
    var record := EventRecord(e.eventId, e.topic, |log.recs|, e.content, w.clock);
    var v := w.(logs := w.logs[e.topic := log.(recs := log.recs + [record])]);
    hide Kept, Fresh, TaskFits, SetTask;
    assert Bare(w, v);
    hide Bare;
    IdleTask(v, c, e.task, Publishing(e.topic, |log.recs|));
    MoveKept(cfg, pace, w, v, c, e.task, Publishing(e.topic, |log.recs|));
  }

  lemma ExpireBare(w: World, s: string)
    requires s in w.subs
    ensures Bare(w, ExpireIfDue(w, s)) && s in ExpireIfDue(w, s).subs
  {
    hide Bare;
    BareIs(w, ExpireIfDue(w, s));
  }

  lemma AckChains(cfg: Config, pace: Pace, w: World, e: Event, c: Tags)
    requires Kept(cfg, pace, w, c) && e.StartAck? && e.task !in w.tasks && e.id in w.subs && Enabled(cfg, w, e)
    ensures Kept(cfg, pace, Apply(cfg, w, e), Note(w, e, c))
  {
    hide Enabled, Kept, TaskFits, SetTask, Split, Bare, ExpireIfDue;
    var w1 := ExpireIfDue(w, e.id);
    ExpireBare(w, e.id);
    BareKept(cfg, pace, w, w1, c);
    if Split(e.cursor).Success? {
      var (t, o) := Split(e.cursor).value;
      BareIs(w1, w1);
      IdleTask(w1, c, e.task, Acking(e.id, t, o, e.cursor, AckCursor));
      assert e.task !in w1.tasks by { BareTasks(w, w1); }
      MoveKept(cfg, pace, w1, w1, c, e.task, Acking(e.id, t, o, e.cursor, AckCursor));
    }
  }

  lemma BareTasks(w: World, v: World)
    requires Bare(w, v)
    ensures v.tasks == w.tasks
  {
  }

  lemma QueueIssued(cfg: Config, w: World)
    requires Invariant(cfg, w)
    ensures forall q :: q in w.queue ==> w.queue[q].retryId == q && q in w.hist.issued
  {
    forall q | q in w.queue ensures w.queue[q].retryId == q && q in w.hist.issued {
      ItemIssued(cfg, w, w.queue[q]);
    }
    hide ItemOk, LogsOk, SubsOk, NothingLost, AttemptOk, TaskOk;
  }

  lemma LeaseTakes(w: World, id: string, claimed: seq<string>, leased: int, items: seq<RetryItem>)
    requires id !in w.tasks && (forall i, j :: 0 <= i < j < |claimed| ==> claimed[i] != claimed[j])
    requires forall q :: q in claimed ==> q in w.queue && w.queue[q].nextRetryAt <= w.clock
    requires forall q :: q in w.queue ==> w.queue[q].retryId == q
    requires |items| == |claimed| && forall i :: 0 <= i < |claimed| ==>
        items[i] == w.queue[claimed[i]].(nextRetryAt := leased)
    ensures var v := SetTask(Leased(w, claimed, leased), id, Working(items, Reviewing));
      Takes(w, v, id, claimed, items) && Onward(w, v)
  {
    var v := Leased(w, claimed, leased);
    assert v.queue.Keys == w.queue.Keys;
    forall i | 0 <= i < |claimed| ensures claimed[i] in v.queue && items[i] == v.queue[claimed[i]] {
      assert claimed[i] in claimed;
    }
  }

  lemma ClaimChains(cfg: Config, pace: Pace, w: World, e: Event, c: Tags)
    requires Invariant(cfg, w) && Kept(cfg, pace, w, c) && Enabled(cfg, w, e) && e.StartWork? && OnTime(w)
    ensures Kept(cfg, pace, Apply(cfg, w, e), Note(w, e, c))
  {
    hide Invariant, Kept, OnTime, Onward, Takes, Claim, Leased, SetTask;
    QueueIssued(cfg, w);
    var items := seq(|e.claimed|, i requires 0 <= i < |e.claimed| => w.queue[e.claimed[i]].(nextRetryAt := e.leased));
    LeaseTakes(w, e.task, e.claimed, e.leased, items);
    TakenKept(cfg, pace, w, Apply(cfg, w, e), c, e.task, e.claimed, items);
  }

  lemma ItemIssued(cfg: Config, w: World, item: RetryItem)
    requires ItemOk(cfg, w, item)
    ensures item.retryId in w.hist.issued && w.hist.issued[item.retryId] == Spot(item.sub, item.topic, item.offset)
    ensures item.sub in w.subs && Logged(w, item.topic, item.offset)
  {
    hide AccountedUpTo;
  }

  /** Every event other than a step of a call. */
  lemma BareEvent(cfg: Config, w: World, e: Event)
    requires Enabled(cfg, w, e) && (e.Tick? || e.Renew? || e.Delete? || e.Lapse?)
    ensures Bare(w, Apply(cfg, w, e))
  {
    hide Bare, RunWork, RunDispatch, RunPublish, RunSubscribe, RunAck, Fresh, Fanned, Blocked, Split, Leased,
      ExpireIfDue, SetTask;
    match e
    case Tick(to) => BareIs(w, w.(clock := to));
    case Renew(id, leaseUntil) =>
      BareIs(w, w.(subs := w.subs[id := w.subs[id].(leaseUntil := leaseUntil, status := Active)]));
    case Delete(id) => BareIs(w, SetStatus(w, id, Deleted));
    case Lapse(id) => ExpireBare(w, id);
    case _ =>
  }

  lemma OtherChains(cfg: Config, pace: Pace, w: World, e: Event, c: Tags)
    requires Invariant(cfg, w) && Kept(cfg, pace, w, c) && Enabled(cfg, w, e) && !e.Run? && !e.Crash? && OnTime(w)
    ensures Kept(cfg, pace, Apply(cfg, w, e), Note(w, e, c))
  {
    hide Invariant, Kept, OnTime, TaskFits, SetTask, Bare, Claim, ExpireIfDue, Fresh, Split, Leased, SetStatus;
    match e
    case Tick(to) =>
      BareEvent(cfg, w, e);
      BareKept(cfg, pace, w, Apply(cfg, w, e), c);
    case Publish(_, _, _, _) => PublishChains(cfg, pace, w, e, c);
    case Subscribe(task, id, sub, from) =>
      BareIs(w, w);
      IdleTask(w, c, task, Subscribing(id, sub, from, sub.topics, map[], map[]));
      MoveKept(cfg, pace, w, w, c, task, Subscribing(id, sub, from, sub.topics, map[], map[]));
    case StartDispatch(task, id, topics) =>
      BareIs(w, w);
      IdleTask(w, c, task, Dispatching(id, topics, Checking));
      MoveKept(cfg, pace, w, w, c, task, Dispatching(id, topics, Checking));
    case StartWork(_, _, _) => ClaimChains(cfg, pace, w, e, c);
    case StartAck(_, _, _) => AckChains(cfg, pace, w, e, c);
    case Renew(_, _) =>
      BareEvent(cfg, w, e);
      BareKept(cfg, pace, w, Apply(cfg, w, e), c);
    case Delete(_) =>
      BareEvent(cfg, w, e);
      BareKept(cfg, pace, w, Apply(cfg, w, e), c);
    case Lapse(_) =>
      BareEvent(cfg, w, e);
      BareKept(cfg, pace, w, Apply(cfg, w, e), c);
  }

  // --- Steps of a dispatch ----------------------------------------------------------------------------

  lemma SubscribeChains(cfg: Config, pace: Pace, w: World, id: string, c: Tags)
    requires Kept(cfg, pace, w, c) && id in w.tasks && w.tasks[id].Subscribing?
    ensures Kept(cfg, pace, RunSubscribe(cfg, w, id), c)
  {
    hide Kept, TaskFits, SetTask, EndTask, Bare, StartOffset, Added;
    var Subscribing(s, sub, from, todo, starts, heads) := w.tasks[id];
    BareIs(w, w);
    EndKept(cfg, pace, w, w, c, id);
    if todo != [] && todo[0] in w.logs && StartOffset(w.logs[todo[0]], w.clock, todo[0], from).Some? {
      var o := StartOffset(w.logs[todo[0]], w.clock, todo[0], from).value;
      var task := Subscribing(s, sub, from, todo[1..], starts[todo[0] := o], heads[todo[0] := |w.logs[todo[0]].recs|]);
      IdleTask(w, c, id, task);
      MoveKept(cfg, pace, w, w, c, id, task);
    } else if todo == [] && s !in w.subs {
      var x := Added(w, s, sub, starts, Taken(from, heads));
      AddBare(w, s, sub, starts, Taken(from, heads));
      EndKept(cfg, pace, w, x, c, id);
      IdleTask(x, c, id, Dispatching(s, sub.topics, Checking));
      MoveKept(cfg, pace, w, x, c, id, Dispatching(s, sub.topics, Checking));
    }
  }

  lemma AddBare(w: World, s: string, sub: Subscription, starts: map<string, int>, taken: Taken)
    ensures Bare(w, Added(w, s, sub, starts, taken))
  {
    hide Bare;
    BareIs(w, Added(w, s, sub, starts, taken));
  }

  lemma FanChains(cfg: Config, pace: Pace, w: World, id: string, inp: Input, c: Tags)
    requires Kept(cfg, pace, w, c) && id in w.tasks && w.tasks[id].Publishing?
    requires !cfg.deferred ==> Fanned(w, w.tasks[id].topic, inp.children)
    ensures Kept(cfg, pace, RunPublish(cfg, w, id, inp), c)
  {
    hide Kept, Audience;
    var v := RunPublish(cfg, w, id, inp);
    assert Still(w, v) && OthersWait(w, v, id) && id !in v.tasks;
    hide RunPublish, Still, OthersWait, Fanned;
    assert forall q :: !HeldBy(w, id, q) by { NoHead(w, id); }
    StillKept(cfg, pace, w, v, c, id);
  }

  lemma AckStepChains(cfg: Config, pace: Pace, w: World, id: string, c: Tags)
    requires Kept(cfg, pace, w, c) && id in w.tasks && w.tasks[id].Acking?
    ensures Kept(cfg, pace, RunAck(w, id), c)
  {
    hide Kept, TaskFits, SetTask, EndTask, Bare, AdvanceCursor, AckMark;
    var Acking(s, t, o, cursor, stage) := w.tasks[id];
    BareIs(w, w);
    EndKept(cfg, pace, w, w, c, id);
    if s in w.subs {
      StoreBare(w, s, t, o, cursor);
      EndKept(cfg, pace, w, AckMark(w, s, t, o), c, id);
      match stage
      case AckCursor =>
        IdleTask(AdvanceCursor(w, s, t, cursor), c, id, Acking(s, t, o, cursor, AckRead));
        MoveKept(cfg, pace, w, AdvanceCursor(w, s, t, cursor), c, id, Acking(s, t, o, cursor, AckRead));
      case AckRead =>
        IdleTask(w, c, id, Acking(s, t, o, cursor, AckWrite(Mark(w, s, t))));
        MoveKept(cfg, pace, w, w, c, id, Acking(s, t, o, cursor, AckWrite(Mark(w, s, t))));
      case AckWrite(_) =>
    }
  }

  lemma StoreBare(w: World, s: string, t: string, o: int, cursor: string)
    requires s in w.subs
    ensures Bare(w, SetMark(w, s, t, o)) && Bare(w, AdvanceCursor(w, s, t, cursor))
    ensures o >= 0 ==> Bare(w, AckMark(w, s, t, o))
  {
    hide Bare, Less;
    BareIs(w, SetMark(w, s, t, o));
    if o >= 0 { BareIs(w, AckMark(w, s, t, o)); }
    BareIs(w, AdvanceCursor(w, s, t, cursor));
  }

  /** A place in a dispatch where no attempt is under way. */
  predicate Between(stage: Stage) { stage.On? && stage.page.Handling? ==> stage.page.phase == Sending(1) }

  lemma BetweenFits(w: World, c: Tags, id: string, s: string, topics: seq<string>, stage: Stage)
    requires Between(stage) && (stage.On? ==> topics != [])
    ensures TaskFits(w, c, id, Dispatching(s, topics, stage))
  {
  }

  lemma TurnKept(cfg: Config, pace: Pace, w: World, v: World, c: Tags, id: string, s: string, topics: seq<string>,
                 stage: Stage)
    requires Kept(cfg, pace, w, c) && Bare(w, v) && id in w.tasks && w.tasks[id].Dispatching?
    requires Between(stage) && (stage.On? ==> topics != [])
    ensures Kept(cfg, pace, SetTask(v, id, Dispatching(s, topics, stage)), c)
  {
    hide Kept, TaskFits, SetTask, Bare;
    BetweenFits(v, c, id, s, topics, stage);
    MoveKept(cfg, pace, w, v, c, id, Dispatching(s, topics, stage));
  }

  lemma OpenChains(cfg: Config, pace: Pace, w: World, c: Tags, id: string, s: string, topics: seq<string>, page: Page,
                   position: int)
    requires Kept(cfg, pace, w, c) && id in w.tasks && w.tasks[id].Dispatching?
    requires topics != [] && page.Range? && page.lo <= page.hi
    ensures Kept(cfg, pace, OpenPage(w, id, s, topics, page, position), c)
  {
    hide Kept, SetTask, Bare, SeePage;
    BareIs(w, w);
    TurnKept(cfg, pace, w, w, c, id, s, topics[1..], Position);
    if page.lo != page.hi {
      SeeBare(w, s, topics[0], page.lo, page.hi);
      TurnKept(cfg, pace, w, SeePage(w, s, topics[0], page.lo, page.hi), c, id, s, topics,
               On(Scanning(page.lo, page.hi, position)));
    }
  }

  lemma SeeBare(w: World, s: string, t: string, lo: nat, hi: nat)
    requires lo <= hi
    ensures Bare(w, SeePage(w, s, t, lo, hi))
  {
    hide Bare, Scanned;
    BareIs(w, SeePage(w, s, t, lo, hi));
  }

  lemma PageChains(cfg: Config, pace: Pace, w: World, c: Tags, id: string, s: string, topics: seq<string>,
                   page: PageStage, inp: Input)
    requires Kept(cfg, pace, w, c) && id in w.tasks && w.tasks[id].Dispatching?
    requires s in w.subs && topics != [] && topics[0] in w.logs && !page.Handling?
    ensures Kept(cfg, pace, RunCatchUp(cfg, w, id, s, topics, page, inp), c)
  {
    hide Kept, SetTask, Bare, OpenPage, Matched, Mark, SetMark;
    var t := topics[0];
    var log := w.logs[t];
    BareIs(w, w);
    match page
    case Fetching(position) =>
      var p := Fetch(log, w.clock, position, |log.recs|, cfg.pageSize);
      hide Fetch;
      if p.Stale? { TurnKept(cfg, pace, w, w, c, id, s, topics, On(Refetching(position))); }
      else { OpenChains(cfg, pace, w, c, id, s, topics, p, position); }
    case Refetching(position) =>
      OpenChains(cfg, pace, w, c, id, s, topics, Fetch(log, w.clock, -1, |log.recs|, cfg.pageSize), position);
    case Scanning(next, hi, scan) =>
      TurnKept(cfg, pace, w, w, c, id, s, topics,
               On(if next >= hi then Settling(scan)
                  else if next <= scan then Scanning(next + 1, hi, scan)
                  else if !Matched(w, s, t, next) then Scanning(next + 1, hi, next)
                  else Handling(next, hi, Sending(1))));
    case Settling(scan) => TurnKept(cfg, pace, w, w, c, id, s, topics, On(SettleMark(scan, Mark(w, s, t))));
    case SettleMark(scan, mark) =>
      StoreBare(w, s, t, scan, "");
      TurnKept(cfg, pace, w, if scan > mark then SetMark(w, s, t, scan) else w, c, id, s, topics, Position);
  }

  /** A phase that neither records nor queues touches only what does not matter here. */
  lemma EffectBare(cfg: Config, w: World, s: string, t: string, o: nat, phase: Phase, inp: Input)
    requires s in w.subs && Logged(w, t, o) && !phase.Sent? && !phase.HandOver?
    ensures Bare(w, Effect(cfg, w, s, t, o, phase, inp))
  {
    hide Bare, SetMark, AdvanceCursor, Encode;
    BareIs(w, w);
    StoreBare(w, s, t, o, Encode(t, o));
    if phase.Sending? { BareIs(w, Effect(cfg, w, s, t, o, phase, inp)); }
  }

  lemma EffectChains(cfg: Config, pace: Pace, w: World, c: Tags, id: string, s: string, topics: seq<string>,
                     next: nat, hi: nat, phase: Phase, inp: Input)
    requires Kept(cfg, pace, w, c) && id in w.tasks
        && w.tasks[id] == Dispatching(s, topics, On(Handling(next, hi, phase)))
    requires topics != [] && s in w.subs && Logged(w, topics[0], next) && !phase.Sent? && !phase.HandOver?
    ensures Kept(cfg, pace, RunCatchUp(cfg, w, id, s, topics, Handling(next, hi, phase), inp), c)
  {
    hide Kept, SetTask, Bare, Effect;
    EffectBare(cfg, w, s, topics[0], next, phase, inp);
    KeptTask(cfg, pace, w, c, id);
    var v := Effect(cfg, w, s, topics[0], next, phase, inp);
    var stage := match NextPhase(cfg, w, s, topics[0], phase, inp)
      case Some(p) => Handling(next, hi, p)
      case None => Scanning(next + 1, hi, next);
    assert TaskFits(v, c, id, Dispatching(s, topics, On(stage)));
    hide TaskFits, NextPhase;
    MoveKept(cfg, pace, w, v, c, id, Dispatching(s, topics, On(stage)));
  }

  /** What `RunCatchUp` does in a delivery, one step at a time. */
  lemma RecordStep(cfg: Config, w: World, id: string, s: string, topics: seq<string>, next: nat, hi: nat,
                   n: nat, ack: bool, retry: bool, inp: Input)
    requires topics != [] && s in w.subs && Logged(w, topics[0], next)
    ensures var status := StatusOf(cfg, n, ack, retry);
      var p := if status == Retry then HandOver(n) else if status == Delivered then Acknowledge else BuryMark;
      RunCatchUp(cfg, w, id, s, topics, Handling(next, hi, Sent(n, ack, retry)), inp)
      == SetTask(RecordAttempt(w, s, topics[0], next, n, status), id, Dispatching(s, topics, On(Handling(next, hi, p))))
  {
    hide SetTask, RecordAttempt, SetMark, AdvanceCursor, Enqueue, Receive, Fetch, Encode;
  }

  lemma QueueStep(cfg: Config, w: World, id: string, s: string, topics: seq<string>, next: nat, hi: nat, n: nat,
                  inp: Input)
    requires topics != [] && s in w.subs && Logged(w, topics[0], next) && cfg.queued
    ensures RunCatchUp(cfg, w, id, s, topics, Handling(next, hi, HandOver(n)), inp)
         == SetTask(Enqueue(w, RetryItem(inp.retryId, s, topics[0], next, w.logs[topics[0]].recs[next].eventId, 1,
                                         inp.at)),
                    id, Dispatching(s, topics, On(Handling(next, hi, HandedMark))))
  {
    hide SetTask, RecordAttempt, SetMark, AdvanceCursor, Enqueue, Receive, Fetch, Encode;
  }

  lemma RecordMoves(w: World, s: string, t: string, o: nat, n: nat, status: AttemptStatus, id: string, task: Task)
    requires Logged(w, t, o)
    ensures var v := SetTask(RecordAttempt(w, s, t, o, n, status), id, task);
      && Onward(w, v) && OthersWait(w, v, id) && id in v.tasks && v.tasks[id] == task
      && v.attempts == w.attempts + [DeliveryAttempt(s, w.logs[t].recs[o].eventId, t, o, n, status)]
      && v.queue == w.queue && v.hist == w.hist
  {
  }

  lemma QueueMoves(w: World, item: RetryItem, id: string, task: Task)
    ensures var v := SetTask(Enqueue(w, item), id, task);
      && Onward(w, v) && OthersWait(w, v, id) && id in v.tasks && v.tasks[id] == task
      && v.attempts == w.attempts && v.queue == w.queue[item.retryId := item]
      && v.hist.issued == w.hist.issued[item.retryId := Spot(item.sub, item.topic, item.offset)]
  {
  }

  lemma FirstFits(w: World, c: Tags, id: string, s: string, topics: seq<string>, next: nat, hi: nat, phase: Phase)
    requires topics != []
    ensures TaskFits(w, c, id, Dispatching(s, topics, On(Handling(next, hi, phase))))
            <==> FirstOk(w.attempts, c, id, Spot(s, topics[0], next), phase)
  {
    hide FirstOk;
  }

  /** The attempt just made is the one the dispatch remembers. */
  lemma MadeFirst(attempts: seq<DeliveryAttempt>, c: Tags, id: string, spot: Spot, a: DeliveryAttempt, p: Phase)
    requires At(a, spot) && a.attempt == 1 && (p.Acknowledge? || p.BuryMark? || (p == HandOver(1) && a.status == Retry))
    requires |attempts| !in c.whose
    ensures FirstOk(attempts + [a], Make(c, id, |attempts|), id, spot, p)
  {
  }

  lemma SentChains(cfg: Config, pace: Pace, w: World, c: Tags, id: string, s: string, topics: seq<string>,
                   next: nat, hi: nat, n: nat, ack: bool, retry: bool, inp: Input)
    requires Kept(cfg, pace, w, c) && id in w.tasks
    requires w.tasks[id] == Dispatching(s, topics, On(Handling(next, hi, Sent(n, ack, retry))))
    requires topics != [] && s in w.subs && Logged(w, topics[0], next)
    ensures Kept(cfg, pace, RunCatchUp(cfg, w, id, s, topics, Handling(next, hi, Sent(n, ack, retry)), inp),
                 Make(c, id, |w.attempts|))
  {
    hide Kept, TaskFits, SetTask, RecordAttempt, RunCatchUp, Onward, OthersWait, Make;
    var t, status := topics[0], StatusOf(cfg, n, ack, retry);
    var p := if status == Retry then HandOver(n) else if status == Delivered then Acknowledge else BuryMark;
    var task := Dispatching(s, topics, On(Handling(next, hi, p)));
    var a := DeliveryAttempt(s, w.logs[t].recs[next].eventId, t, next, n, status);
    RecordStep(cfg, w, id, s, topics, next, hi, n, ack, retry, inp);
    RecordMoves(w, s, t, next, n, status, id, task);
    var v := SetTask(RecordAttempt(w, s, t, next, n, status), id, task);
    KeptTask(cfg, pace, w, c, id);
    FirstFits(w, c, id, s, topics, next, hi, Sent(n, ack, retry));
    assert |w.attempts| !in c.whose by { KeptTagged(cfg, pace, w, c); }
    MadeFirst(w.attempts, c, id, Spot(s, t, next), a, p);
    FirstFits(v, Make(c, id, |w.attempts|), id, s, topics, next, hi, p);
    MadeKept(cfg, pace, w, v, c, id, a);
  }

  lemma HandChains(cfg: Config, pace: Pace, w: World, c: Tags, id: string, s: string, topics: seq<string>,
                   next: nat, hi: nat, n: nat, inp: Input)
    requires Kept(cfg, pace, w, c) && id in w.tasks && cfg.queued
    requires w.tasks[id] == Dispatching(s, topics, On(Handling(next, hi, HandOver(n))))
    requires topics != [] && s in w.subs && Logged(w, topics[0], next) && n < cfg.maxAttempts
    requires inp.retryId !in w.hist.issued && inp.retryId !in w.queue
    requires inp.at == w.clock + Backoff.Delay(pace.initial, pace.max, 1)
    ensures id in c.last
    ensures Kept(cfg, pace, RunCatchUp(cfg, w, id, s, topics, Handling(next, hi, HandOver(n)), inp),
                 Queue(c, inp.retryId, c.last[id], inp.at - w.clock))
  {
    hide Kept, TaskFits, SetTask, Enqueue, RunCatchUp, Onward, OthersWait, Queue;
    var t, r := topics[0], inp.retryId;
    var item := RetryItem(r, s, t, next, w.logs[t].recs[next].eventId, 1, inp.at);
    var task := Dispatching(s, topics, On(Handling(next, hi, HandedMark)));
    QueueStep(cfg, w, id, s, topics, next, hi, n, inp);
    QueueMoves(w, item, id, task);
    var v := SetTask(Enqueue(w, item), id, task);
    KeptTask(cfg, pace, w, c, id);
    FirstFits(w, c, id, s, topics, next, hi, HandOver(n));
    FirstFits(v, Queue(c, r, c.last[id], inp.at - w.clock), id, s, topics, next, hi, HandedMark);
    QueuedKept(cfg, pace, w, v, c, id, r, Spot(s, t, next), inp.at - w.clock);
  }

  /** One step of a dispatch on a page. */
  lemma CatchUpChains(cfg: Config, pace: Pace, w: World, c: Tags, id: string, s: string, topics: seq<string>,
                      page: PageStage, inp: Input)
    requires Invariant(cfg, w) && Kept(cfg, pace, w, c) && cfg.queued
    requires id in w.tasks && w.tasks[id] == Dispatching(s, topics, On(page))
    requires inp.retryId !in w.hist.issued && Paced(pace, w, Run(id, inp))
    ensures Kept(cfg, pace, RunDispatch(cfg, w, id, inp), Note(w, Run(id, inp), c))
  {
    hide Kept, TaskFits, RunCatchUp, Queue, Make, Try, Wait, Claim;
    assert s in w.subs && topics != [] && topics[0] in w.logs && HandlingFits(cfg, w, s, topics[0], page)
    by { PlaceKnown(cfg, w, id, s, topics, page); }
    assert inp.retryId !in w.queue by { QueueIssued(cfg, w); }
    hide Invariant;
    if !page.Handling? { PageChains(cfg, pace, w, c, id, s, topics, page, inp); }
    else {
      match page.phase
      case Sent(n, ack, retry) => SentChains(cfg, pace, w, c, id, s, topics, page.next, page.hi, n, ack, retry, inp);
      case HandOver(n) =>
        assert n == 1 by {
          KeptTask(cfg, pace, w, c, id);
          FirstFits(w, c, id, s, topics, page.next, page.hi, page.phase);
        }
        HandChains(cfg, pace, w, c, id, s, topics, page.next, page.hi, n, inp);
      case _ => EffectChains(cfg, pace, w, c, id, s, topics, page.next, page.hi, page.phase, inp);
    }
  }

  ghost predicate HandlingFits(cfg: Config, w: World, s: string, t: string, page: PageStage) {
    page.Handling? ==> Logged(w, t, page.next) && (page.phase.HandOver? ==> page.phase.n < cfg.maxAttempts)
  }

  lemma PlaceKnown(cfg: Config, w: World, id: string, s: string, topics: seq<string>, page: PageStage)
    requires Invariant(cfg, w) && id in w.tasks && w.tasks[id] == Dispatching(s, topics, On(page))
    ensures s in w.subs && topics != [] && topics[0] in w.logs && HandlingFits(cfg, w, s, topics[0], page)
  {
    assert TaskOk(cfg, w, w.tasks[id]);
    hide Invariant, AccountedUpTo;
  }

  lemma DispatchChains(cfg: Config, pace: Pace, w: World, id: string, inp: Input, c: Tags)
    requires Invariant(cfg, w) && Kept(cfg, pace, w, c) && cfg.queued && id in w.tasks && w.tasks[id].Dispatching?
    requires inp.retryId !in w.hist.issued && Paced(pace, w, Run(id, inp))
    ensures Kept(cfg, pace, RunDispatch(cfg, w, id, inp), Note(w, Run(id, inp), c))
  {
    hide Invariant, Kept, TaskFits, RunCatchUp, Queue, Make, Try, Wait, Claim, SetTask, EndTask, Bare, ExpireIfDue,
        Paced;
    var Dispatching(s, topics, stage) := w.tasks[id];
    if stage.On? { CatchUpChains(cfg, pace, w, c, id, s, topics, stage.page, inp); }
    else {
      BareIs(w, w);
      EndKept(cfg, pace, w, w, c, id);
      if s in w.subs {
        match stage
        case Checking =>
          var w1 := ExpireIfDue(w, s);
          var w2 := w1.(hist := w1.hist.(lapsed := w1.hist.lapsed + {s}));
          ExpireBare(w, s);
          LapsedBare(w, s);
          EndKept(cfg, pace, w, w2, c, id);
          TurnKept(cfg, pace, w, w1, c, id, s, topics, Waiting);
        case Waiting =>
          BareIs(w, w.(locks := w.locks[s := id]));
          TurnKept(cfg, pace, w, w.(locks := w.locks[s := id]), c, id, s, topics, Position);
        case Position =>
          BareIs(w, w.(locks := w.locks - {s}));
          EndKept(cfg, pace, w, w.(locks := w.locks - {s}), c, id);
          if topics != [] { TurnKept(cfg, pace, w, w, c, id, s, topics, On(Fetching(Mark(w, s, topics[0])))); }
      }
    }
  }

  lemma LapsedBare(w: World, s: string)
    requires s in w.subs
    ensures var w1 := ExpireIfDue(w, s); Bare(w, w1.(hist := w1.hist.(lapsed := w1.hist.lapsed + {s})))
  {
    hide Bare;
    var w1 := ExpireIfDue(w, s);
    BareIs(w, w1.(hist := w1.hist.(lapsed := w1.hist.lapsed + {s})));
  }

  // --- Steps of a worker ------------------------------------------------------------------------------

  lemma WorkGoes(cfg: Config, pace: Pace, w: World, v: World, c: Tags, id: string, rest: seq<RetryItem>,
                 work: WorkStage, next: WorkStage)
    requires Kept(cfg, pace, w, c) && Bare(w, v) && id in w.tasks && w.tasks[id] == Working(rest, work) && rest != []
    requires WorkFits(w, c, id, rest, work) ==> WorkFits(v, c, id, rest, next)
    ensures Kept(cfg, pace, SetTask(v, id, Working(rest, next)), c)
  {
    hide Kept, TaskFits, SetTask, Bare, WorkFits;
    KeptTask(cfg, pace, w, c, id);
    var task := Working(rest, next);
    assert TaskFits(v, c, id, task) by { WorkIs(v, c, id, rest, next); }
    MoveKept(cfg, pace, w, v, c, id, task);
  }

  lemma WorkIs(w: World, c: Tags, id: string, rest: seq<RetryItem>, work: WorkStage)
    ensures TaskFits(w, c, id, Working(rest, work)) <==> WorkFits(w, c, id, rest, work)
  {
    hide WorkFits;
  }

  /** An event that a record read does not find has left retention. */
  lemma NotFoundAged(st: Stream, now: int, o: nat)
    requires st.Ordered() && o < |st.recs|
    ensures var p := Fetch(st, now, o - 1, o, 1); p.Range? && !(p.lo < p.hi && p.lo == o) ==> !st.LiveAt(now, o)
    ensures var p := Fetch(st, now, -1, o, 1);
      p.Range? && ((o > 0 ==> !st.LiveAt(now, o - 1)) && !(p.lo < p.hi && p.lo == o) ==> !st.LiveAt(now, o))
  {
    LiveTail(st, now);
  }

  lemma LoadLeads(cfg: Config, w: World, id: string, rest: seq<RetryItem>, work: WorkStage)
    requires Invariant(cfg, w) && id in w.tasks && w.tasks[id] == Working(rest, work) && rest != []
    requires work.Loading? || work.Reloading?
    ensures rest[0].topic in w.logs && rest[0].retryId in w.hist.issued
    ensures var next := Loads(w, rest[0], work);
      && (next.Reloading? || next == Redelivering(Sending(rest[0].attempt + 1)) || next.Completing?)
      && (next.Completing? ==> GivenUp(w, w.hist.issued[rest[0].retryId]))
  {
    HeadKnown(cfg, w, id, rest, work);
    hide Invariant;
    NotFoundAged(w.logs[rest[0].topic], w.clock, rest[0].offset);
    hide Stream.FirstLive;
  }

  lemma LoadChains(cfg: Config, pace: Pace, w: World, id: string, rest: seq<RetryItem>, work: WorkStage, inp: Input,
                   c: Tags)
    requires Invariant(cfg, w) && Kept(cfg, pace, w, c) && id in w.tasks && w.tasks[id] == Working(rest, work)
        && rest != []
    requires work.Loading? || work.Reloading?
    ensures Kept(cfg, pace, RunWork(cfg, w, id, inp), c)
  {
    hide Invariant, Kept, Bare, SetTask, WorkFits, HeadOk, RunWork, Loads, GivenUp;
    LoadLeads(cfg, w, id, rest, work);
    LoadStep(cfg, w, id, rest, work, inp);
    KeptTask(cfg, pace, w, c, id);
    KeptHead(cfg, pace, w, c, id, rest, work);
    var next := Loads(w, rest[0], work);
    LoadTurns(w, c, id, rest, work, next);
    BareIs(w, w);
    WorkGoes(cfg, pace, w, w, c, id, rest, work, next);
  }

  /** Where a load may go: on to the send, to one more read, or out when the event is given up. */
  lemma LoadTurns(w: World, c: Tags, id: string, rest: seq<RetryItem>, work: WorkStage, next: WorkStage)
    requires WorkFits(w, c, id, rest, work) && rest != [] && (work.Reviewing? || work.Loading? || work.Reloading?)
    requires match next
             case Loading => true
             case Reloading => true
             case Completing => rest[0].retryId in w.hist.issued && GivenUp(w, w.hist.issued[rest[0].retryId])
             case Redelivering(p) =>
               p.Sending? && rest[0].retryId in c.chains && p.n == |c.chains[rest[0].retryId].tries| + 1
             case _ => false
    ensures WorkFits(w, c, id, rest, next)
  {
    hide GivenUp, Claimed;
  }

  /** A waiting item's attempt number is the number of its attempts. */
  lemma KeptHead(cfg: Config, pace: Pace, w: World, c: Tags, id: string, rest: seq<RetryItem>, work: WorkStage)
    requires Kept(cfg, pace, w, c) && WorkFits(w, c, id, rest, work) && rest != []
    requires work.Reviewing? || work.Loading? || work.Reloading?
    ensures rest[0].retryId in c.chains && rest[0].attempt == |c.chains[rest[0].retryId].tries|
  {
    hide Kept, Numbered, GivenUp, Backoff.Total;
    WorkHead(w, c, id, rest, work);
    KeptChain(cfg, pace, w, c, rest[0].retryId);
  }

  lemma HeadKnown(cfg: Config, w: World, id: string, rest: seq<RetryItem>, work: WorkStage)
    requires Invariant(cfg, w) && id in w.tasks && w.tasks[id] == Working(rest, work) && rest != []
    ensures var item := rest[0];
      && item.retryId in w.hist.issued && w.hist.issued[item.retryId] == Spot(item.sub, item.topic, item.offset)
      && item.sub in w.subs && Logged(w, item.topic, item.offset) && w.logs[item.topic].Ordered()
    ensures work.Redelivering? && (work.phase.Sending? || work.phase.Sent? || work.phase.HandOver?) ==>
              1 <= work.phase.n <= cfg.maxAttempts && (work.phase.HandOver? ==> work.phase.n < cfg.maxAttempts)
    ensures work.Redelivering? ==> !work.phase.HandedMark?
    ensures work.Reloading? ==> rest[0].offset > 0 && !w.logs[rest[0].topic].LiveAt(w.clock, rest[0].offset - 1)
  {
    assert TaskOk(cfg, w, w.tasks[id]);
    ItemIssued(cfg, w, rest[0]);
    hide Invariant, ItemOk, Settled;
    assert Invariant(cfg, w) ==> LogsOk(w) by { LogsAre(cfg, w); }
  }

  lemma LogsAre(cfg: Config, w: World)
    ensures Invariant(cfg, w) ==> LogsOk(w)
  {
    hide LogsOk, SubsOk, NothingLost, AttemptOk, ItemOk, TaskOk;
  }

  lemma ReviewChains(cfg: Config, pace: Pace, w: World, id: string, rest: seq<RetryItem>, inp: Input, c: Tags)
    requires Invariant(cfg, w) && Kept(cfg, pace, w, c) && id in w.tasks && w.tasks[id] == Working(rest, Reviewing)
        && rest != []
    ensures Kept(cfg, pace, RunWork(cfg, w, id, inp), c)
  {
    hide Invariant, Kept, Bare, SetTask, WorkFits;
    var item := rest[0];
    var spot := Spot(item.sub, item.topic, item.offset);
    HeadKnown(cfg, w, id, rest, Reviewing);
    KeptTask(cfg, pace, w, c, id);
    BareIs(w, w);
    assert WorkFits(w, c, id, rest, Loading) by { LoadTurns(w, c, id, rest, Reviewing, Loading); }
    WorkGoes(cfg, pace, w, w, c, id, rest, Reviewing, Loading);
    var v := w.(hist := w.hist.(dropped := w.hist.dropped + {spot}));
    BareIs(w, v);
    DropBare(w, v, c, id, rest);
    WorkGoes(cfg, pace, w, v, c, id, rest, Reviewing, Completing);
  }

  lemma DropBare(w: World, v: World, c: Tags, id: string, rest: seq<RetryItem>)
    requires WorkFits(w, c, id, rest, Reviewing) && Bare(w, v) && rest != []
    requires rest[0].retryId in w.hist.issued && w.hist.issued[rest[0].retryId] in v.hist.dropped
    ensures WorkFits(v, c, id, rest, Completing)
  {
    StillWork(w, v, c, id, rest, Reviewing);
    hide Claimed, Onward, Aged;
    LoadTurns(v, c, id, rest, Reviewing, Completing);
  }

  /** One phase of a queued delivery, other than the recording and the scheduling. */
  lemma PhaseFits(cfg: Config, w: World, v: World, c: Tags, id: string, rest: seq<RetryItem>, phase: Phase,
                  next: WorkStage)
    requires WorkFits(w, c, id, rest, Redelivering(phase)) && Still(w, v) && rest != []
    requires match phase
             case Sending(n) => next.Redelivering? && next.phase.Sent? && next.phase.n == n
             case Acknowledge => next == Redelivering(ReadMark)
             case ReadMark => next.Redelivering? && next.phase.WriteMark?
             case WriteMark(_) => next == Completing
             case BuryMark => next == Completing
             case _ => false
    ensures WorkFits(v, c, id, rest, next)
  {
    StillWork(w, v, c, id, rest, Redelivering(phase));
    hide GivenUp, Claimed, Still;
  }

  lemma DeliverStep(cfg: Config, w: World, id: string, rest: seq<RetryItem>, phase: Phase, inp: Input)
    requires id in w.tasks && w.tasks[id] == Working(rest, Redelivering(phase)) && rest != [] && !phase.HandOver?
    requires rest[0].sub in w.subs && Logged(w, rest[0].topic, rest[0].offset)
    ensures var item := rest[0];
      RunWork(cfg, w, id, inp)
      == SetTask(Effect(cfg, w, item.sub, item.topic, item.offset, phase, inp), id,
                 Working(rest, match NextPhase(cfg, w, item.sub, item.topic, phase, inp)
                               case Some(p) => Redelivering(p)
                               case None => Completing))
  {
    hide SetTask, Effect, NextPhase, Fetch;
  }

  lemma PassChains(cfg: Config, pace: Pace, w: World, id: string, rest: seq<RetryItem>, phase: Phase, inp: Input,
                   c: Tags)
    requires Kept(cfg, pace, w, c) && id in w.tasks && w.tasks[id] == Working(rest, Redelivering(phase)) && rest != []
    requires rest[0].sub in w.subs && Logged(w, rest[0].topic, rest[0].offset)
    requires !phase.Sent? && !phase.HandOver? && !phase.HandedMark?
    ensures Kept(cfg, pace, RunWork(cfg, w, id, inp), c)
  {
    hide Kept, SetTask, Effect, RunWork, WorkFits, Still;
    var item := rest[0];
    var v := Effect(cfg, w, item.sub, item.topic, item.offset, phase, inp);
    DeliverStep(cfg, w, id, rest, phase, inp);
    EffectBare(cfg, w, item.sub, item.topic, item.offset, phase, inp);
    KeptTask(cfg, pace, w, c, id);
    var next := match NextPhase(cfg, w, item.sub, item.topic, phase, inp)
      case Some(p) => Redelivering(p)
      case None => Completing;
    PhaseFits(cfg, w, v, c, id, rest, phase, next);
    hide Bare, NextPhase;
    WorkGoes(cfg, pace, w, v, c, id, rest, Redelivering(phase), next);
  }

  lemma TryChains(cfg: Config, pace: Pace, w: World, id: string, rest: seq<RetryItem>, n: nat, ack: bool, retry: bool,
                  inp: Input, c: Tags)
    requires Kept(cfg, pace, w, c) && id in w.tasks && rest != [] && n <= cfg.maxAttempts
    requires w.tasks[id] == Working(rest, Redelivering(Sent(n, ack, retry)))
    requires rest[0].sub in w.subs && Logged(w, rest[0].topic, rest[0].offset) && rest[0].retryId in w.hist.issued
    requires w.hist.issued[rest[0].retryId] == Spot(rest[0].sub, rest[0].topic, rest[0].offset)
    ensures rest[0].retryId in c.chains
    ensures Kept(cfg, pace, RunWork(cfg, w, id, inp), Try(c, rest[0].retryId, |w.attempts|))
  {
    hide Kept, SetTask, RecordAttempt, RunWork, Onward, OthersWait, Try;
    var s, t, o := rest[0].sub, rest[0].topic, rest[0].offset;
    var status := StatusOf(cfg, n, ack, retry);
    var p := if status == Retry then HandOver(n) else if status == Delivered then Acknowledge else BuryMark;
    var task := Working(rest, Redelivering(p));
    DeliverStep(cfg, w, id, rest, Sent(n, ack, retry), inp);
    RecordMoves(w, s, t, o, n, status, id, task);
    TriedKept(cfg, pace, w, SetTask(RecordAttempt(w, s, t, o, n, status), id, task), c, id, rest, n, ack, retry,
              DeliveryAttempt(s, w.logs[t].recs[o].eventId, t, o, n, status), p);
  }

  lemma PutOffStep(cfg: Config, w: World, id: string, rest: seq<RetryItem>, n: nat, inp: Input)
    requires id in w.tasks && w.tasks[id] == Working(rest, Redelivering(HandOver(n))) && rest != []
    requires rest[0].sub in w.subs && Logged(w, rest[0].topic, rest[0].offset) && rest[0].retryId in w.queue
    ensures var r := rest[0].retryId; var v := RunWork(cfg, w, id, inp);
      && Onward(w, v) && OthersWait(w, v, id) && id in v.tasks && v.tasks[id] == Working(rest[1..], Reviewing)
      && v.attempts == w.attempts && v.hist == w.hist
      && v.queue == w.queue[r := w.queue[r].(attempt := n, nextRetryAt := inp.at)]
  {
    hide Effect, NextPhase, Fetch;
  }

  lemma PutOffChains(cfg: Config, pace: Pace, w: World, id: string, rest: seq<RetryItem>, n: nat, inp: Input, c: Tags)
    requires Kept(cfg, pace, w, c) && id in w.tasks && w.tasks[id] == Working(rest, Redelivering(HandOver(n)))
        && rest != []
    requires rest[0].sub in w.subs && Logged(w, rest[0].topic, rest[0].offset) && 1 <= n < cfg.maxAttempts
    requires inp.at == w.clock + Backoff.Delay(pace.initial, pace.max, n)
    ensures rest[0].retryId in c.chains
    ensures Kept(cfg, pace, RunWork(cfg, w, id, inp), Wait(c, rest[0].retryId, inp.at - w.clock))
  {
    hide Kept, RunWork, Onward, OthersWait, Wait, WorkFits, HeadOk, GivenUp, Recorded;
    KeptTask(cfg, pace, w, c, id);
    WorkHead(w, c, id, rest, Redelivering(HandOver(n)));
    PutOffStep(cfg, w, id, rest, n, inp);
    WaitedKept(cfg, pace, w, RunWork(cfg, w, id, inp), c, id, rest, n, inp.at - w.clock);
  }

  lemma DoneChains(cfg: Config, pace: Pace, w: World, id: string, rest: seq<RetryItem>, inp: Input, c: Tags)
    requires Kept(cfg, pace, w, c) && id in w.tasks && w.tasks[id] == Working(rest, Completing) && rest != []
    ensures Kept(cfg, pace, RunWork(cfg, w, id, inp), c)
  {
    hide Kept, Effect, NextPhase, Fetch;
    var v := RunWork(cfg, w, id, inp);
    assert Onward(w, v) && OthersWait(w, v, id);
    assert v.queue == w.queue - {rest[0].retryId} && v.attempts == w.attempts && v.hist == w.hist;
    assert id in v.tasks && v.tasks[id] == Working(rest[1..], Reviewing);
    hide RunWork, Onward, OthersWait;
    DoneKept(cfg, pace, w, v, c, id, rest);
  }

  lemma PacedAt(pace: Pace, w: World, id: string, rest: seq<RetryItem>, n: nat, inp: Input)
    requires id in w.tasks && w.tasks[id] == Working(rest, Redelivering(HandOver(n))) && n >= 1
    requires Paced(pace, w, Run(id, inp))
    ensures inp.at == w.clock + Backoff.Delay(pace.initial, pace.max, n)
  {
    hide Backoff.Delay;
  }

  lemma RedeliverChains(cfg: Config, pace: Pace, w: World, id: string, rest: seq<RetryItem>, phase: Phase, inp: Input,
                        c: Tags)
    requires Invariant(cfg, w) && Kept(cfg, pace, w, c) && rest != []
    requires id in w.tasks && w.tasks[id] == Working(rest, Redelivering(phase)) && Paced(pace, w, Run(id, inp))
    ensures Kept(cfg, pace, RunWork(cfg, w, id, inp), Note(w, Run(id, inp), c))
  {
    hide Invariant, Kept, RunWork, Queue, Make, Try, Wait, Claim, Paced, Stream.Ordered;
    HeadKnown(cfg, w, id, rest, Redelivering(phase));
    match phase
    case Sent(n, ack, retry) => TryChains(cfg, pace, w, id, rest, n, ack, retry, inp, c);
    case HandOver(n) =>
      PacedAt(pace, w, id, rest, n, inp);
      PutOffChains(cfg, pace, w, id, rest, n, inp, c);
    case _ => PassChains(cfg, pace, w, id, rest, phase, inp, c);
  }

  lemma PlainNote(w: World, id: string, inp: Input, c: Tags)
    requires id in w.tasks && w.tasks[id].Working? && (w.tasks[id].rest == [] || !w.tasks[id].work.Redelivering?)
    ensures Note(w, Run(id, inp), c) == c
  {
    hide Queue, Make, Try, Wait, Claim;
  }

  lemma WorkChains(cfg: Config, pace: Pace, w: World, id: string, inp: Input, c: Tags)
    requires Invariant(cfg, w) && Kept(cfg, pace, w, c) && id in w.tasks && w.tasks[id].Working?
    requires Paced(pace, w, Run(id, inp))
    ensures Kept(cfg, pace, RunWork(cfg, w, id, inp), Note(w, Run(id, inp), c))
  {
    var Working(rest, work) := w.tasks[id];
    hide Invariant, Kept, RunWork, Note, Paced, Bare, EndTask;
    if rest == [] || !work.Redelivering? { PlainNote(w, id, inp, c); }
    if rest == [] {
      BareIs(w, w);
      EndKept(cfg, pace, w, w, c, id);
      WorkEnds(cfg, w, id, inp);
    } else if work.Redelivering? {
      RedeliverChains(cfg, pace, w, id, rest, work.phase, inp, c);
    } else if work.Reviewing? {
      ReviewChains(cfg, pace, w, id, rest, inp, c);
    } else if work.Completing? {
      DoneChains(cfg, pace, w, id, rest, inp, c);
    } else {
      LoadChains(cfg, pace, w, id, rest, work, inp, c);
    }
  }

  lemma WorkEnds(cfg: Config, w: World, id: string, inp: Input)
    requires id in w.tasks && w.tasks[id].Working? && w.tasks[id].rest == []
    ensures RunWork(cfg, w, id, inp) == EndTask(w, id)
  {
    hide EndTask;
  }

  // --- Every run --------------------------------------------------------------------------------------

  lemma EventChains(cfg: Config, pace: Pace, w: World, e: Event, c: Tags)
    requires Invariant(cfg, w) && Kept(cfg, pace, w, c) && cfg.queued && Enabled(cfg, w, e)
    requires OnTime(w) && !e.Crash? && Paced(pace, w, e)
    ensures Kept(cfg, pace, Apply(cfg, w, e), Note(w, e, c))
  {
    hide Invariant, Kept, OnTime, Paced, RunDispatch, RunWork, RunAck, RunSubscribe, RunPublish;
    if e.Run? {
      match w.tasks[e.task]
      case Publishing(_, _) => FanChains(cfg, pace, w, e.task, e.input, c);
      case Subscribing(_, _, _, _, _, _) => SubscribeChains(cfg, pace, w, e.task, c);
      case Dispatching(_, _, _) => DispatchChains(cfg, pace, w, e.task, e.input, c);
      case Working(_, _) => WorkChains(cfg, pace, w, e.task, e.input, c);
      case Acking(_, _, _, _, _) => AckStepChains(cfg, pace, w, e.task, c);
    } else {
      OtherChains(cfg, pace, w, e, c);
    }
  }

  lemma {:induction false} RunsChain(cfg: Config, pace: Pace, w: World, es: seq<Event>, c: Tags)
    requires Invariant(cfg, w) && Kept(cfg, pace, w, c) && cfg.queued && Possible(cfg, w, es)
        && InTime(cfg, pace, w, es)
    ensures Kept(cfg, pace, Outcome(cfg, w, es), Noted(cfg, w, es, c)) && Invariant(cfg, Outcome(cfg, w, es))
    decreases |es|
  {
    hide Invariant, Kept, OnTime, Paced, Enabled, Apply, Note;
    if es != [] {
      EventKeeps(cfg, w, es[0]);
      EventChains(cfg, pace, w, es[0], c);
      RunsChain(cfg, pace, Apply(cfg, w, es[0]), es[1..], Note(w, es[0], c));
    }
  }

  /** How far the schedule of a chain of `k` attempts has come: one wait after each attempt that was put off. */
  ghost predicate Waited(pace: Pace, w: World, ch: Chain) {
    && Recorded(w.attempts, ch.tries)
    && ch.waited == Backoff.Total(pace.initial, pace.max, ch.handed + 1)
    && ch.handed <= |ch.tries| <= ch.handed + 1
    && (LastStatus(w.attempts, ch.tries) != Retry ==> ch.waited == Backoff.Total(pace.initial, pace.max, |ch.tries|))
  }

  /** What the attempts of one retry id look like. */
  ghost predicate Chained(cfg: Config, pace: Pace, w: World, c: Tags, r: string)
    requires r in w.hist.issued
  {
    && r in c.chains
    && var spot, ch := w.hist.issued[r], c.chains[r];
       && Numbered(cfg, w.attempts, spot, ch.tries)
       && (forall i :: i in ch.tries ==> i in c.whose && c.whose[i] == r)
       && Waited(pace, w, ch)
       && (r !in w.queue ==> LastStatus(w.attempts, ch.tries) != Retry || GivenUp(w, spot))
  }

  lemma KeptChained(cfg: Config, pace: Pace, w: World, c: Tags, r: string)
    requires Kept(cfg, pace, w, c) && r in w.hist.issued
    ensures Chained(cfg, pace, w, c, r)
  {
    hide Kept, GivenUp, HeldBy, Backoff.Total;
    KeptChain(cfg, pace, w, c, r);
    KeptTagged(cfg, pace, w, c);
    NumberedRecorded(cfg, w.attempts, w.hist.issued[r], c.chains[r].tries);
    hide Numbered;
  }

  lemma FreshKept(cfg: Config, pace: Pace, w: World)
    requires Initial(w)
    ensures Kept(cfg, pace, w, UNTAGGED)
  {
  }

  /**
   * Queued attempt chains.  In every run of a publisher with a retry queue, without a crash, with each
   * claimed item dealt with before its claim lapses and each wait as the backoff says, for every retry
   * id ever used: its attempts, the inline one first, are at one event, numbered 1 to k without a gap,
   * at most the ceiling, all but the last to be retried, no two retry ids sharing one; the waits
   * scheduled between them sum to the backoff total; and once the item is gone the last attempt is
   * final, or the item was dropped or its event left retention.
   */
  lemma QueuedChains(cfg: Config, pace: Pace, w: World, es: seq<Event>, r: string)
    requires Initial(w) && cfg.maxAttempts >= 1 && cfg.queued && Possible(cfg, w, es) && InTime(cfg, pace, w, es)
    requires r in Outcome(cfg, w, es).hist.issued
    ensures Chained(cfg, pace, Outcome(cfg, w, es), Noted(cfg, w, es, UNTAGGED), r)
  {
    hide Invariant, Kept, Initial, Possible, Outcome, Noted, InTime, Chained;
    InitialOk(cfg, w);
    FreshKept(cfg, pace, w);
    RunsChain(cfg, pace, w, es, UNTAGGED);
    KeptChained(cfg, pace, Outcome(cfg, w, es), Noted(cfg, w, es, UNTAGGED), r);
  }

  /** And no attempt after a first one is outside these chains: each belongs to exactly one. */
  lemma EveryRetryChained(cfg: Config, pace: Pace, w: World, es: seq<Event>, i: nat)
    requires Initial(w) && cfg.maxAttempts >= 1 && cfg.queued && Possible(cfg, w, es) && InTime(cfg, pace, w, es)
    requires i < |Outcome(cfg, w, es).attempts| && Outcome(cfg, w, es).attempts[i].attempt > 1
    ensures var c := Noted(cfg, w, es, UNTAGGED);
      && i in c.whose && c.whose[i] in c.chains
      && forall r :: r in c.chains ==> (i in c.chains[r].tries <==> r == c.whose[i])
  {
    hide Invariant, Kept, Initial, Possible, Outcome, Noted, InTime;
    InitialOk(cfg, w);
    FreshKept(cfg, pace, w);
    RunsChain(cfg, pace, w, es, UNTAGGED);
    KeptTagged(cfg, pace, Outcome(cfg, w, es), Noted(cfg, w, es, UNTAGGED));
  }
}
