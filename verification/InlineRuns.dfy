/** Every inline run keeps every account sound, so inline delivery refines the simple filter. */
module InlineRuns {
  import opened Contracts
  import opened Cursors
  import opened Stream
  import opened Dispatch
  import opened NoLoss
  import opened Inline

  /** The events of an inline run: nothing is acked explicitly, no retry worker, no crash. */
  predicate InlineEvent(e: Event) { !e.StartAck? && !e.StartWork? && !e.Crash? }

  /** A dispatch inside its lock. */
  predicate Inside(task: Task) { task.Dispatching? && (task.stage.Position? || task.stage.On?) }

  /** Each lock is held by exactly the one dispatch that is inside it. */
  ghost predicate Exclusive(w: World) {
    && (forall id :: id in w.tasks && Inside(w.tasks[id]) ==>
          w.tasks[id].id in w.locks && w.locks[w.tasks[id].id] == id)
    && (forall s :: s in w.locks ==>
          w.locks[s] in w.tasks && Inside(w.tasks[w.locks[s]]) && w.tasks[w.locks[s]].id == s)
  }

  ghost predicate AllSound(w: World) {
    forall s, t :: s in w.subs && t in w.subs[s].topics && t in w.logs ==>
      Sound(w.logs[t], w.clock, w.subs[s].selector, AccountOf(w, s, t))
  }

  ghost predicate Orderly(cfg: Config, w: World) {
    && Invariant(cfg, w)
    && !cfg.queued
    && cfg.pageSize >= 1
    && Exclusive(w)
    && (forall id :: id in w.tasks ==> !w.tasks[id].Working? && !w.tasks[id].Acking?)
    && (forall k :: k in w.hist.scanned ==> k.0 in w.subs)
    && AllSound(w)
  }

  // --- One step inside the lock touches one account ------------------------------------------

  /** From `w` to `v` task `id`, inside the lock of `s`, worked on topic `t` only. */
  ghost predicate StepsOn(w: World, v: World, id: string, s: string, t: string) {
    && id in w.tasks && w.tasks[id].Dispatching? && w.tasks[id].id == s && w.tasks[id].stage.On?
    && w.tasks[id].topics != [] && w.tasks[id].topics[0] == t
    && id in v.tasks && v.tasks == w.tasks[id := v.tasks[id]] && v.tasks[id].Dispatching? && v.tasks[id].id == s
    && (v.tasks[id].stage.Position?
        || (v.tasks[id].stage.On? && v.tasks[id].topics != [] && v.tasks[id].topics[0] == t))
    && v.locks == w.locks && v.logs == w.logs && v.clock == w.clock && v.hist.starts == w.hist.starts
    && v.subs.Keys == w.subs.Keys && (forall s' :: s' in w.subs ==> SameTerms(w.subs[s'], v.subs[s']))
    && (forall s', t' :: (s', t') != (s, t) ==> Mark(v, s', t') == Mark(w, s', t'))
    && (forall k :: k in v.hist.scanned && k != (s, t) ==>
          k in w.hist.scanned && v.hist.scanned[k] == w.hist.scanned[k])
    && (forall k :: k in w.hist.scanned ==> k in v.hist.scanned)
    && AttemptsOn(w, v, s, t)
  }

  ghost predicate AttemptsOn(w: World, v: World, s: string, t: string) {
    || v.attempts == w.attempts
    || (|v.attempts| == |w.attempts| + 1 && v.attempts[..|w.attempts|] == w.attempts
        && Concerns(v.attempts[|w.attempts|], s, t))
  }

  lemma OthersUntouched(w: World, v: World, id: string, s: string, t: string, s': string, t': string)
    requires StepsOn(w, v, id, s, t) && Exclusive(w) && (s', t') != (s, t)
    ensures AccountOf(v, s', t') == AccountOf(w, s', t')
  {
    assert Made(v.attempts, s', t') == Made(w.attempts, s', t');
    assert Busy(v, s', t') == Busy(w, s', t') by {
      assert Inside(w.tasks[id]);
      if s' in w.locks && s' != s { assert w.locks[s'] != id; }
    }
  }

  lemma StepExclusive(w: World, v: World, id: string, s: string, t: string)
    requires Exclusive(w) && StepsOn(w, v, id, s, t)
    ensures Exclusive(v)
  {
    hide AttemptsOn, SameTerms, Mark;
    assert Inside(w.tasks[id]) && Inside(v.tasks[id]);
  }

  lemma StepOrderly(cfg: Config, w: World, v: World, id: string, s: string, t: string)
    requires Orderly(cfg, w) && Invariant(cfg, v) && StepsOn(w, v, id, s, t)
    requires s in w.subs && t in w.logs && Sound(w.logs[t], w.clock, w.subs[s].selector, AccountOf(v, s, t))
    ensures Orderly(cfg, v)
  {
    hide Invariant, AccountOf, Scanned, Sound;
    StepExclusive(w, v, id, s, t);
    forall s', t' | s' in v.subs && t' in v.subs[s'].topics && t' in v.logs
      ensures Sound(v.logs[t'], v.clock, v.subs[s'].selector, AccountOf(v, s', t'))
    {
      assert SameTerms(w.subs[s'], v.subs[s']);
      if (s', t') != (s, t) {
        OthersUntouched(w, v, id, s, t, s', t');
      }
    }
    hide Exclusive;
  }

  // --- The steps of the catch-up loop ------------------------------------------------------------

  /** The task's own place, seen through the lock. */
  lemma BusyIs(w: World, id: string, s: string, topics: seq<string>, stage: Stage)
    requires s in w.locks && w.locks[s] == id && id in w.tasks && w.tasks[id] == Dispatching(s, topics, stage)
    ensures forall t :: Busy(w, s, t) ==
              (if stage.On? && topics != [] && topics[0] == t then Some(stage.page) else None)
  {
  }

  /** Steps that write no store: only the task's own place changes. */
  lemma TurnSteps(w: World, id: string, s: string, topics: seq<string>, page: PageStage, next: Task)
    requires id in w.tasks && w.tasks[id] == Dispatching(s, topics, On(page)) && topics != []
    requires s in w.locks && w.locks[s] == id
    requires next.Dispatching? && next.id == s
    requires next.stage.Position? || (next.stage.On? && next.topics != [] && next.topics[0] == topics[0])
    ensures var v := SetTask(w, id, next);
      && StepsOn(w, v, id, s, topics[0])
      && AccountOf(v, s, topics[0]) == AccountOf(w, s, topics[0]).(busy :=
           if next.stage.On? then Some(next.stage.page) else None)
  {
    var v := SetTask(w, id, next);
    BusyIs(v, id, s, next.topics, next.stage);
  }

  /** What the lemmas below say of a step: it stays on its topic and leaves the account sound. */
  ghost predicate GoodStep(w: World, v: World, id: string, s: string, t: string) {
    && StepsOn(w, v, id, s, t)
    && s in w.subs && t in w.logs
    && Sound(w.logs[t], w.clock, w.subs[s].selector, AccountOf(v, s, t))
  }

  /** A dispatch on a page, inside its lock, with its account in order. */
  ghost predicate Ready(cfg: Config, w: World, id: string, s: string, topics: seq<string>, page: PageStage) {
    && !cfg.queued && cfg.pageSize >= 1
    && id in w.tasks && w.tasks[id] == Dispatching(s, topics, On(page)) && topics != []
    && s in w.locks && w.locks[s] == id
    && s in w.subs && topics[0] in w.logs
    && LogsOk(w)
    && Start(w, s, topics[0]) >= -1
    && PageOk(cfg, w, s, topics[0], page)
    && Sound(w.logs[topics[0]], w.clock, w.subs[s].selector, AccountOf(w, s, topics[0]))
  }

  lemma TurnGood(cfg: Config, w: World, id: string, s: string, topics: seq<string>, page: PageStage, next: Task)
    requires Ready(cfg, w, id, s, topics, page)
    requires next.Dispatching? && next.id == s
    requires next.stage.Position? || (next.stage.On? && next.topics != [] && next.topics[0] == topics[0])
    requires var a := AccountOf(w, s, topics[0]);
      var b := a.(busy := if next.stage.On? then Some(next.stage.page) else None);
      Left(b) == Left(a) && Expected(b.busy) == Expected(a.busy) && Progress(b)
    ensures GoodStep(w, SetTask(w, id, next), id, s, topics[0])
  {
    TurnSteps(w, id, s, topics, page, next);
    var a := AccountOf(w, s, topics[0]);
    MoveKeeps(w.logs[topics[0]], w.clock, w.subs[s].selector, a, AccountOf(SetTask(w, id, next), s, topics[0]));
  }

  lemma OpenSteps(w: World, id: string, s: string, topics: seq<string>, page: PageStage, lo: nat, hi: nat,
                  position: int)
    requires id in w.tasks && w.tasks[id] == Dispatching(s, topics, On(page)) && topics != []
    requires s in w.locks && w.locks[s] == id && lo < hi
    ensures var v := OpenPage(w, id, s, topics, Range(lo, hi), position);
      var a := AccountOf(w, s, topics[0]);
      && StepsOn(w, v, id, s, topics[0])
      && AccountOf(v, s, topics[0]) == a.(
           sights := a.sights + seq(hi - lo, i requires 0 <= i => Sight(lo + i, w.clock)),
           busy := Some(Scanning(lo, hi, position)))
  {
    var v := OpenPage(w, id, s, topics, Range(lo, hi), position);
    BusyIs(v, id, s, topics, On(Scanning(lo, hi, position)));
  }

  lemma AccountParts(w: World, s: string, t: string)
    ensures var a := AccountOf(w, s, t); a.start == Start(w, s, t) && a.mark == Mark(w, s, t) && a.busy == Busy(w, s, t)
  {
    hide Start, Mark, Busy, Made, Scanned;
  }

  lemma LogOrdered(w: World, t: string)
    requires LogsOk(w) && t in w.logs
    ensures w.logs[t].Ordered()
  {
    hide Stream.Ordered;
  }

  /** Reading a page leaves the account sound. */
  lemma OpenSound(log: Stream, now: int, selector: Content -> bool, a: Account, b: Account, lo: nat, hi: nat)
    requires Sound(log, now, selector, a) && log.Ordered() && a.start >= -1
    requires a.busy.Some? && (a.busy.value.Fetching? || a.busy.value.Refetching?)
    requires a.mark < lo < hi <= |log.recs| && lo <= Max(a.mark + 1, log.FirstLive(now)) && log.FirstLive(now) <= lo
    requires b == a.(sights := a.sights + seq(hi - lo, i requires 0 <= i => Sight(lo + i, now)),
                     busy := Some(Scanning(lo, hi, a.mark)))
    ensures Sound(log, now, selector, b)
  {
    LiveTail(log, now);
    assert Frontier(a) == a.mark && Frontier(a) >= -1;
    assert Opens(log, now, a, b, lo, hi);
    hide Sound, Opens;
    OpenKeeps(log, now, selector, a, b, lo, hi);
  }

  lemma OpenGood(cfg: Config, w: World, id: string, s: string, topics: seq<string>, page: PageStage, lo: nat, hi: nat)
    requires Ready(cfg, w, id, s, topics, page) && (page.Fetching? || page.Refetching?)
    requires lo < hi <= |w.logs[topics[0]].recs| && Mark(w, s, topics[0]) < lo
    requires lo <= Max(Mark(w, s, topics[0]) + 1, w.logs[topics[0]].FirstLive(w.clock))
    requires w.logs[topics[0]].FirstLive(w.clock) <= lo
    ensures GoodStep(w, OpenPage(w, id, s, topics, Range(lo, hi), Mark(w, s, topics[0])), id, s, topics[0])
  {
    hide Sound, StepsOn, OpenPage, AccountOf, PageOk, LogsOk, Opens;
    var t := topics[0];
    var v := OpenPage(w, id, s, topics, Range(lo, hi), Mark(w, s, t));
    BusyIs(w, id, s, topics, On(page));
    AccountParts(w, s, t);
    LogOrdered(w, t);
    OpenSteps(w, id, s, topics, page, lo, hi, Mark(w, s, t));
    hide Mark, Start, Busy;
    OpenSound(w.logs[t], w.clock, w.subs[s].selector, AccountOf(w, s, t), AccountOf(v, s, t), lo, hi);
  }

  lemma EmptyGood(cfg: Config, w: World, id: string, s: string, topics: seq<string>, page: PageStage)
    requires Ready(cfg, w, id, s, topics, page) && (page.Fetching? || page.Refetching?)
    ensures GoodStep(w, SetTask(w, id, Dispatching(s, topics[1..], Position)), id, s, topics[0])
  {
    BusyIs(w, id, s, topics, On(page));
    TurnGood(cfg, w, id, s, topics, page, Dispatching(s, topics[1..], Position));
  }

  lemma FetchingGood(cfg: Config, w: World, id: string, s: string, topics: seq<string>, page: PageStage, inp: Input)
    requires Ready(cfg, w, id, s, topics, page) && (page.Fetching? || page.Refetching?)
    ensures GoodStep(w, RunCatchUp(cfg, w, id, s, topics, page, inp), id, s, topics[0])
  {
    hide PhaseOk, Old, SameTerms, Mark, Receive, SeenLive, NextPhase, StepsOn;
    var log := w.logs[topics[0]];
    BusyIs(w, id, s, topics, On(page));
    assert page.position == Mark(w, s, topics[0]);
    LiveTail(log, w.clock);
    hide GoodStep, Sound, SetTask, LogsOk;
    var after := if page.Fetching? then page.position else -1;
    var p := Fetch(log, w.clock, after, |log.recs|, cfg.pageSize);
    if p.Stale? {
      TurnGood(cfg, w, id, s, topics, page, Dispatching(s, topics, On(Refetching(page.position))));
    } else if p.lo == p.hi {
      EmptyGood(cfg, w, id, s, topics, page);
    } else {
      OpenGood(cfg, w, id, s, topics, page, p.lo, p.hi);
    }
  }

  lemma MissGood(cfg: Config, w: World, id: string, s: string, topics: seq<string>, next: nat, hi: nat, scan: int)
    requires Ready(cfg, w, id, s, topics, Scanning(next, hi, scan)) && next < hi && !Matched(w, s, topics[0], next)
    ensures GoodStep(w, SetTask(w, id, Dispatching(s, topics, On(Scanning(next + 1, hi, next)))), id, s, topics[0])
  {
    var t := topics[0];
    var task := Dispatching(s, topics, On(Scanning(next + 1, hi, next)));
    BusyIs(w, id, s, topics, On(Scanning(next, hi, scan)));
    TurnSteps(w, id, s, topics, Scanning(next, hi, scan), task);
    MissKeeps(w.logs[t], w.clock, w.subs[s].selector, AccountOf(w, s, t), AccountOf(SetTask(w, id, task), s, t));
  }

  /** The loop turns to a matching event, or leaves the page. */
  lemma TurnFromScan(cfg: Config, w: World, id: string, s: string, topics: seq<string>,
                     next: nat, hi: nat, scan: int, page: PageStage)
    requires Ready(cfg, w, id, s, topics, Scanning(next, hi, scan))
    requires page == if next >= hi then Settling(scan) else Handling(next, hi, Sending(1))
    ensures GoodStep(w, OnPage(w, id, s, topics, page), id, s, topics[0])
  {
    BusyIs(w, id, s, topics, On(Scanning(next, hi, scan)));
    var a := AccountOf(w, s, topics[0]);
    assert Sound(w.logs[topics[0]], w.clock, w.subs[s].selector, a);
    ScanTurns(a, next, hi, scan, page);
    hide Ready, Sound, Progress;
    TurnGood(cfg, w, id, s, topics, Scanning(next, hi, scan), Dispatching(s, topics, On(page)));
  }

  lemma ScanTurns(a: Account, next: nat, hi: nat, scan: int, page: PageStage)
    requires a.busy == Some(Scanning(next, hi, scan)) && Progress(a)
    requires page == if next >= hi then Settling(scan) else Handling(next, hi, Sending(1))
    ensures var b := a.(busy := Some(page));
      Left(b) == Left(a) && Expected(b.busy) == Expected(a.busy) && Progress(b)
  {
    var b := a.(busy := Some(page));
    assert Ahead(b, next, hi) && Frontier(b) == Frontier(a);
  }

  lemma ScanningGood(cfg: Config, w: World, id: string, s: string, topics: seq<string>,
                     next: nat, hi: nat, scan: int, inp: Input)
    requires Ready(cfg, w, id, s, topics, Scanning(next, hi, scan))
    ensures GoodStep(w, RunCatchUp(cfg, w, id, s, topics, Scanning(next, hi, scan), inp), id, s, topics[0])
  {
    hide Encode, Fetch, Mark, Busy;
    assert s in w.subs && topics != [] && topics[0] in w.logs && scan < next;
    hide Ready, GoodStep, SetTask;
    if next >= hi {
      TurnFromScan(cfg, w, id, s, topics, next, hi, scan, Settling(scan));
    } else if Matched(w, s, topics[0], next) {
      TurnFromScan(cfg, w, id, s, topics, next, hi, scan, Handling(next, hi, Sending(1)));
    } else {
      MissGood(cfg, w, id, s, topics, next, hi, scan);
    }
  }

  /** `x` is `w` after store writes that concern topic `t` of subscription `s` only. */
  ghost predicate WritesOn(w: World, x: World, s: string, t: string) {
    && x == w.(subs := x.subs, marks := x.marks, attempts := x.attempts, received := x.received)
    && x.subs.Keys == w.subs.Keys && (forall s' :: s' in w.subs ==> SameTerms(w.subs[s'], x.subs[s']))
    && (forall s', t' :: (s', t') != (s, t) ==> Mark(x, s', t') == Mark(w, s', t'))
    && AttemptsOn(w, x, s, t)
  }

  lemma WriteSteps(w: World, x: World, id: string, s: string, topics: seq<string>, page: PageStage, next: Task)
    requires id in w.tasks && w.tasks[id] == Dispatching(s, topics, On(page)) && topics != []
    requires s in w.locks && w.locks[s] == id
    requires WritesOn(w, x, s, topics[0])
    requires next.Dispatching? && next.id == s
    requires next.stage.Position? || (next.stage.On? && next.topics != [] && next.topics[0] == topics[0])
    ensures var v := SetTask(x, id, next);
      && StepsOn(w, v, id, s, topics[0])
      && AccountOf(v, s, topics[0]) == AccountOf(w, s, topics[0]).(
           mark := Mark(x, s, topics[0]),
           made := Made(x.attempts, s, topics[0]),
           busy := if next.stage.On? then Some(next.stage.page) else None)
  {
    var v := SetTask(x, id, next);
    BusyIs(v, id, s, next.topics, next.stage);
  }

  lemma NoWrites(w: World, s: string, t: string)
    ensures WritesOn(w, w, s, t)
  {
  }

  lemma ReceiveWrites(w: World, s: string, t: string, endpoint: string, eventId: string)
    ensures var x := Receive(w, endpoint, eventId);
      WritesOn(w, x, s, t) && Mark(x, s, t) == Mark(w, s, t) && x.attempts == w.attempts
  {
    hide Received;
  }

  lemma RecordWrites(w: World, s: string, t: string, o: nat, n: nat, status: AttemptStatus)
    requires Logged(w, t, o)
    ensures var x := RecordAttempt(w, s, t, o, n, status);
      && WritesOn(w, x, s, t) && Mark(x, s, t) == Mark(w, s, t)
      && x.attempts == w.attempts + [DeliveryAttempt(s, w.logs[t].recs[o].eventId, t, o, n, status)]
  {
  }

  lemma AdvanceWrites(w: World, s: string, t: string, cursor: string)
    requires s in w.subs
    ensures var x := AdvanceCursor(w, s, t, cursor);
      WritesOn(w, x, s, t) && Mark(x, s, t) == Mark(w, s, t) && x.attempts == w.attempts
  {
    hide Less;
    var x := AdvanceCursor(w, s, t, cursor);
    assert x == w.(subs := x.subs) by { hide SameTerms, AttemptsOn, Mark; }
    assert AttemptsOn(w, x, s, t) by { hide AdvanceCursor, Mark; }
    assert forall s', t' :: Mark(x, s', t') == Mark(w, s', t') by { hide AdvanceCursor, AttemptsOn; }
    hide AttemptsOn, Mark;
  }

  lemma MarkWrites(w: World, s: string, t: string, o: int)
    ensures var x := SetMark(w, s, t, o); WritesOn(w, x, s, t) && Mark(x, s, t) == o && x.attempts == w.attempts
  {
  }

  lemma EffectWrites(cfg: Config, w: World, s: string, t: string, o: nat, phase: Phase, inp: Input)
    requires s in w.subs && Logged(w, t, o) && !cfg.queued
    ensures WritesOn(w, Effect(cfg, w, s, t, o, phase, inp), s, t)
    ensures var x := Effect(cfg, w, s, t, o, phase, inp);
      && Mark(x, s, t) == (if phase.BuryMark? || phase.HandedMark? || (phase.WriteMark? && o > phase.mark)
                           then o else Mark(w, s, t))
      && (if phase.Sent?
          then x.attempts == w.attempts + [DeliveryAttempt(s, w.logs[t].recs[o].eventId, t, o, phase.n,
                                                           StatusOf(cfg, phase.n, phase.ack, phase.retry))]
          else x.attempts == w.attempts)
  {
    hide WritesOn, Receive, RecordAttempt, AdvanceCursor, SetMark, Encode, Mark;
    NoWrites(w, s, t);
    match phase
    case Sending(n) => ReceiveWrites(w, s, t, w.subs[s].endpoint, w.logs[t].recs[o].eventId);
    case Sent(n, ack, retry) => RecordWrites(w, s, t, o, n, StatusOf(cfg, n, ack, retry));
    case Acknowledge => AdvanceWrites(w, s, t, Encode(t, o));
    case ReadMark =>
    case WriteMark(_) => MarkWrites(w, s, t, o);
    case BuryMark => MarkWrites(w, s, t, o);
    case HandOver(_) =>
    case HandedMark => MarkWrites(w, s, t, o);
  }

  lemma MadeGrows(w: World, x: World, s: string, t: string, a: DeliveryAttempt)
    requires x.attempts == w.attempts + [a] && Concerns(a, s, t)
    ensures Made(x.attempts, s, t) == Made(w.attempts, s, t) + [a]
  {
    assert x.attempts[..|x.attempts| - 1] == w.attempts;
  }

  lemma HandlingGood(cfg: Config, w: World, id: string, s: string, topics: seq<string>,
                     next: nat, hi: nat, phase: Phase, inp: Input)
    requires Ready(cfg, w, id, s, topics, Handling(next, hi, phase))
    ensures GoodStep(w, RunCatchUp(cfg, w, id, s, topics, Handling(next, hi, phase), inp), id, s, topics[0])
  {
    var t := topics[0];
    var x := Effect(cfg, w, s, t, next, phase, inp);
    BusyIs(w, id, s, topics, On(Handling(next, hi, phase)));
    EffectWrites(cfg, w, s, t, next, phase, inp);
    var stage := match NextPhase(cfg, w, s, t, phase, inp)
      case Some(p) => Handling(next, hi, p)
      case None => Scanning(next + 1, hi, next);
    var task := Dispatching(s, topics, On(stage));
    WriteSteps(w, x, id, s, topics, Handling(next, hi, phase), task);
    var a, b := AccountOf(w, s, t), AccountOf(SetTask(x, id, task), s, t);
    assert PageOk(cfg, w, s, t, Handling(next, hi, phase));
    assert GoodStep(w, SetTask(x, id, task), id, s, t) by {
      HandlingSound(cfg, w, x, s, t, next, hi, phase, stage, inp, a, b);
    }
  }

  /** The account after one step of a delivery. */
  lemma HandlingSound(cfg: Config, w: World, x: World, s: string, t: string, next: nat, hi: nat, phase: Phase,
                      stage: PageStage, inp: Input, a: Account, b: Account)
    requires s in w.subs && t in w.logs && !cfg.queued && PageOk(cfg, w, s, t, Handling(next, hi, phase))
    requires Sound(w.logs[t], w.clock, w.subs[s].selector, a)
    requires a == AccountOf(w, s, t) && a.busy == Some(Handling(next, hi, phase))
    requires x == Effect(cfg, w, s, t, next, phase, inp)
    requires stage == match NextPhase(cfg, w, s, t, phase, inp)
                      case Some(p) => Handling(next, hi, p)
                      case None => Scanning(next + 1, hi, next)
    requires b == a.(mark := Mark(x, s, t), made := Made(x.attempts, s, t), busy := Some(stage))
    ensures Sound(w.logs[t], w.clock, w.subs[s].selector, b)
  {
    hide SameTerms, Made, Hits, Effect, WritesOn, AccountedUpTo, Forward, GapsOld, SeenLive, Outcomes, ChainOf;
    EffectWrites(cfg, w, s, t, next, phase, inp);
    if phase.Sent? {
      var made := x.attempts[|w.attempts|];
      MadeGrows(w, x, s, t, made);
      RecordKeeps(w.logs[t], w.clock, w.subs[s].selector, a, b, next, hi, phase.n, made, stage.phase);
    } else {
      MoveKeeps(w.logs[t], w.clock, w.subs[s].selector, a, b);
    }
  }

  lemma SettleMarkGood(cfg: Config, w: World, id: string, s: string, topics: seq<string>, page: PageStage, inp: Input)
    requires Ready(cfg, w, id, s, topics, page) && page.SettleMark?
    ensures GoodStep(w, RunCatchUp(cfg, w, id, s, topics, page, inp), id, s, topics[0])
  {
    hide Made, Scanned, StepsOn, SetTask, SetMark, Mark, WritesOn, Hits, PageOk, LogsOk, Start, Ahead;
    var t := topics[0];
    BusyIs(w, id, s, topics, On(page));
    var x := if page.scan > page.mark then SetMark(w, s, t, page.scan) else w;
    NoWrites(w, s, t);
    MarkWrites(w, s, t, page.scan);
    var task := Dispatching(s, topics, Position);
    WriteSteps(w, x, id, s, topics, page, task);
    MoveKeeps(w.logs[t], w.clock, w.subs[s].selector, AccountOf(w, s, t), AccountOf(SetTask(x, id, task), s, t));
  }

  lemma SettlingGood(cfg: Config, w: World, id: string, s: string, topics: seq<string>, page: PageStage, inp: Input)
    requires Ready(cfg, w, id, s, topics, page) && (page.Settling? || page.SettleMark?)
    ensures GoodStep(w, RunCatchUp(cfg, w, id, s, topics, page, inp), id, s, topics[0])
  {
    var t := topics[0];
    BusyIs(w, id, s, topics, On(page));
    if page.Settling? {
      hide Made, Scanned, StepsOn, SetTask, Ahead, Hits;
      TurnGood(cfg, w, id, s, topics, page, Dispatching(s, topics, On(SettleMark(page.scan, Mark(w, s, t)))));
    } else {
      SettleMarkGood(cfg, w, id, s, topics, page, inp);
    }
  }

  lemma CatchUpGood(cfg: Config, w: World, id: string, s: string, topics: seq<string>, page: PageStage, inp: Input)
    requires Ready(cfg, w, id, s, topics, page)
    ensures GoodStep(w, RunCatchUp(cfg, w, id, s, topics, page, inp), id, s, topics[0])
  {
    hide Ready, GoodStep, RunCatchUp;
    match page
    case Fetching(_) => FetchingGood(cfg, w, id, s, topics, page, inp);
    case Refetching(_) => FetchingGood(cfg, w, id, s, topics, page, inp);
    case Scanning(next, hi, scan) => ScanningGood(cfg, w, id, s, topics, next, hi, scan, inp);
    case Handling(next, hi, phase) => HandlingGood(cfg, w, id, s, topics, next, hi, phase, inp);
    case Settling(_) => SettlingGood(cfg, w, id, s, topics, page, inp);
    case SettleMark(_, _) => SettlingGood(cfg, w, id, s, topics, page, inp);
  }

  // --- Every inline event ----------------------------------------------------------------------

  /** A step that leaves every account as it was, up to appends and the clock. */
  ghost predicate Quiet(w: World, v: World) {
    && w.clock <= v.clock
    && (forall t :: t in w.logs ==>
          t in v.logs && v.logs[t].retention == w.logs[t].retention && w.logs[t].recs <= v.logs[t].recs)
    && v.subs.Keys == w.subs.Keys && (forall s :: s in w.subs ==> SameTerms(w.subs[s], v.subs[s]))
    && (forall s, t :: AccountOf(v, s, t) == AccountOf(w, s, t))
  }

  lemma QuietSound(cfg: Config, w: World, v: World)
    requires AllSound(w) && SubsOk(w) && Quiet(w, v)
    ensures AllSound(v)
  {
    forall s, t | s in v.subs && t in v.subs[s].topics && t in v.logs
      ensures Sound(v.logs[t], v.clock, v.subs[s].selector, AccountOf(v, s, t))
    {
      assert SameTerms(w.subs[s], v.subs[s]);
      TimePasses(w.logs[t], v.logs[t], w.clock, v.clock, w.subs[s].selector, AccountOf(w, s, t));
    }
  }

  lemma QuietOrderly(cfg: Config, w: World, v: World)
    requires Orderly(cfg, w) && Invariant(cfg, v) && Quiet(w, v) && Exclusive(v)
    requires v.hist.scanned == w.hist.scanned
    requires forall id :: id in v.tasks ==> !v.tasks[id].Working? && !v.tasks[id].Acking?
    ensures Orderly(cfg, v)
  {
    QuietSound(cfg, w, v);
  }

  /** Which stores an account depends on. */
  lemma SameAccounts(w: World, v: World)
    requires v.hist.starts == w.hist.starts && v.marks == w.marks && v.attempts == w.attempts
    requires v.hist.scanned == w.hist.scanned
    requires forall s, t :: Busy(v, s, t) == Busy(w, s, t)
    ensures forall s, t :: AccountOf(v, s, t) == AccountOf(w, s, t)
  {
  }

  /** Tasks outside their locks come and go without moving any account. */
  lemma OutsideTasks(w: World, v: World)
    requires Exclusive(w) && v.locks == w.locks
    requires forall id :: id in w.tasks && Inside(w.tasks[id]) ==> id in v.tasks && v.tasks[id] == w.tasks[id]
    requires forall id :: id in v.tasks && Inside(v.tasks[id]) ==> id in w.tasks && v.tasks[id] == w.tasks[id]
    ensures Exclusive(v)
    ensures forall s, t :: Busy(v, s, t) == Busy(w, s, t)
  {
    forall s, t ensures Busy(v, s, t) == Busy(w, s, t) {
      if s in w.locks { assert Inside(w.tasks[w.locks[s]]); }
    }
  }

  /** Steps that only start or end tasks outside locks, append, pass time or change a status. */
  ghost predicate Simple(w: World, v: World) {
    && v.locks == w.locks && v.hist.starts == w.hist.starts && v.hist.scanned == w.hist.scanned
    && v.marks == w.marks && v.attempts == w.attempts && w.clock <= v.clock
    && (forall t :: t in w.logs ==>
          t in v.logs && v.logs[t].retention == w.logs[t].retention && w.logs[t].recs <= v.logs[t].recs)
    && v.subs.Keys == w.subs.Keys && (forall s :: s in w.subs ==> SameTerms(w.subs[s], v.subs[s]))
    && (forall id :: id in w.tasks && Inside(w.tasks[id]) ==> id in v.tasks && v.tasks[id] == w.tasks[id])
    && (forall id :: id in v.tasks ==> (id in w.tasks && v.tasks[id] == w.tasks[id]) || Outside(v.tasks[id]))
  }

  predicate Outside(task: Task) { !Inside(task) && !task.Working? && !task.Acking? }

  lemma SimpleOrderly(cfg: Config, w: World, v: World)
    requires Orderly(cfg, w) && Invariant(cfg, v) && Simple(w, v)
    ensures Orderly(cfg, v)
  {
    hide Invariant;
    OutsideTasks(w, v);
    SameAccounts(w, v);
    QuietOrderly(cfg, w, v);
  }

  lemma SimpleTask(w: World, v: World, id: string, task: Task)
    requires Simple(w, v) && Outside(task) && (id in w.tasks ==> !Inside(w.tasks[id]))
    ensures Simple(w, SetTask(v, id, task))
  {
  }

  lemma SimpleEnd(w: World, v: World, id: string)
    requires Simple(w, v) && (id in w.tasks ==> !Inside(w.tasks[id]))
    ensures Simple(w, EndTask(v, id))
  {
  }

  lemma SimpleSubs(w: World, v: World)
    requires v == w.(subs := v.subs, hist := w.hist.(lapsed := v.hist.lapsed)) && v.subs.Keys == w.subs.Keys
    requires forall s :: s in w.subs ==> SameTerms(w.subs[s], v.subs[s])
    ensures Simple(w, v)
  {
  }

  lemma ExpireSimple(w: World, s: string)
    requires s in w.subs
    ensures var w1 := ExpireIfDue(w, s);
      Simple(w, w1) && Simple(w, w1.(hist := w1.hist.(lapsed := w1.hist.lapsed + {s})))
  {
    hide Simple;
    var w1 := ExpireIfDue(w, s);
    SimpleSubs(w, w1);
    SimpleSubs(w, w1.(hist := w1.hist.(lapsed := w1.hist.lapsed + {s})));
  }

  lemma CheckingSimple(cfg: Config, w: World, id: string, inp: Input)
    requires id in w.tasks && w.tasks[id].Dispatching? && w.tasks[id].stage.Checking? && w.tasks[id].id in w.subs
    ensures Simple(w, RunDispatch(cfg, w, id, inp))
  {
    hide RunCatchUp, ExpireIfDue, Simple, SetTask, EndTask;
    var Dispatching(s, topics, stage) := w.tasks[id];
    var w1 := ExpireIfDue(w, s);
    var w2 := w1.(hist := w1.hist.(lapsed := w1.hist.lapsed + {s}));
    ExpireSimple(w, s);
    SimpleTask(w, w1, id, Dispatching(s, topics, Waiting));
    SimpleEnd(w, w2, id);
  }

  lemma CaptureSimple(cfg: Config, w: World, id: string)
    requires id in w.tasks && w.tasks[id].Subscribing? && (w.tasks[id].todo != [] || w.tasks[id].id in w.subs)
    ensures Simple(w, RunSubscribe(cfg, w, id))
  {
    var Subscribing(s, sub, from, todo, starts, heads) := w.tasks[id];
    SimpleSubs(w, w);
    hide Simple, SetTask, EndTask;
    SimpleEnd(w, w, id);
    if todo != [] && todo[0] in w.logs && StartOffset(w.logs[todo[0]], w.clock, todo[0], from).Some? {
      var o := StartOffset(w.logs[todo[0]], w.clock, todo[0], from).value;
      SimpleTask(w, w, id, Subscribing(s, sub, from, todo[1..], starts[todo[0] := o],
                                       heads[todo[0] := |w.logs[todo[0]].recs|]));
    }
  }

  lemma PublishSimple(cfg: Config, w: World, id: string, inp: Input)
    requires id in w.tasks && w.tasks[id].Publishing? && (!cfg.deferred ==> Fanned(w, w.tasks[id].topic, inp.children))
    ensures Simple(w, RunPublish(cfg, w, id, inp))
  {
    hide Audience;
    if cfg.deferred {
      SimpleSubs(w, w);
      SimpleEnd(w, w, id);
    } else {
      assert RunPublish(cfg, w, id, inp) == w.(tasks := RunPublish(cfg, w, id, inp).tasks);
    }
  }

  lemma SelfSimple(w: World)
    ensures Simple(w, w)
  {
    hide Simple;
    SimpleSubs(w, w);
  }

  lemma TickSimple(w: World, to: int)
    requires to >= w.clock
    ensures Simple(w, w.(clock := to))
  {
  }

  lemma AppendSimple(w: World, topic: string, record: EventRecord)
    requires topic in w.logs
    ensures Simple(w, w.(logs := w.logs[topic := w.logs[topic].(recs := w.logs[topic].recs + [record])]))
  {
  }

  lemma StatusSimple(w: World, s: string, status: SubscriptionStatus)
    requires s in w.subs
    ensures Simple(w, SetStatus(w, s, status))
  {
    hide Simple;
    SimpleSubs(w, SetStatus(w, s, status));
  }

  lemma EventSimple(cfg: Config, w: World, e: Event)
    requires Enabled(cfg, w, e) && InlineEvent(e) && !e.Run?
    ensures Simple(w, Apply(cfg, w, e))
  {
    hide Simple, SetTask, Fresh, SetStatus;
    SelfSimple(w);
    match e
    case Tick(to) => TickSimple(w, to);
    case Publish(task, topic, eventId, content) =>
      var log := w.logs[topic];
      var record := EventRecord(eventId, topic, |log.recs|, content, w.clock);
      AppendSimple(w, topic, record);
      SimpleTask(w, w.(logs := w.logs[topic := log.(recs := log.recs + [record])]), task,
                 Publishing(topic, |log.recs|));
    case Subscribe(task, id, sub, from) =>
      SimpleTask(w, w, task, Subscribing(id, sub, from, sub.topics, map[], map[]));
    case StartDispatch(task, id, topics) =>
      SimpleTask(w, w, task, Dispatching(id, topics, Checking));
    case Renew(id, leaseUntil) =>
      var sub := w.subs[id].(leaseUntil := leaseUntil, status := Active);
      SimpleSubs(w, w.(subs := w.subs[id := sub]));
    case Delete(id) => StatusSimple(w, id, Deleted);
    case Lapse(id) => StatusSimple(w, id, Expired);
  }

  lemma LockBusy(w: World, v: World, id: string, s: string)
    requires Exclusive(w) && id in w.tasks && w.tasks[id].Dispatching? && w.tasks[id].id == s
    requires (w.tasks[id].stage.Waiting? && s !in w.locks
              && v == w.(locks := w.locks[s := id], tasks := w.tasks[id := w.tasks[id].(stage := Position)]))
          || (w.tasks[id].stage.Position? && v == Release(w, id, s))
    ensures Exclusive(v)
    ensures forall s', t :: Busy(v, s', t) == Busy(w, s', t)
    ensures v == w.(locks := v.locks, tasks := v.tasks)
    ensures forall x :: x in v.tasks ==> (x in w.tasks && v.tasks[x] == w.tasks[x]) || v.tasks[x].Dispatching?
  {
    assert Inside(w.tasks[id]) ==> w.locks[s] == id;
    forall s', t ensures Busy(v, s', t) == Busy(w, s', t) {
      if s' in w.locks && s' != s { assert Inside(w.tasks[w.locks[s']]) && w.locks[s'] != id; }
    }
  }

  lemma QuietIs(w: World, v: World)
    requires v.clock == w.clock && v.logs == w.logs && v.subs == w.subs
    requires forall s, t :: AccountOf(v, s, t) == AccountOf(w, s, t)
    ensures Quiet(w, v)
  {
    hide AccountOf;
  }

  /** Taking or leaving the lock between two topics moves no account either. */
  lemma LockOrderly(cfg: Config, w: World, v: World, id: string, s: string)
    requires Orderly(cfg, w) && Invariant(cfg, v) && id in w.tasks && w.tasks[id].Dispatching? && w.tasks[id].id == s
    requires (w.tasks[id].stage.Waiting? && s !in w.locks
              && v == w.(locks := w.locks[s := id], tasks := w.tasks[id := w.tasks[id].(stage := Position)]))
          || (w.tasks[id].stage.Position? && v == Release(w, id, s))
    ensures Orderly(cfg, v)
  {
    hide Invariant, AllSound, AccountOf;
    LockBusy(w, v, id, s);
    hide Exclusive, Busy, Release;
    SameAccounts(w, v);
    QuietIs(w, v);
    hide Orderly, Quiet;
    QuietOrderly(cfg, w, v);
  }

  lemma PositionElsewhere(w: World, id: string, s: string, topics: seq<string>, s': string, t': string)
    requires Exclusive(w) && id in w.tasks && w.tasks[id] == Dispatching(s, topics, Position) && topics != []
    ensures var v := OnPage(w, id, s, topics, Fetching(Mark(w, s, topics[0])));
      && Exclusive(v)
      && ((s', t') != (s, topics[0]) ==> AccountOf(v, s', t') == AccountOf(w, s', t'))
      && Busy(w, s, topics[0]) == None
      && AccountOf(v, s, topics[0]) ==
           AccountOf(w, s, topics[0]).(busy := Some(Fetching(Mark(w, s, topics[0]))))
  {
    var v := OnPage(w, id, s, topics, Fetching(Mark(w, s, topics[0])));
    assert Inside(w.tasks[id]) && Inside(v.tasks[id]);
    BusyIs(w, id, s, topics, Position);
    BusyIs(v, id, s, topics, On(Fetching(Mark(w, s, topics[0]))));
    if s' in w.locks && s' != s { assert Inside(w.tasks[w.locks[s']]) && w.locks[s'] != id; }
  }

  lemma TopicKnown(cfg: Config, w: World, id: string, s: string, topics: seq<string>)
    requires Invariant(cfg, w) && id in w.tasks && w.tasks[id] == Dispatching(s, topics, Position) && topics != []
    ensures s in w.subs && topics[0] in w.subs[s].topics && topics[0] in w.logs
  {
    InvariantTask(cfg, w, id);
    InvariantStores(cfg, w);
    hide Invariant, LogsOk;
  }

  /** The loop turns to its next topic and reads the high-water mark. */
  lemma PositionOrderly(cfg: Config, w: World, id: string, s: string, topics: seq<string>)
    requires Orderly(cfg, w) && id in w.tasks && w.tasks[id] == Dispatching(s, topics, Position) && topics != []
    requires Invariant(cfg, OnPage(w, id, s, topics, Fetching(Mark(w, s, topics[0]))))
    ensures Orderly(cfg, OnPage(w, id, s, topics, Fetching(Mark(w, s, topics[0]))))
  {
    hide Invariant, AllSound, Exclusive, Sound, Hits, Made, Busy, AccountOf;
    var t := topics[0];
    var v := OnPage(w, id, s, topics, Fetching(Mark(w, s, t)));
    assert s in w.subs && t in w.subs[s].topics && t in w.logs by { TopicKnown(cfg, w, id, s, topics); }
    PositionSound(w, v, id, s, topics);
    PositionElsewhere(w, id, s, topics, s, t);
  }

  lemma PositionSound(w: World, v: World, id: string, s: string, topics: seq<string>)
    requires AllSound(w) && s in w.subs && topics != [] && topics[0] in w.subs[s].topics && topics[0] in w.logs
    requires Exclusive(w) && id in w.tasks && w.tasks[id] == Dispatching(s, topics, Position)
    requires v == OnPage(w, id, s, topics, Fetching(Mark(w, s, topics[0])))
    ensures AllSound(v)
  {
    var t := topics[0];
    hide Exclusive, Sound;
    forall s', t' | s' in v.subs && t' in v.subs[s'].topics && t' in v.logs
      ensures Sound(v.logs[t'], v.clock, v.subs[s'].selector, AccountOf(v, s', t'))
    {
      PositionElsewhere(w, id, s, topics, s', t');
      assert Sound(w.logs[t'], w.clock, w.subs[s'].selector, AccountOf(w, s', t'));
      if s' == s && t' == t { FetchStarts(w, v, s, t); }
    }
  }

  lemma FetchStarts(w: World, v: World, s: string, t: string)
    requires s in w.subs && t in w.logs && Sound(w.logs[t], w.clock, w.subs[s].selector, AccountOf(w, s, t))
    requires Busy(w, s, t) == None
    requires AccountOf(v, s, t) == AccountOf(w, s, t).(busy := Some(Fetching(Mark(w, s, t))))
    ensures Sound(w.logs[t], w.clock, w.subs[s].selector, AccountOf(v, s, t))
  {
    MoveKeeps(w.logs[t], w.clock, w.subs[s].selector, AccountOf(w, s, t), AccountOf(v, s, t));
  }

  lemma PageOrderly(cfg: Config, w: World, id: string, s: string, topics: seq<string>, page: PageStage, inp: Input)
    requires Orderly(cfg, w) && Enabled(cfg, w, Run(id, inp)) && w.tasks[id] == Dispatching(s, topics, On(page))
    requires Invariant(cfg, RunDispatch(cfg, w, id, inp))
    ensures Orderly(cfg, RunDispatch(cfg, w, id, inp))
  {
    hide Sound, StepsOn, Made;
    assert TaskOk(cfg, w, w.tasks[id]);
    assert Inside(w.tasks[id]);
    assert topics[0] in w.subs[s].topics && Start(w, s, topics[0]) >= -1;
    hide Invariant;
    assert Ready(cfg, w, id, s, topics, page);
    assert RunDispatch(cfg, w, id, inp) == RunCatchUp(cfg, w, id, s, topics, page, inp);
    hide RunDispatch, RunCatchUp, Ready, Enabled;
    CatchUpGood(cfg, w, id, s, topics, page, inp);
    StepOrderly(cfg, w, RunCatchUp(cfg, w, id, s, topics, page, inp), id, s, topics[0]);
  }

  lemma DispatchOrderly(cfg: Config, w: World, id: string, inp: Input)
    requires Orderly(cfg, w) && Enabled(cfg, w, Run(id, inp)) && w.tasks[id].Dispatching?
    ensures Orderly(cfg, RunDispatch(cfg, w, id, inp))
  {
    hide AllSound, Sound, LogsOk, Effect;
    var Dispatching(s, topics, stage) := w.tasks[id];
    var v := RunDispatch(cfg, w, id, inp);
    assert Invariant(cfg, v) by { EventKeeps(cfg, w, Run(id, inp)); }
    assert s in w.subs by { assert TaskOk(cfg, w, w.tasks[id]); }
    hide Invariant;
    match stage
    case Checking =>
      CheckingSimple(cfg, w, id, inp);
      hide RunDispatch, Simple, Orderly;
      SimpleOrderly(cfg, w, v);
    case Waiting => LockOrderly(cfg, w, v, id, s);
    case Position =>
      if topics == [] { LockOrderly(cfg, w, v, id, s); }
      else { PositionOrderly(cfg, w, id, s, topics); }
    case On(page) =>
      hide Orderly, RunDispatch;
      PageOrderly(cfg, w, id, s, topics, page, inp);
  }

  // --- A subscription enters ---------------------------------------------------------------------

  lemma NoAttemptsYet(cfg: Config, w: World, attempts: seq<DeliveryAttempt>, s: string, t: string)
    requires s !in w.subs && forall i :: 0 <= i < |attempts| ==> attempts[i].sub in w.subs
    ensures Made(attempts, s, t) == []
  {
  }

  lemma LocksKnown(cfg: Config, w: World, s: string)
    requires Orderly(cfg, w)
    ensures s in w.locks ==> s in w.subs
  {
    if s in w.locks { assert TaskOk(cfg, w, w.tasks[w.locks[s]]); }
  }

  /** A new subscription's account with each topic is empty, and an empty account is sound. */
  lemma EnterOrderly(cfg: Config, w: World, v: World, s: string, t: string)
    requires Orderly(cfg, w) && s !in w.subs && t in w.logs && s in v.subs
    requires v.logs == w.logs && v.clock == w.clock && v.attempts == w.attempts && v.locks == w.locks
    requires v.hist.scanned == w.hist.scanned && Mark(v, s, t) == Start(v, s, t)
    ensures Sound(v.logs[t], v.clock, v.subs[s].selector, AccountOf(v, s, t))
  {
    forall i | 0 <= i < |w.attempts| ensures w.attempts[i].sub in w.subs {
      assert AttemptOk(cfg, w, w.attempts[i]);
    }
    NoAttemptsYet(cfg, w, w.attempts, s, t);
    LocksKnown(cfg, w, s);
    assert Scanned(v, s, t) == [];
    var a := AccountOf(v, s, t);
    assert Done(a) == [];
  }

  lemma AddedAccount(w: World, s: string, sub: Subscription, starts: map<string, int>, taken: Taken, s': string,
                     t: string)
    requires s' in w.subs && s' != s
    ensures AccountOf(Added(w, s, sub, starts, taken), s', t) == AccountOf(w, s', t)
  {
  }

  lemma AddSound(cfg: Config, w: World, s: string, sub: Subscription, starts: map<string, int>, taken: Taken)
    requires Orderly(cfg, w) && s !in w.subs
    ensures AllSound(Added(w, s, sub, starts, taken))
  {
    var v := Added(w, s, sub, starts, taken);
    forall s', t | s' in v.subs && t in v.subs[s'].topics && t in v.logs
      ensures Sound(v.logs[t], v.clock, v.subs[s'].selector, AccountOf(v, s', t))
    {
      hide SubsOk, TaskOk, AttemptOk, Deliverable, Sound;
      if s' == s {
        hide Orderly;
        EnterOrderly(cfg, w, v, s, t);
      } else {
        AddedAccount(w, s, sub, starts, taken, s', t);
        hide Invariant, AccountOf;
      }
    }
  }

  lemma AddOrderly(cfg: Config, w: World, s: string, sub: Subscription, starts: map<string, int>, taken: Taken)
    requires Orderly(cfg, w) && s !in w.subs && Invariant(cfg, Added(w, s, sub, starts, taken))
    ensures Orderly(cfg, Added(w, s, sub, starts, taken))
  {
    hide SubsOk, PageOk, TaskOk, AccountedUpTo;
    AddSound(cfg, w, s, sub, starts, taken);
    hide Invariant, AllSound;
  }

  lemma OrderlyInvariant(cfg: Config, w: World)
    requires Orderly(cfg, w)
    ensures Invariant(cfg, w)
  {
    hide Invariant;
  }

  /** The last step of a subscribe call. */
  lemma AddedOrderly(cfg: Config, w: World, id: string, s: string, sub: Subscription, from: From,
                     starts: map<string, int>, heads: map<string, nat>)
    requires Orderly(cfg, w) && id in w.tasks && w.tasks[id] == Subscribing(s, sub, from, [], starts, heads)
        && s !in w.subs
    requires TaskOk(cfg, w, w.tasks[id]) && Invariant(cfg, RunSubscribe(cfg, w, id))
    ensures Orderly(cfg, RunSubscribe(cfg, w, id))
  {
    var x := Added(w, s, sub, starts, Taken(from, heads));
    AddOk(cfg, w, s, sub, starts, Taken(from, heads));
    AddOrderly(cfg, w, s, sub, starts, Taken(from, heads));
    SimpleSubs(x, x);
    hide Invariant, Simple, Orderly;
    if cfg.deferred { SimpleEnd(x, x, id); } else { SimpleTask(x, x, id, Dispatching(s, sub.topics, Checking)); }
    SimpleOrderly(cfg, x, RunSubscribe(cfg, w, id));
  }

  lemma SubscribeOrderly(cfg: Config, w: World, id: string, inp: Input)
    requires Orderly(cfg, w) && Enabled(cfg, w, Run(id, inp)) && w.tasks[id].Subscribing?
    ensures Orderly(cfg, RunSubscribe(cfg, w, id))
  {
    hide SubsOk, Orderly;
    var Subscribing(s, sub, from, todo, starts, heads) := w.tasks[id];
    var v := RunSubscribe(cfg, w, id);
    OrderlyInvariant(cfg, w);
    assert Invariant(cfg, v) by { EventKeeps(cfg, w, Run(id, inp)); }
    if todo == [] && s !in w.subs {
      assert TaskOk(cfg, w, w.tasks[id]);
      AddedOrderly(cfg, w, id, s, sub, from, starts, heads);
    } else {
      CaptureSimple(cfg, w, id);
      hide Invariant, Simple;
      SimpleOrderly(cfg, w, v);
    }
  }

  /** No inline event disturbs the accounts. */
  lemma EventOrderly(cfg: Config, w: World, e: Event)
    requires Orderly(cfg, w) && Enabled(cfg, w, e) && InlineEvent(e)
    ensures Orderly(cfg, Apply(cfg, w, e))
  {
    hide SubsOk, AllSound, Sound, TaskOk;
    assert Invariant(cfg, Apply(cfg, w, e)) by { EventKeeps(cfg, w, e); }
    assert e.Run? ==> !w.tasks[e.task].Working? && !w.tasks[e.task].Acking?;
    hide Invariant, Orderly, Simple, RunDispatch, RunSubscribe, RunPublish;
    if e.Run? {
      match w.tasks[e.task]
      case Dispatching(_, _, _) => DispatchOrderly(cfg, w, e.task, e.input);
      case Subscribing(_, _, _, _, _, _) => SubscribeOrderly(cfg, w, e.task, e.input);
      case Publishing(_, _) =>
        PublishSimple(cfg, w, e.task, e.input);
        SimpleOrderly(cfg, w, Apply(cfg, w, e));
    } else {
      EventSimple(cfg, w, e);
      SimpleOrderly(cfg, w, Apply(cfg, w, e));
    }
  }

  /** Runs made of inline events only. */
  predicate InlineRun(es: seq<Event>) { forall i :: 0 <= i < |es| ==> InlineEvent(es[i]) }

  lemma {:induction false} RunsOrderly(cfg: Config, w: World, es: seq<Event>)
    requires Orderly(cfg, w) && Possible(cfg, w, es) && InlineRun(es)
    ensures Orderly(cfg, Outcome(cfg, w, es))
    decreases |es|
  {
    hide Orderly;
    if es != [] {
      EventOrderly(cfg, w, es[0]);
      RunsOrderly(cfg, Apply(cfg, w, es[0]), es[1..]);
    }
  }

  lemma StartsOrderly(cfg: Config, w: World)
    requires Initial(w) && cfg.maxAttempts >= 1 && cfg.pageSize >= 1 && !cfg.queued
    ensures Orderly(cfg, w)
  {
    InitialOk(cfg, w);
  }

  /**
   * Inline delivery refines a filter.  After any inline run, for a subscription with no dispatch
   * under way: the events whose delivery ended are exactly the matching ones among those handed to
   * its loops, in the same order; that order is strictly increasing, so each ended once; each was
   * live when its page was read; and whatever up to the high-water mark was not handed over had
   * left retention.
   */
  lemma InlineIsFilter(cfg: Config, w: World, es: seq<Event>, s: string, t: string)
    requires Initial(w) && cfg.maxAttempts >= 1 && cfg.pageSize >= 1 && !cfg.queued
    requires Possible(cfg, w, es) && InlineRun(es)
    requires var v := Outcome(cfg, w, es);
      s in v.subs && t in v.subs[s].topics && s !in v.locks
    ensures var v := Outcome(cfg, w, es);
      var a := AccountOf(v, s, t);
      && t in v.logs
      && Outcomes(a.made) == Hits(v.logs[t], v.subs[s].selector, a.sights)
      && Forward(a)
      && SeenLive(v.logs[t], v.clock, a)
      && (forall o :: Start(v, s, t) < o <= Mark(v, s, t) ==> Seen(a, o) || Old(v.logs[t], v.clock, o))
      && (forall o :: Seen(a, o) ==> Start(v, s, t) < o <= Mark(v, s, t))
  {
    hide Apply;
    StartsOrderly(cfg, w);
    RunsOrderly(cfg, w, es);
    var v := Outcome(cfg, w, es);
    var a := AccountOf(v, s, t);
    assert Sound(v.logs[t], v.clock, v.subs[s].selector, a);
    assert Done(a) == a.sights;
  }

  /** Attempts at one event are numbered 1, 2, 3, ... and only the last of them is final. */
  lemma InlineChains(cfg: Config, w: World, es: seq<Event>, s: string, t: string)
    requires Initial(w) && cfg.maxAttempts >= 1 && cfg.pageSize >= 1 && !cfg.queued
    requires Possible(cfg, w, es) && InlineRun(es)
    requires var v := Outcome(cfg, w, es); s in v.subs && t in v.subs[s].topics
    ensures var v := Outcome(cfg, w, es);
      var made := Made(v.attempts, s, t);
      WellChained(made) && (s !in v.locks && made != [] ==> made[|made| - 1].status != Retry)
  {
    hide Apply, Possible, Outcome, Done, Enabled, Fetch, Encode, Made;
    StartsOrderly(cfg, w);
    RunsOrderly(cfg, w, es);
    var v := Outcome(cfg, w, es);
    var a := AccountOf(v, s, t);
    assert Sound(v.logs[t], v.clock, v.subs[s].selector, a);
    ChainsLink(a.made);
  }
}
