/** How the acked cursors of a subscription move. */
module AckedCursors {
  import opened Contracts
  import opened Cursors
  import opened Unissued
  import opened Stream
  import opened Dispatch
  import opened NoLoss
  import opened EndToEnd
  import opened Steps

  // --- In every run, as strings -----------------------------------------------------------------------

  lemma {:induction false} CursorsAdvance(cfg: Config, w: World, es: seq<Event>, s: string)
    requires Invariant(cfg, w) && Possible(cfg, w, es) && s in w.subs
    ensures var v := Outcome(cfg, w, es);
      s in v.subs && Advances(w.subs[s].cursors, v.subs[s].cursors)
    decreases |es|
  {
    hide Invariant;
    if es != [] {
      var x := Apply(cfg, w, es[0]);
      EventKeeps(cfg, w, es[0]);
      EventReceives(cfg, w, es[0]);
      assert Follows(w.subs[s], x.subs[s]);
      CursorsAdvance(cfg, x, es[1..], s);
      var a, b, c := w.subs[s].cursors, x.subs[s].cursors, Outcome(cfg, w, es).subs[s].cursors;
      forall t | t in a ensures t in c && (c[t] == a[t] || Less(a[t], c[t])) {
        if b[t] != a[t] && c[t] != b[t] { LessTransitive(a[t], b[t], c[t]); }
      }
    }
  }

  /**
   * In every run the stored acked cursor of a topic never goes back as a string; so while it is one
   * that the log issues, its offset never decreases.
   */
  lemma AckedNeverBack(cfg: Config, w: World, es: seq<Event>, fs: seq<Event>, s: string, t: string)
    requires Initial(w) && cfg.maxAttempts >= 1 && Possible(cfg, w, es) && Possible(cfg, Outcome(cfg, w, es), fs)
    requires var u := Outcome(cfg, w, es); s in u.subs && t in u.subs[s].cursors
    ensures var u := Outcome(cfg, w, es); var v := Outcome(cfg, u, fs);
      && s in v.subs && t in v.subs[s].cursors
      && var a, b := u.subs[s].cursors[t], v.subs[s].cursors[t];
         && (b == a || Less(a, b))
         && forall m: nat, n: nat :: m < Power(WIDTH) && n < Power(WIDTH) && a == Encode(t, m) && b == Encode(t, n) ==>
           m <= n
  {
    hide Invariant, Possible, Outcome;
    InitialOk(cfg, w);
    RunsKeep(cfg, w, es);
    var u := Outcome(cfg, w, es);
    CursorsAdvance(cfg, u, fs, s);
    var v := Outcome(cfg, u, fs);
    var a, b := u.subs[s].cursors[t], v.subs[s].cursors[t];
    forall m: nat, n: nat | m < Power(WIDTH) && n < Power(WIDTH) && a == Encode(t, m) && b == Encode(t, n)
      ensures m <= n
    {
      EncodeOrder(t, m, n);
      if a == b { EncodeOnce(t, m, n); }
    }
  }

  lemma EncodeOnce(t: string, m: nat, n: nat)
    requires Encode(t, m) == Encode(t, n)
    ensures m == n
  {
    PaddedDenotes(m);
    PaddedDenotes(n);
    assert Encode(t, m)[|t| + 1..] == Padded(m) && Encode(t, n)[|t| + 1..] == Padded(n);
  }

  // --- Cursors the log never issued --------------------------------------------------------------------

  /** `w` with the digits `held` stored as the acked cursor of a topic. */
  function Holding(w: World, s: string, t: string, held: string): World
    requires s in w.subs
  {
    w.(subs := w.subs[s := w.subs[s].(cursors := w.subs[s].cursors[t := t + ":" + held])])
  }

  /** The acked cursor of the topic has an offset of at least `a`. */
  ghost predicate AckedAtLeast(subs: map<string, Subscription>, s: string, t: string, a: nat) {
    s in subs && t in subs[s].cursors &&
    match OffsetOf(subs[s].cursors[t])
    case Success(b) => a <= b
    case Failure(_) => false
  }

  /** The ack of `cursor` begins, moves the stored cursor, and that does not take the offset below `a`. */
  ghost predicate AckKeeps(cfg: Config, w: World, task: string, s: string, t: string, a: nat, cursor: string,
                           inp: Input) {
    && Enabled(cfg, w, StartAck(task, s, cursor))
    && var x := Apply(cfg, w, StartAck(task, s, cursor));
       && Enabled(cfg, x, Run(task, inp))
       && AckedAtLeast(Apply(cfg, x, Run(task, inp)).subs, s, t, a)
  }

  ghost predicate MayAck(w: World, task: string, s: string, t: string) {
    task !in w.tasks && s in w.subs && t != "" && t in w.subs[s].topics && Serving(w, s)
  }

  /** The first step of an accepted ack. */
  lemma AckMoves(cfg: Config, w: World, task: string, s: string, t: string, o: nat, cursor: string, inp: Input)
    requires MayAck(w, task, s, t) && Split(cursor) == Success((t, o))
    requires (inp.ack ==> inp.taken) && inp.retryId !in w.hist.issued
    ensures Enabled(cfg, w, StartAck(task, s, cursor))
    ensures var x := Apply(cfg, w, StartAck(task, s, cursor));
      Enabled(cfg, x, Run(task, inp)) && Apply(cfg, x, Run(task, inp)).subs == AdvanceCursor(w, s, t, cursor).subs
  {
    hide Enabled, Apply, SetTask, EndTask, Split, AdvanceCursor, SetMark, RunAck, AckBegun;
    AckStarts(cfg, w, task, s, cursor);
    assert ExpireIfDue(w, s) == w;
    AckBegins(w, task, s, cursor);
    var a, b := Acking(s, t, o, cursor, AckCursor), Acking(s, t, o, cursor, AckRead);
    AckEnds(w, task, a, b, b, s, t, o, cursor);
    TaskAside(w, task, a);
    AckEnabled(cfg, SetTask(w, task, a), task, inp);
    AckWorld(SetTask(w, task, a), task, s, t, o, cursor, AckCursor);
    TaskAside(AdvanceCursor(w, s, t, cursor), task, b);
  }

  lemma HoldingMay(w: World, task: string, s: string, t: string, held: string)
    requires MayAck(w, task, s, t)
    ensures s in w.subs && t != "" && MayAck(Holding(w, s, t, held), task, s, t)
    ensures Holding(w, s, t, held).hist == w.hist
  {
  }

  /** What an advance to other digits makes of the stored ones. */
  lemma HoldingMoves(w: World, s: string, t: string, held: string, raw: string)
    requires s in w.subs && t != "" && AllDigits(held) && held != "" && AllDigits(raw) && raw != ""
    ensures var v, cursor := Holding(w, s, t, held), t + ":" + raw;
      && s in v.subs
      && (AckedAtLeast(AdvanceCursor(v, s, t, cursor).subs, s, t, Number(held))
          <==> (Less(t + ":" + held, cursor) ==> Number(held) <= Number(raw)))
  {
    hide Split, Less, Number;
    SplitDigits(t, raw);
    SplitDigits(t, held);
  }

  lemma AckKeepsOne(cfg: Config, w: World, task: string, s: string, t: string, held: string, raw: string, inp: Input)
    requires MayAck(w, task, s, t) && AllDigits(held) && held != "" && AllDigits(raw) && raw != ""
    requires (inp.ack ==> inp.taken) && inp.retryId !in w.hist.issued
    ensures AckKeeps(cfg, Holding(w, s, t, held), task, s, t, Number(held), t + ":" + raw, inp)
       <==> (Less(t + ":" + held, t + ":" + raw) ==> Number(held) <= Number(raw))
  {
    hide MayAck, Enabled, Apply, Split, Less, Number, AdvanceCursor, Holding, AckedAtLeast;
    HoldingMay(w, task, s, t, held);
    SplitDigits(t, raw);
    AckMoves(cfg, Holding(w, s, t, held), task, s, t, Number(raw), t + ":" + raw, inp);
    HoldingMoves(w, s, t, held, raw);
  }

  /**
   * Which acks are safe whatever is stored: an ack whose cursor has the digits `raw` never takes the
   * acked offset back, over any stored cursor, if and only if the digits denote zero.
   */
  lemma AckBackAnywhere(cfg: Config, w: World, task: string, s: string, t: string, raw: string, inp: Input)
    requires MayAck(w, task, s, t) && AllDigits(raw) && raw != ""
    requires (inp.ack ==> inp.taken) && inp.retryId !in w.hist.issued
    ensures (forall held :: AllDigits(held) && held != "" ==>
               AckKeeps(cfg, Holding(w, s, t, held), task, s, t, Number(held), t + ":" + raw, inp))
       <==> Number(raw) == 0
  {
    hide AckKeeps, Holding, Less, Number;
    forall held | AllDigits(held) && held != ""
      ensures AckKeeps(cfg, Holding(w, s, t, held), task, s, t, Number(held), t + ":" + raw, inp)
         <==> (Less(t + ":" + held, t + ":" + raw) ==> Number(held) <= Number(raw))
    {
      AckKeepsOne(cfg, w, task, s, t, held, raw, inp);
    }
    NeverBackAnywhereExactly(t, raw);
  }

  /**
   * Over stored cursors that were issued more are safe: the digits must be at least as wide as the
   * padding, or denote zero.
   */
  lemma AckBackExactly(cfg: Config, w: World, task: string, s: string, t: string, raw: string, inp: Input)
    requires MayAck(w, task, s, t) && AllDigits(raw) && raw != ""
    requires (inp.ack ==> inp.taken) && inp.retryId !in w.hist.issued
    ensures (forall a: nat :: a < Power(WIDTH) ==>
               AckKeeps(cfg, Holding(w, s, t, Padded(a)), task, s, t, a, t + ":" + raw, inp))
       <==> |raw| >= WIDTH || Number(raw) == 0
  {
    hide AckKeeps, Holding, Less, Number, Padded, Power;
    forall a: nat
      ensures AckKeeps(cfg, Holding(w, s, t, Padded(a)), task, s, t, a, t + ":" + raw, inp)
         <==> (Less(Encode(t, a), t + ":" + raw) ==> a <= Number(raw))
    {
      PaddedDenotes(a);
      AckKeepsOne(cfg, w, task, s, t, Padded(a), raw, inp);
    }
    NeverBackExactly(t, raw);
  }

  /**
   * And which stored cursors no issued one takes back, whether it comes with a delivery or with an ack:
   * those no wider than the padding, of offset zero or one, or past every issued cursor.
   */
  lemma HeldBackExactly(w: World, s: string, t: string, held: string)
    requires s in w.subs && t != "" && AllDigits(held) && held != ""
    ensures s in Holding(w, s, t, held).subs
    ensures (forall o: nat :: o < Power(WIDTH) ==>
               AckedAtLeast(AdvanceCursor(Holding(w, s, t, held), s, t, Encode(t, o)).subs, s, t, Number(held)))
       <==> |held| <= WIDTH || Number(held) <= 1 || Number(held[..WIDTH]) == Power(WIDTH) - 1
  {
    hide AckedAtLeast, AdvanceCursor, Less, Number, Padded, Power;
    forall o: nat
      ensures AckedAtLeast(AdvanceCursor(Holding(w, s, t, held), s, t, Encode(t, o)).subs, s, t, Number(held))
         <==> (Less(t + ":" + held, Encode(t, o)) ==> Number(held) <= o)
    {
      PaddedDenotes(o);
      HoldingMoves(w, s, t, held, Padded(o));
    }
    NeverTakenExactly(t, held);
  }

  // --- Runs whose acks carry issued cursors only ------------------------------------------------------

  /** A cursor as the log of `t` issues it, within the padding. */
  ghost predicate Issued(t: string, c: string) { exists o: nat :: o < Power(WIDTH) && c == Encode(t, o) }

  /** No ack under way is going to store anything else, and no new subscription has a cursor. */
  ghost predicate TaskIssued(task: Task, t: string) {
    && (task.Acking? && task.topic == t ==> Issued(t, task.cursor))
    && (task.Subscribing? ==> task.sub.cursors == map[])
  }

  /** Every acked cursor of the topic was issued, and so is every one about to be stored. */
  ghost predicate OnlyIssued(w: World, t: string) {
    && (forall s :: s in w.subs && t in w.subs[s].cursors ==> Issued(t, w.subs[s].cursors[t]))
    && (forall id :: id in w.tasks ==> TaskIssued(w.tasks[id], t))
  }

  /** An ack that names the topic carries a cursor its log issues. */
  ghost predicate AckIssued(e: Event, t: string) {
    e.StartAck? && Split(e.cursor).Success? && Split(e.cursor).value.0 == t ==> Issued(t, e.cursor)
  }

  /** The log of the topic is within the padding. */
  predicate Within(w: World, t: string) { t in w.logs ==> |w.logs[t].recs| <= Power(WIDTH) }

  lemma TaskIssues(w: World, id: string, task: Task, t: string)
    requires OnlyIssued(w, t) && TaskIssued(task, t)
    ensures OnlyIssued(SetTask(w, id, task), t) && OnlyIssued(EndTask(w, id), t)
  {
    hide Issued;
  }

  lemma AsideIssues(w: World, v: World, t: string)
    requires OnlyIssued(w, t) && v.subs == w.subs && v.tasks == w.tasks
    ensures OnlyIssued(v, t)
  {
    hide Issued, TaskIssued;
  }

  lemma MarkIssues(w: World, s: string, x: string, o: nat, t: string)
    requires OnlyIssued(w, t)
    ensures OnlyIssued(SetMark(w, s, x, o), t) && OnlyIssued(AckMark(w, s, x, o), t)
  {
    hide OnlyIssued;
    AsideIssues(w, SetMark(w, s, x, o), t);
    AsideIssues(w, AckMark(w, s, x, o), t);
  }

  /** Status and lease may change, cursors do not. */
  lemma SubIssues(w: World, s: string, status: SubscriptionStatus, leaseUntil: int, t: string)
    requires OnlyIssued(w, t) && s in w.subs
    ensures OnlyIssued(w.(subs := w.subs[s := w.subs[s].(status := status, leaseUntil := leaseUntil)]), t)
  {
    hide Issued, TaskIssued;
  }

  lemma ExpireIssues(w: World, s: string, t: string)
    requires OnlyIssued(w, t) && s in w.subs
    ensures OnlyIssued(ExpireIfDue(w, s), t)
  {
    SubIssues(w, s, Expired, w.subs[s].leaseUntil, t);
    hide OnlyIssued;
  }

  lemma AdvanceIssues(w: World, s: string, x: string, cursor: string, t: string)
    requires OnlyIssued(w, t) && s in w.subs && (x == t ==> Issued(t, cursor))
    ensures OnlyIssued(AdvanceCursor(w, s, x, cursor), t)
  {
    hide Issued, TaskIssued, Less;
  }

  lemma EffectIssues(cfg: Config, w: World, s: string, x: string, o: nat, phase: Phase, inp: Input, t: string)
    requires OnlyIssued(w, t) && s in w.subs && Logged(w, x, o) && Within(w, t)
    ensures OnlyIssued(Effect(cfg, w, s, x, o, phase, inp), t)
  {
    if phase.Acknowledge? {
      hide OnlyIssued, AdvanceCursor, Encode, Power;
      AdvanceIssues(w, s, x, Encode(x, o), t);
    } else {
      hide OnlyIssued, Encode, Power, StatusOf, Mark;
      AsideIssues(w, Effect(cfg, w, s, x, o, phase, inp), t);
    }
  }

  // --- The steps of each kind of task -----------------------------------------------------------------

  lemma PageIssues(w: World, id: string, s: string, topics: seq<string>, page: PageStage, t: string)
    requires OnlyIssued(w, t)
    ensures OnlyIssued(OnPage(w, id, s, topics, page), t) && OnlyIssued(Release(w, id, s), t)
  {
    hide OnlyIssued;
    TaskIssues(w, id, Dispatching(s, topics, On(page)), t);
    AsideIssues(w, w.(locks := w.locks - {s}), t);
    TaskIssues(w.(locks := w.locks - {s}), id, Dispatching(s, topics, On(page)), t);
  }

  lemma OpenIssues(w: World, id: string, s: string, topics: seq<string>, page: Page, position: int, t: string)
    requires OnlyIssued(w, t) && topics != [] && page.Range? && page.lo <= page.hi
    ensures OnlyIssued(OpenPage(w, id, s, topics, page, position), t)
  {
    hide OnlyIssued;
    TaskIssues(w, id, Dispatching(s, topics[1..], Position), t);
    AsideIssues(w, SeePage(w, s, topics[0], page.lo, page.hi), t);
    TaskIssues(SeePage(w, s, topics[0], page.lo, page.hi), id,
               Dispatching(s, topics, On(Scanning(page.lo, page.hi, position))), t);
  }

  lemma HandlingIssues(cfg: Config, w: World, id: string, s: string, topics: seq<string>, page: PageStage, inp: Input,
                       t: string)
    requires OnlyIssued(w, t) && Within(w, t) && s in w.subs && topics != [] && topics[0] in w.logs && page.Handling?
    ensures OnlyIssued(RunCatchUp(cfg, w, id, s, topics, page, inp), t)
  {
    hide OnlyIssued, Effect, NextPhase, Release, OnPage, Within;
    var x := topics[0];
    var Handling(next, hi, phase) := page;
    PageIssues(w, id, s, topics, page, t);
    if Logged(w, x, next) {
      EffectIssues(cfg, w, s, x, next, phase, inp, t);
      var v := Effect(cfg, w, s, x, next, phase, inp);
      match NextPhase(cfg, w, s, x, phase, inp)
      case Some(p) => PageIssues(v, id, s, topics, Handling(next, hi, p), t);
      case None => PageIssues(v, id, s, topics, Scanning(next + 1, hi, next), t);
    }
  }

  lemma CatchUpIssues(cfg: Config, w: World, id: string, s: string, topics: seq<string>, page: PageStage, inp: Input,
                      t: string)
    requires OnlyIssued(w, t) && Within(w, t) && s in w.subs && topics != [] && topics[0] in w.logs
    ensures OnlyIssued(RunCatchUp(cfg, w, id, s, topics, page, inp), t)
  {
    hide OnlyIssued, Effect, NextPhase, OpenPage, OnPage, Release, SetTask, SetMark, Mark, Within;
    var log := w.logs[topics[0]];
    match page
    case Fetching(position) =>
      var p := Fetch(log, w.clock, position, |log.recs|, cfg.pageSize);
      if p.Stale? { PageIssues(w, id, s, topics, Refetching(position), t); }
      else { OpenIssues(w, id, s, topics, p, position, t); }
    case Refetching(position) =>
      OpenIssues(w, id, s, topics, Fetch(log, w.clock, -1, |log.recs|, cfg.pageSize), position, t);
    case Scanning(next, hi, scan) =>
      if next >= hi { PageIssues(w, id, s, topics, Settling(scan), t); }
      else if next <= scan { PageIssues(w, id, s, topics, Scanning(next + 1, hi, scan), t); }
      else if Matched(w, s, topics[0], next) { PageIssues(w, id, s, topics, Handling(next, hi, Sending(1)), t); }
      else { PageIssues(w, id, s, topics, Scanning(next + 1, hi, next), t); }
    case Handling(_, _, _) => HandlingIssues(cfg, w, id, s, topics, page, inp, t);
    case Settling(scan) => PageIssues(w, id, s, topics, SettleMark(scan, Mark(w, s, topics[0])), t);
    case SettleMark(scan, mark) =>
      SetMarkAside(w, s, topics[0], scan);
      AsideIssues(w, SetMark(w, s, topics[0], scan), t);
      TaskIssues(if scan > mark then SetMark(w, s, topics[0], scan) else w, id, Dispatching(s, topics, Position), t);
  }

  lemma SetMarkAside(w: World, s: string, x: string, o: int)
    ensures SetMark(w, s, x, o).subs == w.subs && SetMark(w, s, x, o).tasks == w.tasks
  {
  }

  lemma DispatchIssues(cfg: Config, w: World, id: string, inp: Input, t: string)
    requires OnlyIssued(w, t) && Within(w, t) && id in w.tasks && w.tasks[id].Dispatching?
    ensures OnlyIssued(RunDispatch(cfg, w, id, inp), t)
  {
    hide OnlyIssued, RunCatchUp, Mark, ExpireIfDue, SetTask, EndTask, OnPage, Release, Within;
    var Dispatching(s, topics, stage) := w.tasks[id];
    TaskIssues(w, id, Dispatching(s, topics, Waiting), t);
    if s in w.subs {
      if stage.Checking? {
        var x := ExpireIfDue(w, s);
        ExpireIssues(w, s, t);
        TaskIssues(x, id, Dispatching(s, topics, Waiting), t);
        var y := x.(hist := x.hist.(lapsed := x.hist.lapsed + {s}));
        AsideIssues(x, y, t);
        TaskIssues(y, id, Dispatching(s, topics, Waiting), t);
      } else if stage.Waiting? {
        var x := w.(locks := w.locks[s := id]);
        AsideIssues(w, x, t);
        TaskIssues(x, id, Dispatching(s, topics, Position), t);
      } else if topics == [] || stage.Position? || topics[0] !in w.logs {
        PageIssues(w, id, s, topics, if topics == [] then Settling(0) else Fetching(Mark(w, s, topics[0])), t);
      } else {
        CatchUpIssues(cfg, w, id, s, topics, stage.page, inp, t);
      }
    }
  }

  lemma RetryIssues(cfg: Config, w: World, id: string, inp: Input, t: string)
    requires OnlyIssued(w, t) && Within(w, t) && id in w.tasks && w.tasks[id].Working?
    requires w.tasks[id].rest != [] && w.tasks[id].work.Redelivering?
    ensures OnlyIssued(RunWork(cfg, w, id, inp), t)
  {
    hide OnlyIssued, Effect, NextPhase, SetTask, Within;
    var Working(rest, work) := w.tasks[id];
    var item, phase := rest[0], work.phase;
    if item.sub !in w.subs || !Logged(w, item.topic, item.offset) {
      TaskIssues(w, id, Working(rest, Completing), t);
    } else if phase.HandOver? {
      RescheduleWorld(cfg, w, id, rest, phase.n, inp);
      hide RunWork;
      AsideIssues(w, PostponedIn(w, item.retryId, phase.n, inp.at), t);
      TaskIssues(PostponedIn(w, item.retryId, phase.n, inp.at), id, Working(rest[1..], Reviewing), t);
    } else {
      var v := Effect(cfg, w, item.sub, item.topic, item.offset, phase, inp);
      EffectIssues(cfg, w, item.sub, item.topic, item.offset, phase, inp, t);
      match NextPhase(cfg, w, item.sub, item.topic, phase, inp)
      case Some(p) => TaskIssues(v, id, Working(rest, Redelivering(p)), t);
      case None => TaskIssues(v, id, Working(rest, Completing), t);
    }
  }

  lemma WorkIssues(cfg: Config, w: World, id: string, inp: Input, t: string)
    requires OnlyIssued(w, t) && Within(w, t) && id in w.tasks && w.tasks[id].Working?
    ensures OnlyIssued(RunWork(cfg, w, id, inp), t)
  {
    hide OnlyIssued, SetTask, EndTask, Loads, Within;
    var Working(rest, work) := w.tasks[id];
    TaskIssues(w, id, Working(rest, Completing), t);
    if rest != [] {
      match work
      case Reviewing =>
        ReviewWorld(cfg, w, id, rest, inp);
        AsideIssues(w, Drop(w, rest[0]), t);
        TaskIssues(Drop(w, rest[0]), id, Working(rest, Completing), t);
        TaskIssues(w, id, Working(rest, Loading), t);
        hide RunWork, Drop;
      case Completing =>
        CompleteWorld(cfg, w, id, rest, inp);
        var x := w.(queue := w.queue - {rest[0].retryId});
        AsideIssues(w, x, t);
        TaskIssues(x, id, Working(rest[1..], Reviewing), t);
        hide RunWork;
      case Redelivering(_) =>
        RetryIssues(cfg, w, id, inp, t);
        hide RunWork;
      case _ =>
        if rest[0].topic in w.logs {
          LoadStep(cfg, w, id, rest, work, inp);
          TaskIssues(w, id, Working(rest, Loads(w, rest[0], work)), t);
          hide RunWork;
        }
    }
  }

  lemma AckIssues(w: World, id: string, t: string)
    requires OnlyIssued(w, t) && id in w.tasks && w.tasks[id].Acking?
    ensures OnlyIssued(RunAck(w, id), t)
  {
    var Acking(s, x, o, cursor, stage) := w.tasks[id];
    assert TaskIssued(w.tasks[id], t);
    hide OnlyIssued, Issued, AdvanceCursor, AckMark, Mark, SetTask, EndTask;
    TaskIssues(w, id, w.tasks[id], t);
    if s in w.subs {
      match stage
      case AckCursor =>
        AdvanceIssues(w, s, x, cursor, t);
        TaskIssues(AdvanceCursor(w, s, x, cursor), id, Acking(s, x, o, cursor, AckRead), t);
      case AckRead => TaskIssues(w, id, Acking(s, x, o, cursor, AckWrite(Mark(w, s, x))), t);
      case AckWrite(_) =>
        MarkIssues(w, s, x, o, t);
        TaskIssues(AckMark(w, s, x, o), id, w.tasks[id], t);
    }
  }

  lemma AddedIssues(w: World, s: string, sub: Subscription, starts: map<string, int>, taken: Taken, t: string)
    requires OnlyIssued(w, t) && sub.cursors == map[]
    ensures OnlyIssued(Added(w, s, sub, starts, taken), t)
  {
    hide Issued, TaskIssued;
  }

  lemma SubscribeIssues(cfg: Config, w: World, id: string, t: string)
    requires OnlyIssued(w, t) && id in w.tasks && w.tasks[id].Subscribing?
    ensures OnlyIssued(RunSubscribe(cfg, w, id), t)
  {
    var Subscribing(s, sub, from, todo, starts, heads) := w.tasks[id];
    assert TaskIssued(w.tasks[id], t);
    hide OnlyIssued, Issued, Added, StartOffset, SetTask, EndTask;
    TaskIssues(w, id, w.tasks[id], t);
    var x := Added(w, s, sub, starts, Taken(from, heads));
    AddedIssues(w, s, sub, starts, Taken(from, heads), t);
    TaskIssues(x, id, Dispatching(s, sub.topics, Checking), t);
    if todo != [] && todo[0] in w.logs && StartOffset(w.logs[todo[0]], w.clock, todo[0], from).Some? {
      var o := StartOffset(w.logs[todo[0]], w.clock, todo[0], from).value;
      TaskIssues(w, id, Subscribing(s, sub, from, todo[1..], starts[todo[0] := o],
                                    heads[todo[0] := |w.logs[todo[0]].recs|]), t);
    }
  }

  lemma PublishIssues(cfg: Config, w: World, id: string, inp: Input, t: string)
    requires OnlyIssued(w, t) && id in w.tasks && w.tasks[id].Publishing?
    ensures OnlyIssued(RunPublish(cfg, w, id, inp), t)
  {
    hide Issued;
  }

  lemma RunIssues(cfg: Config, w: World, id: string, inp: Input, t: string)
    requires OnlyIssued(w, t) && Within(w, t) && Enabled(cfg, w, Run(id, inp))
    ensures OnlyIssued(Apply(cfg, w, Run(id, inp)), t)
  {
    hide OnlyIssued, RunWork, RunDispatch, RunAck, RunSubscribe, RunPublish, Fanned, Blocked, Within;
    match w.tasks[id]
    case Working(_, _) => WorkIssues(cfg, w, id, inp, t);
    case Dispatching(_, _, _) => DispatchIssues(cfg, w, id, inp, t);
    case Acking(_, _, _, _, _) => AckIssues(w, id, t);
    case Subscribing(_, _, _, _, _, _) => SubscribeIssues(cfg, w, id, t);
    case Publishing(_, _) => PublishIssues(cfg, w, id, inp, t);
  }

  lemma StartAckIssues(cfg: Config, w: World, e: Event, t: string)
    requires OnlyIssued(w, t) && Enabled(cfg, w, e) && e.StartAck? && AckIssued(e, t)
    ensures OnlyIssued(Apply(cfg, w, e), t)
  {
    hide OnlyIssued, Issued, Split, ExpireIfDue, SetTask;
    var x := ExpireIfDue(w, e.id);
    ExpireIssues(w, e.id, t);
    if Split(e.cursor).Success? {
      var (y, o) := Split(e.cursor).value;
      TaskIssues(x, e.task, Acking(e.id, y, o, e.cursor, AckCursor), t);
    }
  }

  lemma OtherIssues(cfg: Config, w: World, e: Event, t: string)
    requires OnlyIssued(w, t) && Enabled(cfg, w, e) && !e.Run? && !e.StartAck?
    ensures OnlyIssued(Apply(cfg, w, e), t)
  {
    hide OnlyIssued, RunWork, RunDispatch, RunAck, RunSubscribe, RunPublish, Fresh, Fanned, Blocked, ExpireIfDue,
      SetTask, Leased;
    var v := Apply(cfg, w, e);
    match e
    case Tick(_) => AsideIssues(w, v, t);
    case Publish(task, topic, eventId, content) =>
      var log := w.logs[topic];
      var record := EventRecord(eventId, topic, |log.recs|, content, w.clock);
      var x := w.(logs := w.logs[topic := log.(recs := log.recs + [record])]);
      AsideIssues(w, x, t);
      TaskIssues(x, task, Publishing(topic, |log.recs|), t);
    case Subscribe(task, id, sub, from) => TaskIssues(w, task, Subscribing(id, sub, from, sub.topics, map[], map[]), t);
    case StartDispatch(task, id, topics) => TaskIssues(w, task, Dispatching(id, topics, Checking), t);
    case StartWork(task, claimed, leased) =>
      ClaimStep(cfg, w, task, claimed, leased);
      LeasedIssues(w, claimed, leased, t);
      TaskIssues(Leased(w, claimed, leased), task, Working(LeasedItems(w.queue, claimed, leased), Reviewing), t);
    case Renew(id, leaseUntil) => SubIssues(w, id, Active, leaseUntil, t);
    case Delete(id) => SubIssues(w, id, Deleted, w.subs[id].leaseUntil, t);
    case Lapse(id) => ExpireIssues(w, id, t);
    case Crash => CrashIssues(w, t);
  }

  lemma LeasedIssues(w: World, claimed: seq<string>, leased: int, t: string)
    requires OnlyIssued(w, t)
    ensures OnlyIssued(Leased(w, claimed, leased), t)
  {
    hide OnlyIssued;
    AsideIssues(w, Leased(w, claimed, leased), t);
  }

  lemma CrashIssues(w: World, t: string)
    requires OnlyIssued(w, t)
    ensures OnlyIssued(w.(tasks := map[], locks := map[]), t)
  {
    hide Issued;
  }

  lemma EventIssues(cfg: Config, w: World, e: Event, t: string)
    requires OnlyIssued(w, t) && Within(w, t) && Enabled(cfg, w, e) && AckIssued(e, t)
    ensures OnlyIssued(Apply(cfg, w, e), t)
  {
    hide OnlyIssued, Enabled, Apply, Within, AckIssued;
    if e.Run? { RunIssues(cfg, w, e.task, e.input, t); }
    else if e.StartAck? { StartAckIssues(cfg, w, e, t); }
    else { OtherIssues(cfg, w, e, t); }
  }

  // --- Along a run ------------------------------------------------------------------------------------

  lemma ShorterWithin(w: World, v: World, t: string)
    requires Extends(w, v) && Within(v, t)
    ensures Within(w, t)
  {
    hide Power, Follows;
  }

  lemma {:induction false} LogsWithin(cfg: Config, w: World, es: seq<Event>, t: string)
    requires Invariant(cfg, w) && Possible(cfg, w, es) && Within(Outcome(cfg, w, es), t)
    ensures Within(w, t)
    decreases |es|
  {
    hide Invariant, Within;
    if es != [] {
      EventKeeps(cfg, w, es[0]);
      EventReceives(cfg, w, es[0]);
      LogsWithin(cfg, Apply(cfg, w, es[0]), es[1..], t);
      ShorterWithin(w, Apply(cfg, w, es[0]), t);
    }
  }

  lemma {:induction false} RunsIssue(cfg: Config, w: World, es: seq<Event>, t: string)
    requires Invariant(cfg, w) && OnlyIssued(w, t) && Possible(cfg, w, es) && Within(Outcome(cfg, w, es), t)
    requires forall e :: e in es ==> AckIssued(e, t)
    ensures OnlyIssued(Outcome(cfg, w, es), t) && Invariant(cfg, Outcome(cfg, w, es))
    decreases |es|
  {
    hide Invariant, OnlyIssued, Within, AckIssued;
    if es != [] {
      LogsWithin(cfg, w, es, t);
      EventKeeps(cfg, w, es[0]);
      EventIssues(cfg, w, es[0], t);
      RunsIssue(cfg, Apply(cfg, w, es[0]), es[1..], t);
    }
  }

  /**
   * What a subscriber can rely on: while every explicit ack on a topic carries a cursor its log issues,
   * and the log is within 10^16 events, every stored acked cursor was issued, and its offset never
   * decreases, whatever else happens.
   */
  lemma IssuedAcksNeverBack(cfg: Config, w: World, es: seq<Event>, fs: seq<Event>, s: string, t: string)
    requires Initial(w) && cfg.maxAttempts >= 1 && Possible(cfg, w, es) && Possible(cfg, Outcome(cfg, w, es), fs)
    requires forall e :: e in es || e in fs ==> AckIssued(e, t)
    requires Within(Outcome(cfg, Outcome(cfg, w, es), fs), t)
    requires var u := Outcome(cfg, w, es); s in u.subs && t in u.subs[s].cursors
    ensures var u := Outcome(cfg, w, es); var v := Outcome(cfg, u, fs);
      && s in v.subs && t in v.subs[s].cursors
      && exists m: nat, n: nat :: m <= n < Power(WIDTH) && u.subs[s].cursors[t] == Encode(t, m)
                                  && v.subs[s].cursors[t] == Encode(t, n)
  {
    AckedNeverBack(cfg, w, es, fs, s, t);
    var u := Outcome(cfg, w, es);
    var v := Outcome(cfg, u, fs);
    assert OnlyIssued(w, t);
    InitialOk(cfg, w);
    hide Invariant, Possible, Outcome, Within, AckIssued, Encode, Power;
    RunsKeep(cfg, w, es);
    LogsWithin(cfg, u, fs, t);
    RunsIssue(cfg, w, es, t);
    RunsIssue(cfg, u, fs, t);
    assert Issued(t, u.subs[s].cursors[t]) && Issued(t, v.subs[s].cursors[t]);
    var m: nat :| m < Power(WIDTH) && u.subs[s].cursors[t] == Encode(t, m);
    var n: nat :| n < Power(WIDTH) && v.subs[s].cursors[t] == Encode(t, n);
  }
}
