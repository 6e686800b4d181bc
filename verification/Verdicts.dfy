/**
 * What an endpoint's answer makes of an attempt.  An observer notes the answer to every send of a run;
 * in every run the record says of each attempt what its answer and its number say, and an attempt that
 * was refused for good is the last of its chain.
 */
module Verdicts {
  import opened Contracts
  import opened Cursors
  import opened Stream
  import opened Dispatch
  import opened Inline
  import opened InlineRuns
  import Chains

  datatype Answer = Answer(ack: bool, retry: bool)

  /** The answers that tasks have and did not record yet, and the answer to each recorded attempt. */
  datatype Notes = Notes(pending: map<string, Answer>, answers: seq<Answer>)

  const BLANK := Notes(map[], [])

  predicate Sends(task: Task) {
    match task
    case Dispatching(_, _, On(Handling(_, _, Sending(_)))) => true
    case Working(_, Redelivering(Sending(_))) => true
    case _ => false
  }

  /** An answer the task has and did not record yet. */
  function Unrecorded(task: Task): Option<Answer> {
    match task
    case Dispatching(_, _, On(Handling(_, _, Sent(_, ack, retry)))) => Some(Answer(ack, retry))
    case Working(_, Redelivering(Sent(_, ack, retry))) => Some(Answer(ack, retry))
    case _ => None
  }

  /** The answer comes with the step that sends; the record grows by the attempt it was the answer to. */
  function Note(w: World, v: World, e: Event, n: Notes): Notes {
    if !e.Run? || e.task !in w.tasks then n
    else if Sends(w.tasks[e.task]) then n.(pending := n.pending[e.task := Answer(e.input.ack, e.input.retry)])
    else if |v.attempts| > |w.attempts| && e.task in n.pending then n.(answers := n.answers + [n.pending[e.task]])
    else n
  }

  ghost function Noted(cfg: Config, w: World, es: seq<Event>, n: Notes): Notes
    requires Possible(cfg, w, es)
    decreases |es|
  {
    if es == [] then n
    else
      var v := Apply(cfg, w, es[0]);
      Noted(cfg, v, es[1..], Note(w, v, es[0], n))
  }

  /** Delivered exactly when acked; given up exactly when not acked, and refused for good or out of attempts. */
  predicate Fits(cfg: Config, a: DeliveryAttempt, answer: Answer) {
    && (a.status == Delivered <==> answer.ack)
    && (a.status == DeadLetter <==> !answer.ack && (!answer.retry || a.attempt >= cfg.maxAttempts))
  }

  ghost predicate Kept(cfg: Config, w: World, n: Notes) {
    && |n.answers| == |w.attempts|
    && (forall i :: 0 <= i < |w.attempts| ==> Fits(cfg, w.attempts[i], n.answers[i]))
    && (forall x :: x in w.tasks && Unrecorded(w.tasks[x]).Some? ==>
          x in n.pending && Unrecorded(w.tasks[x]) == Some(n.pending[x]))
  }

  // --- One step ------------------------------------------------------------------------------------

  /** Answers are what came with the step, or were there before. */
  ghost predicate AnswersFrom(w: World, v: World, e: Event) {
    forall x :: x in v.tasks && Unrecorded(v.tasks[x]).Some? ==>
      && x in w.tasks
      && if e.Run? && x == e.task
         then Sends(w.tasks[x]) && Unrecorded(v.tasks[x]) == Some(Answer(e.input.ack, e.input.retry))
         else v.tasks[x] == w.tasks[x]
  }

  /** The record grows by at most the attempt whose answer the task had. */
  ghost predicate RecordGrows(cfg: Config, w: World, v: World, e: Event) {
    v.attempts == w.attempts
    || (e.Run? && e.task in w.tasks && Unrecorded(w.tasks[e.task]).Some? && |v.attempts| == |w.attempts| + 1
        && v.attempts[..|w.attempts|] == w.attempts
        && Fits(cfg, v.attempts[|w.attempts|], Unrecorded(w.tasks[e.task]).value))
  }

  /** Nothing is recorded, no other task moves, and this one has no answer now. */
  ghost predicate Plain(w: World, v: World, id: string) {
    && v.attempts == w.attempts
    && (forall x :: x in v.tasks && x != id ==> x in w.tasks && v.tasks[x] == w.tasks[x])
    && (id in v.tasks ==> Unrecorded(v.tasks[id]).None?)
  }

  lemma PlainStep(cfg: Config, w: World, v: World, id: string, inp: Input)
    requires Plain(w, v, id)
    ensures AnswersFrom(w, v, Run(id, inp)) && RecordGrows(cfg, w, v, Run(id, inp))
  {
  }

  lemma PlainSet(w: World, u: World, id: string, task: Task)
    requires u.tasks == w.tasks && u.attempts == w.attempts && Unrecorded(task).None?
    ensures Plain(w, SetTask(u, id, task), id) && Plain(w, EndTask(u, id), id)
  {
  }

  /** Storing anything but an attempt, and then going on without an answer or ending. */
  lemma AllPlain(w: World, id: string)
    ensures forall u: World, task: Task {:trigger SetTask(u, id, task)} ::
              u.tasks == w.tasks && u.attempts == w.attempts && Unrecorded(task).None? ==>
              Plain(w, SetTask(u, id, task), id)
    ensures forall u: World {:trigger EndTask(u, id)} ::
              u.tasks == w.tasks && u.attempts == w.attempts ==> Plain(w, EndTask(u, id), id)
  {
    forall u: World, task: Task {:trigger SetTask(u, id, task)}
      | u.tasks == w.tasks && u.attempts == w.attempts && Unrecorded(task).None?
      ensures Plain(w, SetTask(u, id, task), id)
    {
      PlainSet(w, u, id, task);
    }
    forall u: World {:trigger EndTask(u, id)} | u.tasks == w.tasks && u.attempts == w.attempts
      ensures Plain(w, EndTask(u, id), id)
    {
      PlainSet(w, u, id, Working([], Reviewing));
    }
  }

  lemma EffectGrows(cfg: Config, w: World, s: string, t: string, o: nat, phase: Phase, inp: Input)
    requires s in w.subs && Logged(w, t, o)
    ensures var v := Effect(cfg, w, s, t, o, phase, inp);
      && v.tasks == w.tasks
      && if phase.Sent?
         then |v.attempts| == |w.attempts| + 1 && v.attempts[..|w.attempts|] == w.attempts
              && Fits(cfg, v.attempts[|w.attempts|], Answer(phase.ack, phase.retry))
         else v.attempts == w.attempts
  {
    hide Less, Encode;
  }

  lemma PhaseAnswers(cfg: Config, w: World, s: string, t: string, phase: Phase, inp: Input)
    ensures match NextPhase(cfg, w, s, t, phase, inp)
            case Some(Sent(_, ack, retry)) => phase.Sending? && ack == inp.ack && retry == inp.retry
            case _ => true
  {
  }

  /** A step of a delivery, whose task goes on to `next`. */
  lemma DeliveryStep(cfg: Config, w: World, u: World, id: string, inp: Input, phase: Phase, next: Task)
    requires id in w.tasks && u.tasks == w.tasks
    requires Sends(w.tasks[id]) <==> phase.Sending?
    requires Unrecorded(w.tasks[id]) == if phase.Sent? then Some(Answer(phase.ack, phase.retry)) else None
    requires Unrecorded(next).Some? ==> phase.Sending? && Unrecorded(next) == Some(Answer(inp.ack, inp.retry))
    requires if phase.Sent?
             then |u.attempts| == |w.attempts| + 1 && u.attempts[..|w.attempts|] == w.attempts
                  && Fits(cfg, u.attempts[|w.attempts|], Answer(phase.ack, phase.retry))
             else u.attempts == w.attempts
    ensures var v := SetTask(u, id, next); AnswersFrom(w, v, Run(id, inp)) && RecordGrows(cfg, w, v, Run(id, inp))
  {
    hide Fits;
  }

  lemma HandlingStep(cfg: Config, w: World, id: string, s: string, topics: seq<string>, next: nat, hi: nat,
                     phase: Phase, inp: Input)
    requires s in w.subs && topics != [] && topics[0] in w.logs && Logged(w, topics[0], next)
    requires id in w.tasks && w.tasks[id] == Dispatching(s, topics, On(Handling(next, hi, phase)))
    ensures var v := RunCatchUp(cfg, w, id, s, topics, Handling(next, hi, phase), inp);
      AnswersFrom(w, v, Run(id, inp)) && RecordGrows(cfg, w, v, Run(id, inp))
  {
    hide Effect, NextPhase, SetTask, AnswersFrom, RecordGrows, Fits;
    EffectGrows(cfg, w, s, topics[0], next, phase, inp);
    PhaseAnswers(cfg, w, s, topics[0], phase, inp);
    var u := Effect(cfg, w, s, topics[0], next, phase, inp);
    match NextPhase(cfg, w, s, topics[0], phase, inp)
    case Some(p) => DeliveryStep(cfg, w, u, id, inp, phase, Dispatching(s, topics, On(Handling(next, hi, p))));
    case None => DeliveryStep(cfg, w, u, id, inp, phase, Dispatching(s, topics, On(Scanning(next + 1, hi, next))));
  }

  lemma PageStep(cfg: Config, w: World, id: string, s: string, topics: seq<string>, page: PageStage, inp: Input)
    requires s in w.subs && topics != [] && topics[0] in w.logs
    requires !page.Handling? || !Logged(w, topics[0], page.next)
    ensures Plain(w, RunCatchUp(cfg, w, id, s, topics, page, inp), id)
  {
    hide Stream.FirstLive, SetTask, EndTask, Plain, Unrecorded;
    PlainPages(s, topics);
    AllPlain(w, id);
  }

  lemma PlainPages(s: string, topics: seq<string>)
    ensures forall ts: seq<string>, stage: Stage {:trigger Dispatching(s, ts, stage)} ::
              !stage.On? || !stage.page.Handling? ==> Unrecorded(Dispatching(s, ts, stage)).None?
    ensures forall next: nat, hi: nat :: Unrecorded(Dispatching(s, topics, On(Handling(next, hi, Sending(1))))).None?
  {
  }

  lemma DispatchStep(cfg: Config, w: World, id: string, inp: Input)
    requires id in w.tasks && w.tasks[id].Dispatching?
    ensures var v := RunDispatch(cfg, w, id, inp);
      AnswersFrom(w, v, Run(id, inp)) && RecordGrows(cfg, w, v, Run(id, inp))
  {
    hide RunCatchUp, AnswersFrom, RecordGrows, SetTask, EndTask, Plain, Unrecorded;
    var Dispatching(s, topics, stage) := w.tasks[id];
    var v := RunDispatch(cfg, w, id, inp);
    if s in w.subs && stage.On? && topics != [] && topics[0] in w.logs {
      if stage.page.Handling? && Logged(w, topics[0], stage.page.next) {
        HandlingStep(cfg, w, id, s, topics, stage.page.next, stage.page.hi, stage.page.phase, inp);
      } else {
        PageStep(cfg, w, id, s, topics, stage.page, inp);
        PlainStep(cfg, w, v, id, inp);
      }
    } else {
      PlainPages(s, topics);
      AllPlain(w, id);
      PlainStep(cfg, w, v, id, inp);
    }
  }

  lemma RedeliverStep(cfg: Config, w: World, id: string, rest: seq<RetryItem>, phase: Phase, inp: Input)
    requires rest != [] && rest[0].sub in w.subs && Logged(w, rest[0].topic, rest[0].offset) && !phase.HandOver?
    requires id in w.tasks && w.tasks[id] == Working(rest, Redelivering(phase))
    ensures var v := RunWork(cfg, w, id, inp);
      AnswersFrom(w, v, Run(id, inp)) && RecordGrows(cfg, w, v, Run(id, inp))
  {
    hide Effect, NextPhase, SetTask, AnswersFrom, RecordGrows, Fits;
    var item := rest[0];
    EffectGrows(cfg, w, item.sub, item.topic, item.offset, phase, inp);
    PhaseAnswers(cfg, w, item.sub, item.topic, phase, inp);
    var u := Effect(cfg, w, item.sub, item.topic, item.offset, phase, inp);
    match NextPhase(cfg, w, item.sub, item.topic, phase, inp)
    case Some(p) => DeliveryStep(cfg, w, u, id, inp, phase, Working(rest, Redelivering(p)));
    case None => DeliveryStep(cfg, w, u, id, inp, phase, Working(rest, Completing));
  }

  lemma PlainWork(rest: seq<RetryItem>)
    ensures forall ts: seq<RetryItem>, work: WorkStage :: !work.Redelivering? ==> Unrecorded(Working(ts, work)).None?
    ensures forall n: nat :: Unrecorded(Working(rest, Redelivering(Sending(n)))).None?
  {
  }

  lemma WorkStep(cfg: Config, w: World, id: string, inp: Input)
    requires id in w.tasks && w.tasks[id].Working?
    ensures var v := RunWork(cfg, w, id, inp);
      AnswersFrom(w, v, Run(id, inp)) && RecordGrows(cfg, w, v, Run(id, inp))
  {
    hide Effect, NextPhase, Fetch, AnswersFrom, RecordGrows, SetTask, EndTask, Plain, Unrecorded;
    var Working(rest, work) := w.tasks[id];
    if rest != [] && work.Redelivering? && !work.phase.HandOver?
       && rest[0].sub in w.subs && Logged(w, rest[0].topic, rest[0].offset) {
      RedeliverStep(cfg, w, id, rest, work.phase, inp);
    } else {
      PlainWork(rest);
      AllPlain(w, id);
      PlainStep(cfg, w, RunWork(cfg, w, id, inp), id, inp);
    }
  }

  lemma AckStep(w: World, id: string)
    requires id in w.tasks && w.tasks[id].Acking?
    ensures Plain(w, RunAck(w, id), id)
  {
    hide SetTask, EndTask, Plain, Unrecorded, AdvanceCursor;
    AllPlain(w, id);
    PlainAcks(w, w.tasks[id]);
  }

  lemma PlainAcks(w: World, task: Task)
    ensures forall s, t, o, cursor, stage :: Unrecorded(Acking(s, t, o, cursor, stage)).None?
    ensures task.Acking? && task.id in w.subs ==>
              var v := AdvanceCursor(w, task.id, task.topic, task.cursor);
              v.tasks == w.tasks && v.attempts == w.attempts
  {
    hide Less;
  }

  lemma SubscribeStep(cfg: Config, w: World, id: string)
    requires id in w.tasks && w.tasks[id].Subscribing?
    ensures Plain(w, RunSubscribe(cfg, w, id), id)
  {
    hide StartOffset, SetTask, EndTask, Plain, Unrecorded;
    AllPlain(w, id);
    PlainCaptures();
  }

  lemma PlainCaptures()
    ensures forall id, sub, from, todo, starts, heads ::
              Unrecorded(Subscribing(id, sub, from, todo, starts, heads)).None?
    ensures forall id, topics :: Unrecorded(Dispatching(id, topics, Checking)).None?
  {
  }

  lemma PublishStep(cfg: Config, w: World, id: string, inp: Input)
    requires id in w.tasks && w.tasks[id].Publishing?
    ensures var v := RunPublish(cfg, w, id, inp); v.attempts == w.attempts && AnswersFrom(w, v, Run(id, inp))
  {
  }

  lemma ClaimStep(cfg: Config, w: World, task: string, claimed: seq<string>, leased: int)
    requires Enabled(cfg, w, StartWork(task, claimed, leased))
    ensures Plain(w, Apply(cfg, w, StartWork(task, claimed, leased)), task)
  {
    hide SetTask, EndTask, Plain, Unrecorded;
    AllPlain(w, task);
    PlainStarts();
  }

  lemma AskStep(cfg: Config, w: World, task: string, id: string, cursor: string)
    requires Enabled(cfg, w, StartAck(task, id, cursor))
    ensures var v := Apply(cfg, w, StartAck(task, id, cursor));
      Plain(w, v, task) || (v.tasks == w.tasks && v.attempts == w.attempts)
  {
    hide Split, SetTask, EndTask, Plain, Unrecorded;
    AllPlain(w, task);
    PlainStarts();
  }

  lemma BeginStep(cfg: Config, w: World, e: Event)
    requires Enabled(cfg, w, e) && (e.Publish? || e.Subscribe? || e.StartDispatch?)
    ensures Plain(w, Apply(cfg, w, e), e.task)
  {
    hide Fresh, SetTask, EndTask, Plain, Unrecorded;
    AllPlain(w, e.task);
    PlainStarts();
  }

  lemma AsideStep(cfg: Config, w: World, e: Event)
    requires Enabled(cfg, w, e) && (e.Tick? || e.Renew? || e.Delete? || e.Lapse? || e.Crash?)
    ensures var v := Apply(cfg, w, e); (v.tasks == w.tasks || v.tasks == map[]) && v.attempts == w.attempts
  {
  }

  lemma OutsideStep(cfg: Config, w: World, e: Event)
    requires Enabled(cfg, w, e) && !e.Run?
    ensures AnswersFrom(w, Apply(cfg, w, e), e) && Apply(cfg, w, e).attempts == w.attempts
  {
    hide Apply, Enabled, Plain, AnswersFrom;
    var v := Apply(cfg, w, e);
    match e
    case StartWork(task, claimed, leased) =>
      ClaimStep(cfg, w, task, claimed, leased);
      FreshTask(w, v, e, task);
    case StartAck(task, id, cursor) =>
      AskStep(cfg, w, task, id, cursor);
      if Plain(w, v, task) { FreshTask(w, v, e, task); } else { NoTask(w, v, e); }
    case Publish(_, _, _, _) => BeginStep(cfg, w, e); FreshTask(w, v, e, e.task);
    case Subscribe(_, _, _, _) => BeginStep(cfg, w, e); FreshTask(w, v, e, e.task);
    case StartDispatch(_, _, _) => BeginStep(cfg, w, e); FreshTask(w, v, e, e.task);
    case _ => AsideStep(cfg, w, e); NoTask(w, v, e);
  }

  lemma PlainStarts()
    ensures forall topic, offset :: Unrecorded(Publishing(topic, offset)).None?
    ensures forall id, sub, from, todo, starts, heads ::
              Unrecorded(Subscribing(id, sub, from, todo, starts, heads)).None?
    ensures forall id, topics :: Unrecorded(Dispatching(id, topics, Checking)).None?
    ensures forall rest :: Unrecorded(Working(rest, Reviewing)).None?
    ensures forall s, t, o, cursor, stage :: Unrecorded(Acking(s, t, o, cursor, stage)).None?
  {
  }

  lemma FreshTask(w: World, v: World, e: Event, id: string)
    requires !e.Run? && Plain(w, v, id)
    ensures AnswersFrom(w, v, e) && v.attempts == w.attempts
  {
  }

  lemma NoTask(w: World, v: World, e: Event)
    requires !e.Run? && (v.tasks == w.tasks || v.tasks == map[])
    ensures AnswersFrom(w, v, e)
  {
  }

  lemma Step(cfg: Config, w: World, e: Event)
    requires Enabled(cfg, w, e)
    ensures AnswersFrom(w, Apply(cfg, w, e), e) && RecordGrows(cfg, w, Apply(cfg, w, e), e)
  {
    hide RunDispatch, RunWork, RunPublish, RunSubscribe, RunAck, AnswersFrom, Fits, Plain, Unrecorded, Fanned, Fresh;
    var v := Apply(cfg, w, e);
    if e.Run? {
      match w.tasks[e.task]
      case Dispatching(_, _, _) => DispatchStep(cfg, w, e.task, e.input);
      case Working(_, _) => WorkStep(cfg, w, e.task, e.input);
      case Publishing(_, _) => PublishStep(cfg, w, e.task, e.input);
      case Subscribing(_, _, _, _, _, _) =>
        SubscribeStep(cfg, w, e.task);
        PlainStep(cfg, w, v, e.task, e.input);
      case Acking(_, _, _, _, _) =>
        AckStep(w, e.task);
        PlainStep(cfg, w, v, e.task, e.input);
    } else {
      OutsideStep(cfg, w, e);
    }
  }

  lemma StepKept(cfg: Config, w: World, v: World, e: Event, n: Notes)
    requires Kept(cfg, w, n) && AnswersFrom(w, v, e) && RecordGrows(cfg, w, v, e)
    ensures Kept(cfg, v, Note(w, v, e, n))
  {
    hide Fits;
  }

  // --- Every run -------------------------------------------------------------------------------------

  lemma {:induction false} RunsKept(cfg: Config, w: World, es: seq<Event>, n: Notes)
    requires Possible(cfg, w, es) && Kept(cfg, w, n)
    ensures Kept(cfg, Outcome(cfg, w, es), Noted(cfg, w, es, n))
    decreases |es|
  {
    hide Kept, Note, Enabled, Apply;
    if es != [] {
      Step(cfg, w, es[0]);
      StepKept(cfg, w, Apply(cfg, w, es[0]), es[0], n);
      RunsKept(cfg, Apply(cfg, w, es[0]), es[1..], Note(w, Apply(cfg, w, es[0]), es[0], n));
    }
  }

  /**
   * In every run, with crashes and lapsed claims, inline or queued: each recorded attempt had an answer;
   * it is recorded as delivered if and only if the answer acked it, and as a dead letter if and only if
   * the answer did not and either allowed no retry or came to the last attempt there is.
   */
  lemma VerdictsFit(cfg: Config, w: World, es: seq<Event>)
    requires Initial(w) && Possible(cfg, w, es)
    ensures var v, answers := Outcome(cfg, w, es), Noted(cfg, w, es, BLANK).answers;
      && |answers| == |v.attempts|
      && forall i :: 0 <= i < |answers| ==>
           && (v.attempts[i].status == Delivered <==> answers[i].ack)
           && (v.attempts[i].status == DeadLetter <==>
                 !answers[i].ack && (!answers[i].retry || v.attempts[i].attempt >= cfg.maxAttempts))
  {
    hide Possible, Outcome, Noted;
    RunsKept(cfg, w, es, BLANK);
  }

  /** Refused for good: neither acked nor to be tried again. */
  ghost predicate Refused(cfg: Config, w: World, es: seq<Event>, i: nat)
    requires Possible(cfg, w, es)
  {
    var answers := Noted(cfg, w, es, BLANK).answers;
    i < |answers| && !answers[i].ack && !answers[i].retry
  }

  /**
   * An attempt that was refused for good is never followed by another of its chain: in the runs of
   * `Chains` it is the last attempt of its retry id, and if it has none, no retry was ever queued for it.
   */
  lemma RefusedEndsChain(cfg: Config, pace: Chains.Pace, w: World, es: seq<Event>, i: nat, r: string)
    requires Initial(w) && cfg.maxAttempts >= 1 && cfg.queued && Possible(cfg, w, es)
    requires Chains.InTime(cfg, pace, w, es) && r in Outcome(cfg, w, es).hist.issued
    requires Refused(cfg, w, es, i)
    ensures var c := Chains.Noted(cfg, w, es, Chains.UNTAGGED);
      r in c.chains && var tries := c.chains[r].tries; i in tries ==> tries[|tries| - 1] == i
  {
    hide Possible, Outcome, Noted, Chains.Noted, Chains.InTime, Initial, Chains.Waited, Chains.GivenUp;
    VerdictsFit(cfg, w, es);
    Chains.QueuedChains(cfg, pace, w, es, r);
  }

  // --- Inline runs -----------------------------------------------------------------------------------

  lemma {:induction false} MadeGrowsBy(attempts: seq<DeliveryAttempt>, k: nat, s: string, t: string)
    requires k <= |attempts|
    ensures Made(attempts[..k], s, t) <= Made(attempts, s, t)
    decreases |attempts| - k
  {
    if k == |attempts| {
      assert attempts[..k] == attempts;
    } else {
      MadeGrowsBy(attempts, k + 1, s, t);
      assert attempts[..k + 1][..k] == attempts[..k];
    }
  }

  lemma {:induction false} NoneBetween(attempts: seq<DeliveryAttempt>, i: nat, j: nat, s: string, t: string)
    requires i < j <= |attempts| && Concerns(attempts[i], s, t)
    requires forall k :: i < k < j ==> !Concerns(attempts[k], s, t)
    ensures var made := Made(attempts[..j], s, t); made != [] && made[|made| - 1] == attempts[i]
    decreases j
  {
    assert attempts[..j][..j - 1] == attempts[..j - 1];
    if i + 1 < j { NoneBetween(attempts, i, j - 1, s, t); }
  }

  /** Two attempts with none of the same subscription and topic in between are neighbours among those. */
  lemma Neighbours(all: seq<DeliveryAttempt>, i: nat, j: nat, s: string, t: string) returns (n: nat)
    requires i < j < |all| && Concerns(all[i], s, t) && Concerns(all[j], s, t)
    requires forall k :: i < k < j ==> !Concerns(all[k], s, t)
    ensures 0 < n < |Made(all, s, t)| && Made(all, s, t)[n - 1] == all[i] && Made(all, s, t)[n] == all[j]
  {
    NoneBetween(all, i, j, s, t);
    MadeGrowsBy(all, j, s, t);
    MadeGrowsBy(all, j + 1, s, t);
    assert all[..j + 1][..j] == all[..j];
    n := |Made(all[..j], s, t)|;
    assert Made(all[..j + 1], s, t) == Made(all[..j], s, t) + [all[j]];
    assert Made(all[..j], s, t)[n - 1] == Made(all, s, t)[n - 1];
  }

  /**
   * Inline as well: after an attempt that was refused for good, the next attempt of the subscription at the
   * topic is the first of another chain.
   */
  lemma RefusedEndsInline(cfg: Config, w: World, es: seq<Event>, i: nat, j: nat, s: string, t: string)
    requires Initial(w) && cfg.maxAttempts >= 1 && cfg.pageSize >= 1 && !cfg.queued
    requires Possible(cfg, w, es) && InlineRun(es) && Refused(cfg, w, es, i)
    requires var v := Outcome(cfg, w, es);
      && s in v.subs && t in v.subs[s].topics
      && i < j < |v.attempts| && Concerns(v.attempts[i], s, t) && Concerns(v.attempts[j], s, t)
      && forall k :: i < k < j ==> !Concerns(v.attempts[k], s, t)
    ensures Outcome(cfg, w, es).attempts[j].attempt == 1
  {
    hide Possible, Outcome, Noted, Initial, InlineRun, Enabled, Apply, Made, Concerns;
    VerdictsFit(cfg, w, es);
    InlineChains(cfg, w, es, s, t);
    var n := Neighbours(Outcome(cfg, w, es).attempts, i, j, s, t);
  }
}
