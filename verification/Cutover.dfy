/** Where a new subscription starts. */
module Cutover {
  import opened Contracts
  import opened Cursors
  import opened Stream
  import opened Dispatch
  import opened NoLoss
  import opened EndToEnd
  import opened Steps

  /** The start offset of one topic, given what was asked for and the log length at capture. */
  predicate Captured(from: From, t: string, start: int, head: nat) {
    match from
    case Earliest => start == -1
    case Latest => start == head - 1
    case After(topic, offset) => start == if topic == t then offset else head - 1
  }

  ghost predicate Captures(logs: map<string, Stream>, from: From, starts: map<string, int>, heads: map<string, nat>) {
    && starts.Keys == heads.Keys
    && forall t :: t in starts ==>
         t in logs && heads[t] <= |logs[t].recs| && Captured(from, t, starts[t], heads[t])
  }

  /** Every start offset was captured as asked, from a log at least as long since. */
  ghost predicate StartsOk(w: World) {
    && (forall s :: s in w.subs ==> s in w.hist.starts)
    && (forall s :: s in w.hist.starts ==>
          && s in w.hist.taken
          && Captures(w.logs, w.hist.taken[s].from, w.hist.starts[s], w.hist.taken[s].heads))
    && (forall s, t :: s in w.subs && t in w.subs[s].topics ==> t in w.hist.starts[s])
    && (forall id :: id in w.tasks && w.tasks[id].Subscribing? ==> TakingOk(w, w.tasks[id]))
  }

  ghost predicate TakingOk(w: World, task: Task)
    requires task.Subscribing?
  {
    && Captures(w.logs, task.from, task.starts, task.heads)
    && forall t :: t in task.sub.topics ==> t in task.starts || t in task.todo
  }

  // --- Every event keeps it -------------------------------------------------------------------

  lemma CapturesStay(a: map<string, Stream>, b: map<string, Stream>, from: From,
                     starts: map<string, int>, heads: map<string, nat>)
    requires Captures(a, from, starts, heads)
    requires forall t :: t in a ==> t in b && |a[t].recs| <= |b[t].recs|
    ensures Captures(b, from, starts, heads)
  {
  }

  /** Steps that touch neither the captures nor a subscribing task. */
  ghost predicate LeavesStarts(w: World, v: World) {
    && v.hist.starts == w.hist.starts && v.hist.taken == w.hist.taken
    && v.subs.Keys == w.subs.Keys && (forall s :: s in w.subs ==> v.subs[s].topics == w.subs[s].topics)
    && (forall t :: t in w.logs ==> t in v.logs && |w.logs[t].recs| <= |v.logs[t].recs|)
    && (forall id :: id in v.tasks && v.tasks[id].Subscribing? ==>
          (id in w.tasks && v.tasks[id] == w.tasks[id]) || TakingOk(v, v.tasks[id]))
  }

  lemma LeftStarts(w: World, v: World)
    requires StartsOk(w) && LeavesStarts(w, v)
    ensures StartsOk(v)
  {
    forall s | s in v.hist.starts
      ensures Captures(v.logs, v.hist.taken[s].from, v.hist.starts[s], v.hist.taken[s].heads)
    {
      CapturesStay(w.logs, v.logs, w.hist.taken[s].from, w.hist.starts[s], w.hist.taken[s].heads);
    }
    forall id | id in v.tasks && v.tasks[id].Subscribing? ensures TakingOk(v, v.tasks[id]) {
      if id in w.tasks && v.tasks[id] == w.tasks[id] {
        CapturesStay(w.logs, v.logs, w.tasks[id].from, w.tasks[id].starts, w.tasks[id].heads);
      }
    }
  }

  lemma TaskLeaves(w: World, id: string, task: Task)
    requires task.Subscribing? ==> TakingOk(w, task)
    ensures LeavesStarts(w, SetTask(w, id, task))
  {
    assert task.Subscribing? ==> TakingOk(SetTask(w, id, task), task);
  }

  lemma EndLeaves(w: World, id: string)
    ensures LeavesStarts(w, EndTask(w, id))
  {
  }

  lemma CaptureStarts(cfg: Config, w: World, id: string)
    requires StartsOk(w) && id in w.tasks && w.tasks[id].Subscribing?
    requires w.tasks[id].todo != [] || w.tasks[id].id in w.subs
    ensures StartsOk(RunSubscribe(cfg, w, id))
  {
    var Subscribing(s, sub, from, todo, starts, heads) := w.tasks[id];
    assert TakingOk(w, w.tasks[id]);
    hide StartsOk, LeavesStarts;
    EndLeaves(w, id);
    if todo != [] && todo[0] in w.logs && StartOffset(w.logs[todo[0]], w.clock, todo[0], from).Some? {
      var t := todo[0];
      var o := StartOffset(w.logs[t], w.clock, t, from).value;
      assert Captured(from, t, o, |w.logs[t].recs|);
      var task := Subscribing(s, sub, from, todo[1..], starts[t := o], heads[t := |w.logs[t].recs|]);
      TaskLeaves(w, id, task);
    }
    LeftStarts(w, RunSubscribe(cfg, w, id));
  }

  lemma AddedStarts(w: World, s: string, sub: Subscription, starts: map<string, int>, taken: Taken)
    requires StartsOk(w) && s !in w.subs
    requires Captures(w.logs, taken.from, starts, taken.heads) && forall t :: t in sub.topics ==> t in starts
    ensures StartsOk(Added(w, s, sub, starts, taken))
  {
    var v := Added(w, s, sub, starts, taken);
    hide Captures;
    forall x | x in v.tasks && v.tasks[x].Subscribing? ensures TakingOk(v, v.tasks[x]) {
      assert TakingOk(w, w.tasks[x]);
    }
  }

  lemma AddStarts(cfg: Config, w: World, id: string)
    requires StartsOk(w) && id in w.tasks && w.tasks[id].Subscribing? && w.tasks[id].todo == []
        && w.tasks[id].id !in w.subs
    ensures StartsOk(RunSubscribe(cfg, w, id))
  {
    var Subscribing(s, sub, from, todo, starts, heads) := w.tasks[id];
    assert TakingOk(w, w.tasks[id]);
    AddedStarts(w, s, sub, starts, Taken(from, heads));
    hide StartsOk, LeavesStarts, Added;
    var x := Added(w, s, sub, starts, Taken(from, heads));
    EndLeaves(x, id);
    TaskLeaves(x, id, Dispatching(s, sub.topics, Checking));
    LeftStarts(x, RunSubscribe(cfg, w, id));
  }

  lemma SubscribeStarts(cfg: Config, w: World, id: string)
    requires StartsOk(w) && id in w.tasks && w.tasks[id].Subscribing?
    ensures StartsOk(RunSubscribe(cfg, w, id))
  {
    hide StartsOk;
    if w.tasks[id].todo == [] && w.tasks[id].id !in w.subs { AddStarts(cfg, w, id); }
    else { CaptureStarts(cfg, w, id); }
  }

  lemma RunKnown(cfg: Config, w: World, e: Event)
    requires Enabled(cfg, w, e) && e.Run?
    ensures e.task in w.tasks
  {
  }

  lemma SubscribeCallLeaves(cfg: Config, w: World, e: Event)
    requires e.Subscribe? && Enabled(cfg, w, e)
    ensures LeavesStarts(w, Apply(cfg, w, e))
  {
    hide LeavesStarts, Enabled;
    TaskLeaves(w, e.task, Subscribing(e.id, e.sub, e.from, e.sub.topics, map[], map[]));
  }

  lemma NobodyLeaves(w: World, v: World)
    requires Extends(w, v) && NobodyEnters(w, v)
    ensures LeavesStarts(w, v)
  {
    hide Advances, Captures;
  }

  lemma EventStarts(cfg: Config, w: World, e: Event)
    requires Invariant(cfg, w) && StartsOk(w) && Enabled(cfg, w, e)
    ensures StartsOk(Apply(cfg, w, e))
  {
    hide Invariant, Enabled, StartsOk, LeavesStarts, Receives;
    var v := Apply(cfg, w, e);
    if e.Subscribe? {
      SubscribeCallLeaves(cfg, w, e);
      LeftStarts(w, v);
    } else {
      if e.Run? { assert e.task in w.tasks by { RunKnown(cfg, w, e); } }
      if e.Run? && w.tasks[e.task].Subscribing? {
        SubscribeStarts(cfg, w, e.task);
      } else {
        hide Apply;
        EventReceives(cfg, w, e);
        NobodyLeaves(w, v);
        LeftStarts(w, v);
      }
    }
  }

  lemma {:induction false} RunsStart(cfg: Config, w: World, es: seq<Event>)
    requires Invariant(cfg, w) && StartsOk(w) && Possible(cfg, w, es)
    ensures StartsOk(Outcome(cfg, w, es))
    decreases |es|
  {
    hide Invariant, StartsOk;
    if es != [] {
      EventKeeps(cfg, w, es[0]);
      EventStarts(cfg, w, es[0]);
      RunsStart(cfg, Apply(cfg, w, es[0]), es[1..]);
    }
  }

  /** Every event appended after the capture is past the initial high-water mark. */
  predicate NoWindow(start: int, head: nat) { start < head }

  /** A cursor asked for by the subscriber that lies past the end of its topic's log. */
  predicate PastHead(from: From, t: string, head: nat) {
    from.After? && from.topic == t && from.offset >= head
  }

  /**
   * Cutover.  In every run, for every topic of every subscription: nothing appended after its start
   * was captured can fall before its initial high-water mark, except when the subscriber asked for a
   * cursor past the end of the log, and then exactly the events up to that cursor do.  A
   * subscription from "latest" owns no earlier event.
   */
  lemma CutoverExact(cfg: Config, w: World, es: seq<Event>, s: string, t: string)
    requires Initial(w) && cfg.maxAttempts >= 1 && Possible(cfg, w, es)
    requires var v := Outcome(cfg, w, es); s in v.subs && t in v.subs[s].topics
    ensures var v := Outcome(cfg, w, es);
      && s in v.hist.taken && t in v.hist.taken[s].heads && t in v.logs
      && var from, head := v.hist.taken[s].from, v.hist.taken[s].heads[t];
         && head <= |v.logs[t].recs|
         && (NoWindow(Start(v, s, t), head) <==> !PastHead(from, t, head))
         && (PastHead(from, t, head) ==> Start(v, s, t) == from.offset)
         && (from.Latest? ==> Start(v, s, t) == head - 1)
         && (from.Earliest? ==> Start(v, s, t) == -1)
  {
    hide Apply, Invariant, Outcome;
    InitialOk(cfg, w);
    RunsStart(cfg, w, es);
  }
}
