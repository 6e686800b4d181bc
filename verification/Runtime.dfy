/**
 * The publisher as code over its stores.  Each store call, send and sleep of a method is one event
 * of the dispatch machine: the publisher keeps the world its stores stand for, and the events that
 * led there, as ghost state, so whatever holds in every run of the machine holds of the stores.
 */
module Runtime {
  import opened Contracts
  import opened Cursors
  import opened Stream
  import opened Dispatch
  import opened Steps
  import opened Deliveries
  import opened Retries
  import opened Calls
  import opened EventStore
  import opened Reads
  import opened SubscriptionStore
  import RetryQueue
  import Backoff

  /** The endpoints at the other side; `replies` is what they are going to do. */
  class Transport {
    const replies: nat -> Reply
    var sent: nat
    var received: map<string, seq<string>>

    constructor (replies: nat -> Reply)
      ensures this.replies == replies && received == map[]
    {
      this.replies, sent, received := replies, 0, map[];
    }

    method Send(endpoint: string, eventId: string) returns (reply: Reply)
      requires forall n :: replies(n).Possible()
      modifies this
      ensures reply.Possible() && reply == replies(old(sent)) && sent == old(sent) + 1
      ensures received == Arrived(old(received), endpoint, reply, eventId)
    {
      reply := replies(sent);
      sent := sent + 1;
      var ids := if endpoint in received then received[endpoint] else [];
      if reply.taken && eventId !in ids { received := received[endpoint := ids + [eventId]]; }
    }
  }

  class Publisher {
    const cfg: Config
    const store: InMemoryEventStore
    const subs: InMemorySubscriptionStore
    const queue: RetryQueue.InMemoryRetryQueue
    const transport: Transport
    const retryIds: nat -> string
    const initialDelay: int
    const maxDelay: int
    const authorised: string -> bool
    var clock: int
    var locked: set<string>
    var drawn: nat
    var slept: int
    ghost const origin: World
    ghost var w: World
    ghost var trace: seq<Event>

    /** A new publisher over a store in which topics were declared and nothing was published. */
    constructor (cfg: Config, store: InMemoryEventStore, transport: Transport, retryIds: nat -> string,
                 initialDelay: int, maxDelay: int, authorised: string -> bool, now: int)
      requires store.Valid() && store.clock <= now && forall t :: t in store.streams ==> store.streams[t].recs == []
      requires transport.received == map[] && forall n :: transport.replies(n).Possible()
      requires forall m, n :: 0 <= m < n ==> retryIds(m) != retryIds(n)
      ensures Valid() && Initial(w) && origin == w && trace == [] && clock == now
      ensures this.cfg == cfg && this.store == store && this.transport == transport && fresh(subs) && fresh(queue)
    {
      this.cfg, this.store, this.transport, this.retryIds := cfg, store, transport, retryIds;
      this.initialDelay, this.maxDelay, this.authorised := initialDelay, maxDelay, authorised;
      clock, locked, drawn, slept := now, {}, 0, 0;
      subs := new InMemorySubscriptionStore();
      queue := new RetryQueue.InMemoryRetryQueue();
      ghost var start := World(now, store.streams, map[], map[], [], map[], map[], map[], map[],
                               History(map[], map[], {}, {}, map[], {}, map[]));
      origin, w, trace := start, start, [];
    }

    /** The trace led from the origin to the world. */
    ghost predicate Recorded()
      reads this`w, this`trace
    {
      Possible(cfg, origin, trace) && Outcome(cfg, origin, trace) == w
    }

    /** The stores hold what the world says. */
    ghost predicate Coupled()
      reads this, store, subs, queue, transport
    {
      && store.streams == w.logs && store.clock <= clock == w.clock
      && subs.subs == w.subs && subs.marks == w.marks && subs.attempts == w.attempts
      && queue.items == w.queue
      && transport.received == w.received
      && locked == w.locks.Keys
    }

    ghost predicate Valid()
      reads this, store, subs, queue, transport
    {
      && store.Valid() && queue.Contents().Valid()
      && Coupled() && Recorded()
      && (forall n :: transport.replies(n).Possible())
      && (forall n :: n >= drawn ==> retryIds(n) !in w.hist.issued)
      && (forall m, n :: 0 <= m < n ==> retryIds(m) != retryIds(n))
    }

    /** One machine event. */
    ghost method Do(e: Event)
      requires Recorded() && Enabled(cfg, w, e)
      modifies this`w, this`trace
      ensures Recorded() && w == Apply(cfg, old(w), e) && trace == old(trace) + [e]
    {
      hide Apply, Enabled;
      Extend(cfg, origin, trace, e);
      trace, w := trace + [e], Apply(cfg, w, e);
    }

    ghost method Go(task: string, inp: Input)
      requires Recorded() && Enabled(cfg, w, Run(task, inp))
      modifies this`w, this`trace
      ensures Recorded() && w == Apply(cfg, old(w), Run(task, inp)) && trace == old(trace) + [Run(task, inp)]
    {
      hide Apply, Enabled, Recorded;
      Do(Run(task, inp));
    }

    ghost function Plain(): Input
      reads this
    {
      Input(true, false, false, false, retryIds(drawn), 0, map[])
    }

    /** One phase: the world after it. */
    ghost method Pass(task: string, c: Context, s: string, t: string, o: nat, phase: Phase, inp: Input)
      requires Recorded() && Stands(w, task, c, s, t, o, phase) && !(c.InWork? && phase.HandOver?)
      requires (inp.ack ==> inp.taken) && inp.retryId !in w.hist.issued
      modifies this`w, this`trace
      ensures Recorded() && trace == old(trace) + [Run(task, inp)]
      ensures w == Phased(cfg, old(w), task, c, s, t, o, phase, inp)
    {
      PhaseStep(cfg, w, task, c, s, t, o, phase, inp);
      hide Apply, Enabled, Phased, Possible, Outcome, Recorded;
      Go(task, inp);
    }

    /** Builds, signs and sends one attempt. */
    method AttemptSend(s: string, record: EventRecord, attempt: nat, ghost task: string, ghost c: Context)
      returns (reply: Reply)
      requires Valid() && Stands(w, task, c, s, record.topic, record.offset, Sending(attempt))
      requires record == w.logs[record.topic].recs[record.offset]
      modifies this`w, this`trace, transport
      ensures Valid() && reply.Possible()
      ensures reply == transport.replies(old(transport.sent)) && transport.sent == old(transport.sent) + 1
      ensures w == SetTask(old(w).(received := transport.received), task,
                           TaskAt(c, record.offset, Sent(attempt, reply.ack, reply.retry)))
    {
      hide TaskAt, About, Recorded, Holds, RetryQueue.Queue.Valid, Arrived, Phased;
      var sub := subs.subs[s];
      reply := transport.Send(sub.endpoint, record.eventId);
      ghost var inp := Plain().(taken := reply.taken, ack := reply.ack, retry := reply.retry);
      SentWorld(cfg, w, task, c, s, record.topic, record.offset, attempt, reply, inp);
      Pass(task, c, s, record.topic, record.offset, Sending(attempt), inp);
    }

    method RecordAttempt(s: string, record: EventRecord, attempt: nat, reply: Reply, ghost task: string,
                         ghost c: Context)
      returns (status: AttemptStatus)
      requires Valid() && Stands(w, task, c, s, record.topic, record.offset, Sent(attempt, reply.ack, reply.retry))
      requires record == w.logs[record.topic].recs[record.offset]
      modifies this`w, this`trace, subs`attempts
      ensures Valid() && status == StatusOf(cfg, attempt, reply.ack, reply.retry)
      ensures status == Delivered <==> reply.ack
      ensures status == DeadLetter <==> !reply.ack && (!reply.retry || attempt >= cfg.maxAttempts)
      ensures subs.attempts == old(subs.attempts)
                + [DeliveryAttempt(s, record.eventId, record.topic, record.offset, attempt, status)]
      ensures w == SetTask(Attempted(old(w), s, record, attempt, status), task,
                           TaskAt(c, record.offset, match status
                                                    case Delivered => Acknowledge
                                                    case DeadLetter => BuryMark
                                                    case Retry => HandOver(attempt)))
    {
      hide TaskAt, About, Recorded, Holds, RetryQueue.Queue.Valid, Phased;
      status := StatusOf(cfg, attempt, reply.ack, reply.retry);
      subs.RecordAttempt(DeliveryAttempt(s, record.eventId, record.topic, record.offset, attempt, status));
      RecordedWorld(cfg, w, task, c, s, record.topic, record.offset, attempt, reply, Plain());
      Pass(task, c, s, record.topic, record.offset, Sent(attempt, reply.ack, reply.retry), Plain());
    }

    /** The acked cursor of a topic moves to a cursor that is greater as a string. */
    method MoveCursor(s: string, t: string, o: nat, ghost task: string, ghost c: Context)
      requires Valid() && Stands(w, task, c, s, t, o, Acknowledge)
      modifies this`w, this`trace, subs`subs
      ensures Valid() && w == SetTask(AdvanceCursor(old(w), s, t, Encode(t, o)), task, TaskAt(c, o, ReadMark))
      ensures s in old(subs.subs) && var was, cursor := old(subs.subs)[s], Encode(t, o);
        subs.subs == if t in was.cursors && !Less(was.cursors[t], cursor) then old(subs.subs)
                     else old(subs.subs)[s := was.(cursors := was.cursors[t := cursor])]
    {
      hide TaskAt, About, Recorded, Holds, RetryQueue.Queue.Valid, Phased, Encode, Less;
      var sub, cursor := subs.subs[s], Encode(t, o);
      if t !in sub.cursors || Less(sub.cursors[t], cursor) {
        subs.Update(s, sub.(cursors := sub.cursors[t := cursor]));
      }
      AckedWorld(cfg, w, task, c, s, t, o, Plain());
      Pass(task, c, s, t, o, Acknowledge, Plain());
    }

    method CurrentMark(s: string, t: string, o: nat, ghost task: string, ghost c: Context) returns (mark: int)
      requires Valid() && Stands(w, task, c, s, t, o, ReadMark)
      modifies this`w, this`trace
      ensures Valid() && mark == Mark(old(w), s, t)
      ensures w == SetTask(old(w), task, TaskAt(c, o, WriteMark(mark)))
    {
      hide TaskAt, TaskDone, About, Recorded, Holds, RetryQueue.Queue.Valid, Phased;
      var marks := subs.HighWater(s);
      mark := if t in marks then marks[t] else -1;
      MarkedWorld(cfg, w, task, c, s, t, o, mark, Plain());
      Pass(task, c, s, t, o, ReadMark, Plain());
    }

    method WriteRaised(s: string, t: string, o: nat, mark: int, ghost task: string, ghost c: Context)
      requires Valid() && Stands(w, task, c, s, t, o, WriteMark(mark)) && mark == Mark(w, s, t)
      modifies this`w, this`trace, subs`marks
      ensures Valid() && w == SetTask(Raised(old(w), s, t, o), task, TaskDone(c, o))
    {
      hide TaskAt, TaskDone, About, Recorded, Holds, RetryQueue.Queue.Valid, Phased, MarkOf;
      if o > mark { subs.SetHighWater(s, t, o); }
      MarkedWorld(cfg, w, task, c, s, t, o, mark, Plain());
      Pass(task, c, s, t, o, WriteMark(mark), Plain());
    }

    /** The high-water mark of a topic is raised to a delivered event. */
    method RaiseMark(s: string, t: string, o: nat, ghost task: string, ghost c: Context)
      requires Valid() && Stands(w, task, c, s, t, o, ReadMark)
      modifies this`w, this`trace, subs`marks
      ensures Valid() && w == SetTask(Raised(old(w), s, t, o), task, TaskDone(c, o))
    {
      hide Valid, TaskAt, TaskDone, About, SetTask, Raised, Stands;
      ghost var u := w;
      StandsIn(u, task, c, s, t, o, ReadMark);
      var mark := CurrentMark(s, t, o, task, c);
      StandsAt(u, task, c, s, t, o, WriteMark(mark));
      ThenMark(u, task, TaskAt(c, o, WriteMark(mark)), TaskDone(c, o), s, t, o);
      SetTaskMark(u, task, TaskAt(c, o, WriteMark(mark)), s, t);
      WriteRaised(s, t, o, mark, task, c);
    }

    /** The mark is set to an event that was given up or handed to the retry queue. */
    method PassMark(s: string, t: string, o: nat, phase: Phase, ghost task: string, ghost c: Context)
      requires Valid() && Stands(w, task, c, s, t, o, phase) && (phase.BuryMark? || phase.HandedMark?)
      modifies this`w, this`trace, subs`marks
      ensures Valid() && w == SetTask(SetMark(old(w), s, t, o), task, TaskDone(c, o))
    {
      hide TaskAt, TaskDone, About, Recorded, Holds, RetryQueue.Queue.Valid, Phased, MarkOf;
      subs.SetHighWater(s, t, o);
      MarkedWorld(cfg, w, task, c, s, t, o, -1, Plain());
      Pass(task, c, s, t, o, phase, Plain());
    }

    /** Moves the acked cursor and then the mark up to a delivered event. */
    method Advance(s: string, record: EventRecord, ghost task: string, ghost c: Context)
      requires Valid() && Stands(w, task, c, s, record.topic, record.offset, Acknowledge)
      modifies this`w, this`trace, subs`subs, subs`marks, subs`acks
      ensures Valid()
      ensures w == SetTask(Closed(old(w), s, record.topic, record.offset, true), task, TaskDone(c, record.offset))
      ensures MovedTo(old(w), w, s, record.topic, record.offset, Encode(record.topic, record.offset))
    {
      hide MovedTo, Valid, TaskAt, TaskDone, About, Raised, Encode, Less, AdvanceCursor, Stands, SetTask;
      var t, o := record.topic, record.offset;
      StandsIn(w, task, c, s, t, o, Acknowledge);
      ghost var x := AdvanceCursor(w, s, t, Encode(t, o));
      AdvancedPlace(w, task, c, s, t, o, Encode(t, o));
      ThenMark(x, task, TaskAt(c, o, ReadMark), TaskDone(c, o), s, t, o);
      ClosedIs(w, s, t, o);
      ClosedMoves(w, w, task, TaskDone(c, o), s, t, o, true);
      MoveCursor(s, t, o, task, c);
      RaiseMark(s, t, o, task, c);
      NoteAck(s, record.eventId, Encode(t, o));
    }

    /** An acked attempt: record it, then move the cursor and the mark. */
    method OnDelivered(s: string, record: EventRecord, attempt: nat, reply: Reply, ghost task: string, ghost c: Context)
      requires Valid() && Stands(w, task, c, s, record.topic, record.offset, Sent(attempt, reply.ack, reply.retry))
      requires record == w.logs[record.topic].recs[record.offset] && reply.ack
      modifies this`w, this`trace, subs
      ensures Valid()
      ensures w
           == SetTask(Closed(Attempted(old(w), s, record, attempt, Delivered), s, record.topic, record.offset, true),
                      task, TaskDone(c, record.offset))
      ensures MovedTo(old(w), w, s, record.topic, record.offset, Encode(record.topic, record.offset))
    {
      hide MovedTo;
      var t, o := record.topic, record.offset;
      ghost var x := Attempted(w, s, record, attempt, Delivered);
      StandsAt(x, task, c, s, t, o, Acknowledge);
      ThenClosed(x, task, TaskAt(c, o, Acknowledge), TaskDone(c, o), s, t, o, true);
      Untouched(w, s, record, attempt, Delivered);
      ClosedMoves(w, x, task, TaskDone(c, o), s, t, o, true);
      hide TaskAt, TaskDone, About, Recorded, Holds, RetryQueue.Queue.Valid, Stands, Attempted, Closed, SetTask;
      var status := RecordAttempt(s, record, attempt, reply, task, c);
      Advance(s, record, task, c);
    }

    /** An attempt that ends the chain without an ack: record it, then pass the event by. */
    method OnTerminal(s: string, record: EventRecord, attempt: nat, reply: Reply, ghost task: string, ghost c: Context)
      requires Valid() && Stands(w, task, c, s, record.topic, record.offset, Sent(attempt, reply.ack, reply.retry))
      requires record == w.logs[record.topic].recs[record.offset]
      requires StatusOf(cfg, attempt, reply.ack, reply.retry) == DeadLetter
      modifies this`w, this`trace, subs
      ensures Valid()
      ensures w
           == SetTask(Closed(Attempted(old(w), s, record, attempt, DeadLetter), s, record.topic, record.offset, false),
                      task, TaskDone(c, record.offset))
      ensures PassedBy(old(w), w, s, record.topic, record.offset)
    {
      hide PassedBy, TaskAt, TaskDone, About, Recorded, Holds, RetryQueue.Queue.Valid, Encode, Less;
      var t, o := record.topic, record.offset;
      ghost var x := Attempted(w, s, record, attempt, DeadLetter);
      StandsIn(w, task, c, s, t, o, Sent(attempt, reply.ack, reply.retry));
      Untouched(w, s, record, attempt, DeadLetter);
      ClosedMoves(w, x, task, TaskDone(c, o), s, t, o, false);
      var status := RecordAttempt(s, record, attempt, reply, task, c);
      StandsAt(x, task, c, s, t, o, BuryMark);
      ThenMark(x, task, TaskAt(c, o, BuryMark), TaskDone(c, o), s, t, o);
      hide Stands, Attempted, SetTask, SetMark;
      PassMark(s, t, o, BuryMark, task, c);
    }

    /** Waits before the next attempt. */
    method Sleep(attempt: nat, ghost task: string, ghost c: Context, ghost s: string, ghost t: string, ghost o: nat)
      requires Valid() && Stands(w, task, c, s, t, o, HandOver(attempt)) && c.InDispatch? && !cfg.queued && attempt >= 1
      modifies this`w, this`trace, this`slept
      ensures Valid() && w == SetTask(old(w), task, TaskAt(c, o, Sending(attempt + 1)))
      ensures slept == old(slept) + Backoff.Delay(initialDelay, maxDelay, attempt)
    {
      hide TaskAt, TaskDone, About, Recorded, Holds, RetryQueue.Queue.Valid, Phased;
      slept := slept + Backoff.Delay(initialDelay, maxDelay, attempt);
      HandedWorld(cfg, w, task, c, s, t, o, attempt, Plain());
      Pass(task, c, s, t, o, HandOver(attempt), Plain());
    }

    /** One failed attempt that is retried inline. */
    method RetryInline(s: string, record: EventRecord, attempt: nat, reply: Reply, ghost task: string, ghost c: Context)
      requires Valid() && Stands(w, task, c, s, record.topic, record.offset, Sent(attempt, reply.ack, reply.retry))
      requires record == w.logs[record.topic].recs[record.offset] && c.InDispatch? && !cfg.queued && attempt >= 1
      requires StatusOf(cfg, attempt, reply.ack, reply.retry) == Retry
      modifies this`w, this`trace, this`slept, subs`attempts
      ensures Valid()
      ensures w == SetTask(Attempted(old(w), s, record, attempt, Retry), task,
                           TaskAt(c, record.offset, Sending(attempt + 1)))
      ensures slept == old(slept) + Backoff.Delay(initialDelay, maxDelay, attempt)
    {
      hide Apply;
      var t, o := record.topic, record.offset;
      ghost var x := Attempted(w, s, record, attempt, Retry);
      StandsAt(x, task, c, s, t, o, HandOver(attempt));
      SetTwice(x, task, TaskAt(c, o, HandOver(attempt)), TaskAt(c, o, Sending(attempt + 1)));
      hide TaskAt, TaskDone, About, Recorded, Holds, RetryQueue.Queue.Valid, Stands, Attempted, SetTask;
      var status := RecordAttempt(s, record, attempt, reply, task, c);
      Sleep(attempt, task, c, s, t, o);
    }

    /** One attempt of a chain that has been retried `attempt - 1` times; true when the chain is over. */
    method TryOnce(s: string, record: EventRecord, attempt: nat, ghost task: string, ghost c: Context,
                   ghost start: World)
      returns (over: bool, delivered: bool)
      requires Valid() && About(c, s, record.topic, record.offset) && s in start.subs
      requires Logged(start, record.topic, record.offset) && record == start.logs[record.topic].recs[record.offset]
      requires 1 <= attempt <= cfg.maxAttempts && c.InDispatch? && !cfg.queued
      requires w == SetTask(Tried(start, s, record, attempt - 1, transport.received), task,
                            TaskAt(c, record.offset, Sending(attempt)))
      modifies this`w, this`trace, this`slept, subs, transport
      ensures Valid()
      ensures over ==> w == SetTask(Ended(start, s, record, attempt, delivered, transport.received), task,
                                    TaskDone(c, record.offset))
      ensures over ==> slept == old(slept)
      ensures !over ==>
                && attempt < cfg.maxAttempts
                && w == SetTask(Tried(start, s, record, attempt, transport.received), task,
                                TaskAt(c, record.offset, Sending(attempt + 1)))
                && slept == old(slept) + Backoff.Delay(initialDelay, maxDelay, attempt)
      ensures transport.sent == old(transport.sent) + 1
      ensures var reply := transport.replies(old(transport.sent));
        && (over <==> reply.ack || !reply.retry || attempt == cfg.maxAttempts)
        && (over ==> delivered == reply.ack)
    {
      hide Holds, Recorded, RetryQueue.Queue.Valid, Valid, Closed, Attempted, Judged, Ended, Mark;
      var t, o, k := record.topic, record.offset, attempt - 1;
      StandsAt(Tried(start, s, record, k, transport.received), task, c, s, t, o, Sending(attempt));
      ghost var before := transport.received;
      var reply := AttemptSend(s, record, attempt, task, c);
      ghost var x := Tried(start, s, record, k, transport.received);
      ThenReceived(Tried(start, s, record, k, before), task, TaskAt(c, o, Sending(attempt)),
                   TaskAt(c, o, Sent(attempt, reply.ack, reply.retry)), transport.received);
      assert w == SetTask(x, task, TaskAt(c, o, Sent(attempt, reply.ack, reply.retry)));
      over, delivered := Conclude(s, record, attempt, reply, task, c, start);
    }

    method Conclude(s: string, record: EventRecord, attempt: nat, reply: Reply, ghost task: string, ghost c: Context,
                    ghost start: World)
      returns (over: bool, delivered: bool)
      requires Valid() && About(c, s, record.topic, record.offset) && s in start.subs
      requires Logged(start, record.topic, record.offset) && record == start.logs[record.topic].recs[record.offset]
      requires 1 <= attempt <= cfg.maxAttempts && c.InDispatch? && !cfg.queued
      requires w == SetTask(Tried(start, s, record, attempt - 1, transport.received), task,
                            TaskAt(c, record.offset, Sent(attempt, reply.ack, reply.retry)))
      modifies this`w, this`trace, this`slept, subs
      ensures Valid()
      ensures over ==> w == SetTask(Ended(start, s, record, attempt, delivered, transport.received), task,
                                    TaskDone(c, record.offset))
      ensures over ==> slept == old(slept)
      ensures !over ==>
                && attempt < cfg.maxAttempts
                && w == SetTask(Tried(start, s, record, attempt, transport.received), task,
                                TaskAt(c, record.offset, Sending(attempt + 1)))
                && slept == old(slept) + Backoff.Delay(initialDelay, maxDelay, attempt)
      ensures over <==> reply.ack || !reply.retry || attempt == cfg.maxAttempts
      ensures over ==> delivered == reply.ack
    {
      hide Holds, Recorded, RetryQueue.Queue.Valid, Valid, Closed, Attempted, Judged, Ended, Mark;
      var t, o := record.topic, record.offset;
      ghost var x := Tried(start, s, record, attempt - 1, transport.received);
      ghost var a := TaskAt(c, o, Sent(attempt, reply.ack, reply.retry));
      StandsAt(x, task, c, s, t, o, Sent(attempt, reply.ack, reply.retry));
      TriedOnce(start, s, record, attempt - 1, transport.received);
      ThenConcluded(x, task, a, TaskDone(c, o), s, record, attempt, true);
      ThenConcluded(x, task, a, TaskDone(c, o), s, record, attempt, false);
      ThenAttempted(x, task, a, TaskAt(c, o, Sending(attempt + 1)), s, record, attempt, Retry);
      hide TaskAt, TaskDone, About, Recorded, Holds, RetryQueue.Queue.Valid, Stands, Attempted, SetTask, Closed, Tried,
          Ended;
      over, delivered := true, reply.ack;
      if reply.ack {
        OnDelivered(s, record, attempt, reply, task, c);
        return;
      }
      if !reply.retry || attempt == cfg.maxAttempts {
        OnTerminal(s, record, attempt, reply, task, c);
        return;
      }
      RetryInline(s, record, attempt, reply, task, c);
      over := false;
    }

    /** Attempts until an ack, a refusal or the last attempt; `k` attempts in all. */
    method DeliverOne(s: string, record: EventRecord, ghost task: string, ghost c: Context)
      returns (delivered: bool, k: nat)
      requires Valid() && Stands(w, task, c, s, record.topic, record.offset, Sending(1))
      requires record == w.logs[record.topic].recs[record.offset]
      requires c.InDispatch? && !cfg.queued && cfg.maxAttempts >= 1
      modifies this`w, this`trace, this`slept, subs, transport
      ensures Valid() && 1 <= k <= cfg.maxAttempts
      ensures w == SetTask(Ended(old(w), s, record, k, delivered, transport.received), task, TaskDone(c, record.offset))
      ensures slept == old(slept) + Backoff.Total(initialDelay, maxDelay, k)
      ensures if delivered then MovedTo(old(w), w, s, record.topic, record.offset, Encode(record.topic, record.offset))
              else PassedBy(old(w), w, s, record.topic, record.offset)
      ensures transport.sent == old(transport.sent) + k
      ensures forall j :: old(transport.sent) <= j < old(transport.sent) + k - 1 ==>
                !transport.replies(j).ack && transport.replies(j).retry
      ensures var last := transport.replies(old(transport.sent) + k - 1);
        delivered == last.ack && (last.ack || !last.retry || k == cfg.maxAttempts)
    {
      hide *;
      k := 1;
      StandsIn(w, task, c, s, record.topic, record.offset, Sending(1));
      StandsTask(w, task, c, s, record.topic, record.offset, Sending(1));
      LoggedIn(w, w, record.topic, record.offset);
      SetSame(w, task);
      TriedOnce(w, s, record, 0, transport.received);
      ReceivedAgrees();
      Backoff.TotalGrows(initialDelay, maxDelay, 1);
      while true
        invariant Valid() && 1 <= k <= cfg.maxAttempts
        invariant w == SetTask(Tried(old(w), s, record, k - 1, transport.received), task,
                               TaskAt(c, record.offset, Sending(k)))
        invariant slept == old(slept) + Backoff.Total(initialDelay, maxDelay, k)
        invariant transport.sent == old(transport.sent) + k - 1
        invariant forall j :: old(transport.sent) <= j < transport.sent ==>
                    !transport.replies(j).ack && transport.replies(j).retry
        decreases cfg.maxAttempts - k
      {
        var over, acked := TryOnce(s, record, k, task, c, old(w));
        if over {
          EndedMoves(old(w), task, TaskDone(c, record.offset), s, record, k, acked, transport.received);
          return acked, k;
        }
        Backoff.TotalGrows(initialDelay, maxDelay, k);
        k := k + 1;
      }
    }

    method PutInQueue(item: RetryItem)
      requires queue.Contents().Valid()
      modifies queue
      ensures queue.items == old(queue.items)[item.retryId := item] && queue.Contents().Valid()
    {
      hide RetryQueue.Queue.Valid;
      queue.Enqueue(item);
    }

    /** The phase that puts the first retry in the queue. */
    ghost method PassHandOver(s: string, record: EventRecord, item: RetryItem, task: string, c: Context)
      requires Recorded() && Stands(w, task, c, s, record.topic, record.offset, HandOver(1)) && c.InDispatch?
          && cfg.queued
      requires record == w.logs[record.topic].recs[record.offset] && item.retryId !in w.hist.issued
      requires item == RetryItem(item.retryId, s, record.topic, record.offset, record.eventId, 1, item.nextRetryAt)
      modifies this`w, this`trace
      ensures Recorded() && w == SetTask(Enqueue(old(w), item), task, TaskAt(c, record.offset, HandedMark))
    {
      hide TaskAt, TaskDone, About, Recorded, Phased, Logged, Enqueue, SetTask;
      ghost var inp := Input(true, false, false, false, item.retryId, item.nextRetryAt, map[]);
      HandedWorld(cfg, w, task, c, s, record.topic, record.offset, 1, inp);
      Pass(task, c, s, record.topic, record.offset, HandOver(1), inp);
    }

    /** Puts a retry on the queue. */
    method EnqueueRetry(s: string, record: EventRecord, ghost task: string,
                        ghost c: Context)
      returns (ghost item: RetryItem)
      requires Valid() && Stands(w, task, c, s, record.topic, record.offset, HandOver(1))
      requires record == w.logs[record.topic].recs[record.offset] && c.InDispatch? && cfg.queued
      modifies this`w, this`trace, this`drawn, queue
      ensures Valid() && w == SetTask(Enqueue(old(w), item), task, TaskAt(c, record.offset, HandedMark))
      ensures item == RetryItem(retryIds(old(drawn)), s, record.topic, record.offset, record.eventId, 1,
                                clock + Backoff.Delay(initialDelay, maxDelay, 1))
    {
      hide TaskAt, TaskDone, About, Recorded, Holds, RetryQueue.Queue.Valid, Phased, Logged, Enqueue, SetTask, Stands;
      var made := RetryItem(retryIds(drawn), s, record.topic, record.offset, record.eventId, 1,
                            clock + Backoff.Delay(initialDelay, maxDelay, 1));
      item := made;
      ghost var u := w;
      EnqueueStores(u, made);
      TaskAside(Enqueue(u, made), task, TaskAt(c, record.offset, HandedMark));
      PutInQueue(made);
      PassHandOver(s, record, made, task, c);
      drawn := drawn + 1;
    }

    /** Hands an event over to the retry queue after its first attempt failed. */
    method HandToQueue(s: string, record: EventRecord, reply: Reply, ghost task: string, ghost c: Context)
      returns (ghost item: RetryItem)
      requires Valid() && Stands(w, task, c, s, record.topic, record.offset, Sent(1, reply.ack, reply.retry))
      requires record == w.logs[record.topic].recs[record.offset] && c.InDispatch? && cfg.queued
      requires StatusOf(cfg, 1, reply.ack, reply.retry) == Retry
      modifies this`w, this`trace, this`drawn, subs, queue
      ensures Valid()
      ensures w
           == SetTask(SetMark(Enqueue(Attempted(old(w), s, record, 1, Retry), item), s, record.topic, record.offset),
                      task, TaskDone(c, record.offset))
      ensures item == RetryItem(retryIds(old(drawn)), s, record.topic, record.offset, record.eventId, 1,
                                clock + Backoff.Delay(initialDelay, maxDelay, 1))
    {
      hide Valid, TaskAt, TaskDone, About, Attempted, Stands, SetTask, Enqueue, SetMark, Logged;
      var t, o := record.topic, record.offset;
      StandsIn(w, task, c, s, t, o, Sent(1, reply.ack, reply.retry));
      ghost var x := Attempted(w, s, record, 1, Retry);
      Untouched(w, s, record, 1, Retry);
      LoggedIn(w, x, t, o);
      StandsAt(x, task, c, s, t, o, HandOver(1));
      TaskAside(x, task, TaskAt(c, o, HandOver(1)));
      var status := RecordAttempt(s, record, 1, reply, task, c);
      item := EnqueueRetry(s, record, task, c);
      ThenEnqueued(x, task, TaskAt(c, o, HandOver(1)), TaskAt(c, o, HandedMark), item);
      EnqueueStores(x, item);
      LoggedIn(x, Enqueue(x, item), t, o);
      StandsAt(Enqueue(x, item), task, c, s, t, o, HandedMark);
      ThenMark(Enqueue(x, item), task, TaskAt(c, o, HandedMark), TaskDone(c, o), s, t, o);
      PassMark(s, t, o, HandedMark, task, c);
    }

    /** The first attempt inline; a retry, if one is due, becomes the queue's concern. */
    method DeliverQueued(s: string, record: EventRecord, ghost task: string, ghost c: Context)
      returns (over: bool, delivered: bool, ghost item: RetryItem)
      requires Valid() && Stands(w, task, c, s, record.topic, record.offset, Sending(1))
      requires record == w.logs[record.topic].recs[record.offset]
      requires c.InDispatch? && cfg.queued && cfg.maxAttempts >= 1
      modifies this`w, this`trace, this`drawn, subs, queue, transport
      ensures Valid()
      ensures over ==> w == SetTask(Ended(old(w), s, record, 1, delivered, transport.received), task,
                                    TaskDone(c, record.offset))
      ensures !over ==> w == SetTask(HandedOver(old(w), s, record, transport.received, item), task,
                                     TaskDone(c, record.offset))
      ensures if over && delivered
              then MovedTo(old(w), w, s, record.topic, record.offset, Encode(record.topic, record.offset))
              else PassedBy(old(w), w, s, record.topic, record.offset)
      ensures transport.sent == old(transport.sent) + 1
      ensures var reply := transport.replies(old(transport.sent));
        && (over <==> reply.ack || !reply.retry || cfg.maxAttempts <= 1)
        && (over ==> delivered == reply.ack)
      ensures !over ==> item == RetryItem(retryIds(old(drawn)), s, record.topic, record.offset, record.eventId, 1,
                                          clock + Backoff.Delay(initialDelay, maxDelay, 1))
    {
      hide Holds, Recorded, RetryQueue.Queue.Valid, Mark, Closed, Ended, Valid, MovedTo, PassedBy;
      var t, o := record.topic, record.offset;
      ghost var u := w;
      var reply := AttemptSend(s, record, 1, task, c);
      over, delivered, item := true, reply.ack, RetryItem("", "", "", 0, "", 0, 0);
      ghost var x := old(w).(received := transport.received);
      ghost var a := TaskAt(c, o, Sent(1, reply.ack, reply.retry));
      StandsAt(x, task, c, s, t, o, Sent(1, reply.ack, reply.retry));
      TriedOnce(old(w), s, record, 0, transport.received);
      assert Tried(old(w), s, record, 0, transport.received) == x;
      ThenConcluded(x, task, a, TaskDone(c, o), s, record, 1, true);
      ThenConcluded(x, task, a, TaskDone(c, o), s, record, 1, false);
      hide TaskAt, TaskDone, About, Recorded, Holds, RetryQueue.Queue.Valid, Stands, SetTask, Closed, Ended;
      if reply.ack {
        OnDelivered(s, record, 1, reply, task, c);
      } else if !reply.retry || cfg.maxAttempts <= 1 {
        OnTerminal(s, record, 1, reply, task, c);
      } else {
        over := false;
        item := HandToQueue(s, record, reply, task, c);
        ThenHanded(x, task, a, TaskDone(c, o), s, record, item);
        HandedMoves(u, task, TaskDone(c, o), s, record, transport.received, item);
        return;
      }
      EndedMoves(u, task, TaskDone(c, o), s, record, 1, delivered, transport.received);
    }

    /** One step of the catch-up loop. */
    ghost method Loop(task: string, s: string, topics: seq<string>, page: PageStage)
      requires Recorded() && InLoop(w, task, s, topics, page) && Plain().retryId !in w.hist.issued
      modifies this`w, this`trace
      ensures Recorded() && w == RunCatchUp(cfg, old(w), task, s, topics, page, old(Plain()))
    {
      StageStep(cfg, w, task, s, topics, page, Plain());
      hide Apply, Enabled, RunCatchUp, Possible, Outcome, Recorded;
      Go(task, Plain());
    }

    /** The steps of reading one page, with a second read when the position has expired. */
    ghost method OpenStep(s: string, topics: seq<string>, position: int, task: string)
      requires Recorded() && InLoop(w, task, s, topics, Fetching(position)) && Plain().retryId !in w.hist.issued
      requires w.clock == clock
      modifies this`w, this`trace
      ensures Recorded()
      ensures var b := Bounds(old(w).logs[topics[0]], clock, position, cfg.pageSize);
        w == Opened(old(w), task, s, topics, b.0, b.1, position)
    {
      var u, log := w, w.logs[topics[0]];
      var again := Fetch(log, clock, -1, |log.recs|, cfg.pageSize);
      PageIs(log, clock, position, cfg.pageSize);
      FetchWorld(cfg, u, task, s, topics, position, Plain());
      hide Recorded, Fetch, RunCatchUp, Bounds;
      Loop(task, s, topics, Fetching(position));
      if Fetch(log, clock, position, |log.recs|, cfg.pageSize).Stale? {
        ThenOpened(u, task, Dispatching(s, topics, On(Refetching(position))), s, topics, again.lo, again.hi, position);
        FetchWorld(cfg, w, task, s, topics, position, Plain());
        hide Opened;
        Loop(task, s, topics, Refetching(position));
      }
    }

    /** Reads one page; when the position has expired, from the start of retention. */
    method ReadPage(s: string, ghost topics: seq<string>, topic: string, position: int, ghost task: string)
      returns (records: seq<EventRecord>)
      requires Valid() && InLoop(w, task, s, topics, Fetching(position)) && topics[0] == topic
      modifies this`w, this`trace
      ensures Valid()
      ensures var log := old(w).logs[topic]; var b := Bounds(log, clock, position, cfg.pageSize);
        records == log.recs[b.0..b.1] && w == Opened(old(w), task, s, topics, b.0, b.1, position)
    {
      hide Holds, RetryQueue.Queue.Valid, Recorded, Opened, Bounds;
      ghost var b := Bounds(w.logs[topic], clock, position, cfg.pageSize);
      OpenedSilent(w, task, s, topics, b.0, b.1, position);
      records := Reads.NextEvents(store, topic, position, cfg.pageSize, clock);
      OpenStep(s, topics, position, task);
    }

    /** Delivers one event inside the loop, inline or with the help of the retry queue. */
    method Deliver(s: string, record: EventRecord, ghost task: string, ghost c: Context)
      requires Valid() && Stands(w, task, c, s, record.topic, record.offset, Sending(1))
      requires record == w.logs[record.topic].recs[record.offset]
      requires c.InDispatch? && cfg.maxAttempts >= 1 && Mark(w, s, record.topic) <= record.offset
      modifies this`w, this`trace, this`slept, this`drawn, subs, queue, transport
      ensures Valid() && Kept(old(w), w, task, s, record.topic)
      ensures task in w.tasks && w.tasks[task] == TaskDone(c, record.offset)
      ensures Mark(w, s, record.topic) == record.offset
    {
      ghost var u, done := w, TaskDone(c, record.offset);
      if cfg.queued {
        var over, delivered, item := DeliverQueued(s, record, task, c);
        if over {
          EndedKeeps(u, task, done, s, record, 1, delivered, transport.received);
        } else {
          HandedKeeps(u, task, done, s, record, transport.received, item);
        }
      } else {
        var delivered, k := DeliverOne(s, record, task, c);
        EndedKeeps(u, task, done, s, record, k, delivered, transport.received);
      }
      hide Valid, Ended, HandedOver, SetTask, Kept, TaskDone;
    }

    /** One step of the loop that moves nothing but its own task. */
    ghost method Turn(task: string, s: string, topics: seq<string>, page: PageStage, a: Task)
      requires Valid() && InLoop(w, task, s, topics, page)
      requires RunCatchUp(cfg, w, task, s, topics, page, Plain()) == SetTask(w, task, a)
      modifies this`w, this`trace
      ensures Valid() && w == SetTask(old(w), task, a)
    {
      hide RunCatchUp, Holds, RetryQueue.Queue.Valid, Recorded, SetTask;
      TaskAside(w, task, a);
      Loop(task, s, topics, page);
    }

    /** The loop body on the event at `next`: deliver it if the selector matches. */
    method Consider(s: string, ghost topics: seq<string>, record: EventRecord, ghost next: nat, ghost hi: nat,
                    ghost scan: int, ghost task: string)
      requires Valid() && InLoop(w, task, s, topics, Scanning(next, hi, scan)) && topics[0] == record.topic
      requires next < hi <= |w.logs[record.topic].recs| && scan < next && record == w.logs[record.topic].recs[next]
      requires record.offset == next && cfg.maxAttempts >= 1 && Mark(w, s, record.topic) <= scan
      modifies this`w, this`trace, this`slept, this`drawn, subs, queue, transport
      ensures Valid() && Kept(old(w), w, task, s, record.topic)
      ensures InLoop(w, task, s, topics, Scanning(next + 1, hi, next))
      ensures Mark(w, s, record.topic) <= next
    {
      hide Valid, RunCatchUp, Mark, Kept, SetTask, Stands;
      ghost var u, t, c := w, record.topic, InDispatch(s, topics, hi);
      SubsAgree();
      var sub := subs.subs[s];
      ghost var a := Dispatching(s, topics, On(if sub.selector(record.content) then Handling(next, hi, Sending(1))
                                               else Scanning(next + 1, hi, next)));
      ScanWorld(cfg, w, task, s, topics, next, hi, scan, Plain());
      SetTaskKeeps(u, task, a, s, t);
      TaskAside(u, task, a);
      Turn(task, s, topics, Scanning(next, hi, scan), a);
      if sub.selector(record.content) {
        ghost var v := w;
        StandsAt(u, task, c, s, t, next, Sending(1));
        Deliver(s, record, task, c);
        KeptOn(u, v, w, task, s, t);
        LoopStays(v, w, task, s, t, topics, Scanning(next + 1, hi, next));
      }
    }

    /** The loop over one page, from offset `lo` on. */
    method ScanPage(s: string, ghost topics: seq<string>, ghost topic: string, records: seq<EventRecord>, position: int,
                    ghost lo: nat, ghost task: string)
      returns (scan: int, processed: nat)
      requires Valid() && topics != [] && topics[0] == topic && records != []
      requires InLoop(w, task, s, topics, Scanning(lo, lo + |records|, position))
      requires lo + |records| <= |w.logs[topic].recs| && records == w.logs[topic].recs[lo..lo + |records|]
      requires forall i :: 0 <= i < |records| ==> records[i].offset == lo + i && records[i].topic == topic
      requires position < lo && Mark(w, s, topic) <= position && cfg.maxAttempts >= 1
      modifies this`w, this`trace, this`slept, this`drawn, subs, queue, transport
      ensures Valid() && Kept(old(w), w, task, s, topic)
      ensures InLoop(w, task, s, topics, Scanning(lo + |records|, lo + |records|, scan))
      ensures scan == lo + |records| - 1 && processed == |records| && Mark(w, s, topic) <= scan
    {
      hide Recorded, RetryQueue.Queue.Valid, Kept, Holds, Mark, Valid, InLoop;
      ghost var u, hi := w, lo + |records|;
      scan, processed := position, 0;
      AsideKeeps(u, u, task, s, topic);
      assert topic in u.logs by { LoopTopic(u, task, s, topics, Scanning(lo, hi, position)); }
      LogShape(topic);
      for i := 0 to |records|
        invariant Valid() && Kept(u, w, task, s, topic)
        invariant InLoop(w, task, s, topics, Scanning(lo + i, hi, scan))
        invariant w.logs == u.logs
        invariant processed == i && Mark(w, s, topic) <= scan
        invariant if i == 0 then scan == position else scan == lo + i - 1
      {
        ghost var v := w;
        var offset := ParsedOffset(records[i]);
        if offset > scan {
          Consider(s, topics, records[i], lo + i, hi, scan, task);
          KeptOn(u, v, w, task, s, topic);
          KeptLogs(v, w, task, s, topic);
          scan := offset;
          processed := processed + 1;
        }
      }
    }

    /** The high-water mark is raised to the scan position. */
    method WriteScan(s: string, ghost topics: seq<string>, topic: string, scan: nat, ghost task: string)
      requires Valid() && InLoop(w, task, s, topics, Settling(scan)) && topics[0] == topic
      modifies this`w, this`trace, subs`marks
      ensures Valid() && w == SetTask(Raised(old(w), s, topic, scan), task, Dispatching(s, topics, Position))
    {
      hide Valid, SetTask, Raised, Mark;
      ghost var u := w;
      var mark := ReadScan(s, topics, topic, scan, task);
      TaskAside(u, task, Dispatching(s, topics, On(SettleMark(scan, mark))));
      ThenMark(u, task, Dispatching(s, topics, On(SettleMark(scan, mark))), Dispatching(s, topics, Position), s, topic,
               scan);
      SameMarks(u, w);
      StoreScan(s, topics, topic, scan, mark, task);
    }

    method ReadScan(s: string, ghost topics: seq<string>, topic: string, ghost scan: nat, ghost task: string)
      returns (mark: int)
      requires Valid() && InLoop(w, task, s, topics, Settling(scan)) && topics[0] == topic
      modifies this`w, this`trace
      ensures Valid() && mark == Mark(old(w), s, topic)
      ensures w == SetTask(old(w), task, Dispatching(s, topics, On(SettleMark(scan, mark))))
    {
      hide RunCatchUp, Holds, RetryQueue.Queue.Valid, Recorded;
      var marks := subs.HighWater(s);
      mark := if topic in marks then marks[topic] else -1;
      SettleWorld(cfg, w, task, s, topics, scan, mark, Plain());
      Loop(task, s, topics, Settling(scan));
    }

    method StoreScan(s: string, ghost topics: seq<string>, topic: string, scan: nat, mark: int, ghost task: string)
      requires Valid() && InLoop(w, task, s, topics, SettleMark(scan, mark)) && topics[0] == topic
      requires mark == Mark(w, s, topic)
      modifies this`w, this`trace, subs`marks
      ensures Valid() && w == SetTask(Raised(old(w), s, topic, scan), task, Dispatching(s, topics, Position))
    {
      hide RunCatchUp, Holds, RetryQueue.Queue.Valid, Recorded, MarkOf;
      SettleWorld(cfg, w, task, s, topics, scan, mark, Plain());
      if scan > mark { subs.SetHighWater(s, topic, scan); }
      Loop(task, s, topics, SettleMark(scan, mark));
    }

    ghost method EndScan(s: string, topics: seq<string>, scan: nat, hi: nat, task: string)
      requires Valid() && InLoop(w, task, s, topics, Scanning(hi, hi, scan))
      modifies this`w, this`trace
      ensures Valid() && w == OnPage(old(w), task, s, topics, Settling(scan))
    {
      hide RunCatchUp, Holds, RetryQueue.Queue.Valid, Recorded;
      ScanWorld(cfg, w, task, s, topics, hi, hi, scan, Plain());
      Loop(task, s, topics, Scanning(hi, hi, scan));
    }

    /** Persists the scan position once per page. */
    method Settle(s: string, ghost topics: seq<string>, topic: string, scan: nat, ghost hi: nat, ghost task: string)
      requires Valid() && InLoop(w, task, s, topics, Scanning(hi, hi, scan)) && topics[0] == topic
      requires Mark(w, s, topic) <= scan
      modifies this`w, this`trace, subs`marks
      ensures Valid() && Kept(old(w), w, task, s, topic)
      ensures task in w.tasks && w.tasks[task] == Dispatching(s, topics, Position)
      ensures Mark(w, s, topic) == scan
    {
      hide Valid, Kept, SetTask, Raised, Mark;
      ghost var u := w;
      SettleKeeps(u, task, s, topics, topic, scan);
      EndScan(s, topics, scan, hi, task);
      TaskAside(u, task, Dispatching(s, topics, On(Settling(scan))));
      WriteScan(s, topics, topic, scan, task);
    }

    /** The loop reads the high-water mark. */
    method ReadPosition(s: string, ghost topics: seq<string>, topic: string, ghost task: string) returns (position: int)
      requires Valid() && topics != [] && topics[0] == topic && topic in w.logs && s in w.subs
      requires task in w.tasks && w.tasks[task] == Dispatching(s, topics, Position)
      modifies this`w, this`trace
      ensures Valid() && position == Mark(old(w), s, topic) && w == OnPage(old(w), task, s, topics, Fetching(position))
    {
      hide Apply, Enabled, Holds, RetryQueue.Queue.Valid, Recorded, EndTask;
      PositionStep(cfg, w, task, s, topics, Plain());
      var marks := subs.HighWater(s);
      position := if topic in marks then marks[topic] else -1;
      Go(task, Plain());
    }

    /** One round of the catch-up loop. */
    method OnePage(s: string, ghost topics: seq<string>, topic: string, ghost task: string)
      returns (done: bool, processed: nat)
      requires Valid() && topics != [] && topics[0] == topic && topic in w.logs && s in w.subs && cfg.maxAttempts >= 1
      requires task in w.tasks && w.tasks[task] == Dispatching(s, topics, Position)
      modifies this`w, this`trace, this`slept, this`drawn, subs, queue, transport
      ensures Valid() && Kept(old(w), w, task, s, topic) && w.logs == old(w).logs
      ensures task in w.tasks && w.tasks[task] == Dispatching(s, if done then topics[1..] else topics, Position)
      ensures Backlog(w.logs[topic], clock, old(Mark(w, s, topic)))
           == processed + Backlog(w.logs[topic], clock, Mark(w, s, topic))
      ensures if done then processed == 0 && Backlog(w.logs[topic], clock, Mark(w, s, topic)) == 0 else processed > 0
    {
      hide Valid, Kept, Mark, Backlog, Bounds, Opened, Apply;
      ghost var u, log := w, w.logs[topic];
      ghost var b := Bounds(log, clock, Mark(w, s, topic), cfg.pageSize);
      LogShape(topic);
      PageShape(topic, log, b.0, b.1);
      PageTakes(log, clock, Mark(w, s, topic), cfg.pageSize);
      ThenOpened(u, task, Dispatching(s, topics, On(Fetching(Mark(w, s, topic)))), s, topics, b.0, b.1,
                 Mark(w, s, topic));
      OpenedKeeps(u, task, s, topics, b.0, b.1, Mark(w, s, topic));
      var position := ReadPosition(s, topics, topic, task);
      var records := ReadPage(s, topics, topic, position, task);
      if records == [] { return true, 0; }
      done := false;
      ghost var v := w;
      processed := HandlePage(s, topics, topic, records, position, b.0, task);
      KeptOn(u, v, w, task, s, topic);
    }

    /** Handles the events of one page. */
    method HandlePage(s: string, ghost topics: seq<string>, topic: string, records: seq<EventRecord>, position: int,
                      ghost lo: nat, ghost task: string)
      returns (processed: nat)
      requires Valid() && topics != [] && topics[0] == topic && records != []
      requires InLoop(w, task, s, topics, Scanning(lo, lo + |records|, position))
      requires lo + |records| <= |w.logs[topic].recs| && records == w.logs[topic].recs[lo..lo + |records|]
      requires forall i :: 0 <= i < |records| ==> records[i].offset == lo + i && records[i].topic == topic
      requires position < lo && Mark(w, s, topic) <= position && cfg.maxAttempts >= 1
      modifies this`w, this`trace, this`slept, this`drawn, subs, queue, transport
      ensures Valid() && Kept(old(w), w, task, s, topic) && w.logs == old(w).logs && processed == |records|
      ensures task in w.tasks && w.tasks[task] == Dispatching(s, topics, Position)
      ensures Mark(w, s, topic) == lo + |records| - 1
    {
      ghost var u := w;
      hide Valid, Kept, Mark;
      var scan, n := ScanPage(s, topics, topic, records, position, lo, task);
      ghost var v := w;
      Settle(s, topics, topic, scan, lo + |records|, task);
      KeptOn(u, v, w, task, s, topic);
      KeptLogs(u, w, task, s, topic);
      processed := n;
    }

    /** Delivers all events of a topic past the subscription's position; returns how many there were. */
    method CatchUp(s: string, ghost topics: seq<string>, topic: string, ghost task: string) returns (processed: nat)
      requires Valid() && topics != [] && topics[0] == topic && topic in w.logs && s in w.subs && cfg.maxAttempts >= 1
      requires task in w.tasks && w.tasks[task] == Dispatching(s, topics, Position)
      modifies this`w, this`trace, this`slept, this`drawn, subs, queue, transport
      ensures Valid() && Kept(old(w), w, task, s, topic) && w.logs == old(w).logs
      ensures task in w.tasks && w.tasks[task] == Dispatching(s, topics[1..], Position)
      ensures processed == Backlog(w.logs[topic], clock, old(Mark(w, s, topic)))
      ensures Backlog(w.logs[topic], clock, Mark(w, s, topic)) == 0
    {
      hide Valid, Kept, Mark, Backlog;
      ghost var u := w;
      AsideKeeps(u, u, task, s, topic);
      processed := 0;
      while true
        invariant Valid() && Kept(u, w, task, s, topic) && w.logs == u.logs && s in w.subs
        invariant task in w.tasks && w.tasks[task] == Dispatching(s, topics, Position)
        invariant Backlog(w.logs[topic], clock, Mark(u, s, topic))
               == processed + Backlog(w.logs[topic], clock, Mark(w, s, topic))
        decreases Backlog(w.logs[topic], clock, Mark(w, s, topic))
      {
        ghost var v := w;
        var done, n := OnePage(s, topics, topic, task);
        KeptOn(u, v, w, task, s, topic);
        if done { return; }
        KeptSub(v, w, task, s, topic);
        processed := processed + n;
      }
    }

    ghost method Begin(s: string, topics: seq<string>, task: string)
      requires Valid() && s in w.subs && task !in w.tasks && forall t :: t in topics ==> t in w.subs[s].topics
      modifies this`w, this`trace
      ensures Valid() && w == SetTask(old(w), task, Dispatching(s, topics, Checking))
    {
      StartStep(cfg, w, task, s, topics);
      hide Apply, Enabled, Holds, RetryQueue.Queue.Valid, Recorded;
      Do(StartDispatch(task, s, topics));
    }

    /** A lapsed lease is expired in place. */
    method Expire(s: string, ghost u: World) returns (sub: Subscription)
      requires s in u.subs && subs.subs == u.subs && clock == u.clock
      modifies subs`subs
      ensures s in ExpireIfDue(u, s).subs && subs.subs == ExpireIfDue(u, s).subs && sub == subs.subs[s]
      ensures var was := old(subs.subs)[s];
        && sub == was.(status := if was.status == Active && was.leaseUntil <= clock then Expired else was.status)
        && subs.subs == old(subs.subs)[s := sub]
    {
      sub := subs.subs[s];
      if sub.status == Active && sub.leaseUntil <= clock {
        sub := sub.(status := Expired);
        subs.Update(s, sub);
      }
    }

    ghost method CheckGo(s: string, topics: seq<string>, task: string, allowed: bool)
      requires Recorded() && s in w.subs && task in w.tasks && w.tasks[task] == Dispatching(s, topics, Checking)
      requires Plain().retryId !in w.hist.issued
      modifies this`w, this`trace
      ensures Recorded() && w == CheckedWorld(old(w), s, topics, task, allowed)
    {
      hide Apply, Enabled, Recorded, CheckedWorld;
      CheckWorld(cfg, w, task, s, topics, Plain().(allowed := allowed));
      Go(task, Plain().(allowed := allowed));
    }

    method IsActive(s: string, ghost topics: seq<string>, ghost task: string) returns (active: bool)
      requires Valid() && s in w.subs && task in w.tasks && w.tasks[task] == Dispatching(s, topics, Checking)
      modifies this`w, this`trace, subs`subs
      ensures Valid() && active == (Serving(old(w), s) && authorised(s))
      ensures w == CheckedWorld(old(w), s, topics, task, authorised(s))
      ensures s in old(subs.subs) && var was := old(subs.subs)[s];
        && (active <==> was.status == Active && clock < was.leaseUntil && authorised(s))
        && subs.subs == old(subs.subs)[s := was.(status := if was.status == Active && was.leaseUntil <= clock
                                                           then Expired else was.status)]
    {
      hide Apply, Enabled, Holds, RetryQueue.Queue.Valid, Recorded, ExpireIfDue, CheckedWorld, Serving;
      ghost var u := w;
      ExpiredSubs(u, s);
      CheckedAside(u, s, topics, task, authorised(s));
      CheckGo(s, topics, task, authorised(s));
      var sub := Expire(s, u);
      active := sub.status == Active && authorised(s);
    }

    /** Is the subscription active, and delivery to it still granted?  A lapsed lease is expired on the way. */
    method Check(s: string, ghost topics: seq<string>, ghost task: string, ghost u: World) returns (active: bool)
      requires Valid() && s in u.subs && task !in u.tasks && w == SetTask(u, task, Dispatching(s, topics, Checking))
      modifies this`w, this`trace, subs`subs
      ensures Valid() && active == (Serving(u, s) && authorised(s))
      ensures var x := ExpireIfDue(u, s);
        if active then w == SetTask(x, task, Dispatching(s, topics, Waiting))
        else w == x.(hist := x.hist.(lapsed := x.hist.lapsed + {s}))
    {
      ChecksOut(u, task, s, topics);
      TaskAside(u, task, Dispatching(s, topics, Checking));
      hide Valid, ExpireIfDue, SetTask, EndTask;
      active := IsActive(s, topics, task);
    }

    /** Takes the dispatch lock of a subscription. */
    method Acquire(s: string, ghost topics: seq<string>, ghost task: string)
      requires Valid() && s in w.subs && s !in locked && task in w.tasks
          && w.tasks[task] == Dispatching(s, topics, Waiting)
      modifies this`w, this`trace, this`locked
      ensures Valid()
      ensures w == SetTask(old(w).(locks := old(w).locks[s := task]), task, Dispatching(s, topics, Position))
    {
      hide SetStatus, Number, Effect;
      LockStep(cfg, w, task, s, topics, Plain());
      hide Apply, Enabled, Holds, RetryQueue.Queue.Valid, Recorded;
      locked := locked + {s};
      Go(task, Plain());
    }

    /** Leaves the lock; the dispatch is over. */
    method Leave(s: string, ghost task: string)
      requires Valid() && s in w.subs && task in w.tasks && w.tasks[task] == Dispatching(s, [], Position)
      modifies this`w, this`trace, this`locked
      ensures Valid() && w == Release(old(w), task, s)
    {
      PositionStep(cfg, w, task, s, [], Plain());
      hide Apply, Enabled, Holds, RetryQueue.Queue.Valid, Recorded;
      locked := locked - {s};
      Go(task, Plain());
    }

    /** Catches up one topic after the other. */
    method CatchUpAll(s: string, topics: seq<string>, ghost task: string) returns (processed: nat)
      requires Valid() && s in w.subs && cfg.maxAttempts >= 1 && forall t :: t in topics ==> t in w.logs
      requires forall i, j :: 0 <= i < j < |topics| ==> topics[i] != topics[j]
      requires task in w.tasks && w.tasks[task] == Dispatching(s, topics, Position)
      modifies this`w, this`trace, this`slept, this`drawn, subs, queue, transport
      ensures Valid() && KeptFor(old(w), w, task, s) && w.logs == old(w).logs
      ensures task in w.tasks && w.tasks[task] == Dispatching(s, [], Position)
      ensures processed == Owed(old(w), s, topics)
      ensures forall t :: t in topics ==> Backlog(w.logs[t], clock, Mark(w, s, t)) == 0
    {
      hide Valid, Kept, Mark, Backlog, Owed, KeptFor, Apply;
      ghost var u := w;
      processed := 0;
      KeptForSame(u, task, s);
      NothingOwed(u, s, []);
      assert topics[0..] == topics;
      for i := 0 to |topics|
        invariant Valid() && KeptFor(u, w, task, s) && w.logs == u.logs && w.clock == u.clock && s in w.subs
        invariant task in w.tasks && w.tasks[task] == Dispatching(s, topics[i..], Position)
        invariant processed == Owed(u, s, topics[..i])
        invariant forall j :: 0 <= j < i ==> Backlog(w.logs[topics[j]], clock, Mark(w, s, topics[j])) == 0
        invariant forall j :: i <= j < |topics| ==> Mark(w, s, topics[j]) == Mark(u, s, topics[j])
      {
        ghost var v := w;
        ClockAgrees();
        assert topics[i..][1..] == topics[i + 1..] && topics[..i + 1] == topics[..i] + [topics[i]];
        OwedEnd(u, s, topics[..i], topics[i]);
        var n := CatchUp(s, topics[i..], topics[i], task);
        KeptForOn(u, v, w, task, s, topics[i]);
        KeptLogs(v, w, task, s, topics[i]);
        KeptSub(v, w, task, s, topics[i]);
        processed := processed + n;
      }
      assert topics[..|topics|] == topics;
    }

    /** Catches a subscription up to the head of `topics`; returns how many events that took. */
    method DispatchSubscription(s: string, topics: seq<string>, ghost task: string) returns (processed: nat)
      requires Valid() && s in w.subs && task !in w.tasks && s !in w.locks && cfg.maxAttempts >= 1
      requires forall t :: t in topics ==> t in w.subs[s].topics && t in w.logs
      requires forall i, j :: 0 <= i < j < |topics| ==> topics[i] != topics[j]
      modifies this`w, this`trace, this`slept, this`drawn, this`locked, subs, queue, transport
      ensures Valid() && Dispatched(old(w), w, s) && w.logs == old(w).logs
      ensures if Serving(old(w), s) && authorised(s)
              then processed == Owed(old(w), s, topics)
                   && forall t :: t in topics ==> Backlog(w.logs[t], clock, Mark(w, s, t)) == 0
              else processed == 0 && forall y :: Mark(w, s, y) == Mark(old(w), s, y)
    {
      hide Valid, Dispatched, Serving, Backlog, Owed, Mark, SetTask;
      ghost var u := w;
      Begin(s, topics, task);
      processed := DispatchStarted(s, topics, task, u);
    }

    /** The dispatch of a subscription that may be served, from its lock on. */
    method ServeLocked(s: string, topics: seq<string>, ghost task: string, ghost u: World) returns (processed: nat)
      requires Valid() && s in u.subs && task !in u.tasks && s !in u.locks && Serving(u, s) && cfg.maxAttempts >= 1
      requires w == SetTask(u, task, Dispatching(s, topics, Waiting))
      requires forall t :: t in topics ==> t in u.logs
      requires forall i, j :: 0 <= i < j < |topics| ==> topics[i] != topics[j]
      modifies this`w, this`trace, this`slept, this`drawn, this`locked, subs, queue, transport
      ensures Valid() && Dispatched(u, w, s) && w.logs == u.logs && processed == Owed(u, s, topics)
      ensures forall t :: t in topics ==> Backlog(w.logs[t], clock, Mark(w, s, t)) == 0
    {
      hide Valid, ExpireIfDue, SetTask, KeptFor, Dispatched, Backlog, Owed, Mark, Serving;
      ghost var x := SetTask(u.(locks := u.locks[s := task]), task, Dispatching(s, topics, Position));
      LockedWorld(u, task, s, topics);
      LocksAgree();
      TaskAside(u, task, Dispatching(s, topics, Waiting));
      Acquire(s, topics, task);
      assert w == x;
      processed := CatchUpAll(s, topics, task);
      ghost var v := w;
      KeptForKeys(x, v, task, s);
      WholeDispatch(u, v, task, s, topics);
      ReleaseKeeps(v, task, s);
      Leave(s, task);
    }

    /** The same, for a dispatch that was started in the world `u`. */
    method DispatchStarted(s: string, topics: seq<string>, ghost task: string, ghost u: World) returns (processed: nat)
      requires Valid() && s in u.subs && task !in u.tasks && s !in u.locks && cfg.maxAttempts >= 1
      requires w == SetTask(u, task, Dispatching(s, topics, Checking))
      requires forall t :: t in topics ==> t in u.logs
      requires forall i, j :: 0 <= i < j < |topics| ==> topics[i] != topics[j]
      modifies this`w, this`trace, this`slept, this`drawn, this`locked, subs, queue, transport
      ensures Valid() && Dispatched(u, w, s) && w.logs == u.logs
      ensures if Serving(u, s) && authorised(s)
              then processed == Owed(u, s, topics)
                   && forall t :: t in topics ==> Backlog(w.logs[t], clock, Mark(w, s, t)) == 0
              else processed == 0 && forall y :: Mark(w, s, y) == Mark(u, s, y)
    {
      hide Valid, ExpireIfDue, SetTask, Dispatched, Owed, Backlog, Mark, Serving;
      TaskAside(u, task, Dispatching(s, topics, Checking));
      var active := Check(s, topics, task, u);
      if !active {
        ExpiredDispatched(u, s, w.hist.lapsed);
        SameAfterExpiry(u, s);
        return 0;
      }
      LockedWorld(u, task, s, topics);
      processed := ServeLocked(s, topics, task, u);
    }

    /** Delivers everything still owed to any active subscription; returns how many events that took. */
    method DispatchPending(ghost task: string) returns (total: nat, ids: seq<string>)
      requires Valid() && Declared(w) && w.locks == map[] && task !in w.tasks && cfg.maxAttempts >= 1
      modifies this`w, this`trace, this`slept, this`drawn, this`locked, subs, queue, transport
      ensures Valid() && Declared(w) && w.logs == old(w).logs && w.tasks == old(w).tasks && w.locks == map[]
      ensures forall s :: s in ids <==> s in old(w).subs
      ensures forall i, j :: 0 <= i < j < |ids| ==> ids[i] != ids[j]
      ensures total == OwedAll(old(w), authorised, ids)
      ensures CaughtUp(w, authorised)
    {
      hide Valid, DispatchedAll, Dispatched, Backlog, Owed, Mark, Serving, Declared, OwedAll;
      ghost var u, done: set<string> := w, {};
      SubsAgree();
      ids := subs.ListAll();
      total := 0;
      DispatchedNone(u);
      OwedNone(u, authorised);
      for i := 0 to |ids|
        invariant Valid() && DispatchedAll(u, w, done) && w.locks == map[] && task !in w.tasks
        invariant done == set s | s in ids[..i]
        invariant total == OwedAll(u, authorised, ids[..i])
        invariant Settled(u, w, authorised, done)
      {
        assert ids[..i + 1] == ids[..i] + [ids[i]];
        OwedAllEnd(u, authorised, ids[..i], ids[i]);
        var n := DispatchNext(ids[i], task, u, done);
        total := total + n;
        done := done + {ids[i]};
      }
      assert ids[..|ids|] == ids;
      AllSettled(u, w, authorised, done);
    }

    /** The dispatch of the next subscription in the list. */
    method DispatchNext(s: string, ghost task: string, ghost u: World, ghost done: set<string>) returns (processed: nat)
      requires Valid() && Declared(u) && DispatchedAll(u, w, done) && s in u.subs && s !in done
      requires Settled(u, w, authorised, done)
      requires w.locks == map[] && task !in w.tasks && cfg.maxAttempts >= 1
      modifies this`w, this`trace, this`slept, this`drawn, this`locked, subs, queue, transport
      ensures Valid() && DispatchedAll(u, w, done + {s}) && Settled(u, w, authorised, done + {s})
      ensures w.locks == map[] && task !in w.tasks
      ensures processed == if Serving(u, s) && authorised(s) then Owed(u, s, u.subs[s].topics) else 0
    {
      hide Apply, RunDispatch, Enabled;
      ghost var v := w;
      NextReady(u, v, s, done);
      hide Valid, DispatchedAll, Backlog, Owed, Mark, Serving, Settled;
      processed := DispatchSubscription(s, subs.subs[s].topics, task);
      OneMoreDispatched(u, v, w, done, s);
      OneMoreSettled(u, v, w, authorised, done, s);
    }

    /** With nothing else going on, a second dispatch has nothing left to do. */
    method DispatchTwice(ghost task: string) returns (first: nat, second: nat)
      requires Valid() && Declared(w) && w.locks == map[] && task !in w.tasks && cfg.maxAttempts >= 1
      modifies this`w, this`trace, this`slept, this`drawn, this`locked, subs, queue, transport
      ensures Valid() && Declared(w) && CaughtUp(w, authorised) && second == 0
    {
      var ids;
      first, ids := DispatchPending(task);
      ghost var v := w;
      second, ids := DispatchPending(task);
      NothingOwedAll(v, authorised, ids);
    }

    /** Drops what has left retention from the store: the world, and with it every later answer and delivery, stays. */
    method Compact(only: Option<string>) returns (removed: nat)
      requires Valid()
      modifies store
      ensures Valid() && w == old(w) && trace == old(trace) && store.streams == old(store.streams)
      ensures removed == Stored(old(store.logs), store.names) - Stored(store.logs, store.names)
      ensures removed == |Overdue(old(store.logs), if only.None? then old(store.logs.Keys) else {only.value}, clock)|
      ensures store.logs.Keys == old(store.logs.Keys) == store.streams.Keys
      ensures forall t :: t in store.logs ==>
                if (only.None? || only.value == t) && old(store.logs)[t].retention > 0
                then store.logs[t] == old(store.logs)[t].(events := w.logs[t].recs[w.logs[t].FirstLive(clock)..])
                     && KeepsRecent(w.logs[t], store.logs[t], clock)
                else store.logs[t] == old(store.logs)[t]
    {
      hide Holds, RetryQueue.Queue.Valid, Recorded, Stored, Overdue, KeepsRecent, Stream.FirstLive;
      removed := store.Compact(only, clock);
    }

    /** The event a cursor names, if it is still live; a malformed cursor is refused. */
    method RecordAt(topic: string, cursor: string) returns (r: Result<Option<EventRecord>, ErrorCode>)
      requires Valid()
      ensures r ==
              match OffsetOf(cursor)
              case Failure(e) => Failure(e)
              case Success(o) =>
                Success(if TopicOf(cursor) == Success(topic) && StillLive(w, topic, o) then Some(w.logs[topic].recs[o])
                        else None)
    {
      hide OffsetOf, TopicOf, Holds, Recorded, RetryQueue.Queue.Valid;
      r := Reads.RecordAt(store, topic, cursor, clock);
    }

    /** One step of the retry worker. */
    ghost method Work(task: string, rest: seq<RetryItem>, work: WorkStage, inp: Input)
      requires Recorded() && task in w.tasks && w.tasks[task] == Working(rest, work)
      requires (inp.ack ==> inp.taken) && inp.retryId !in w.hist.issued
      modifies this`w, this`trace
      ensures Recorded() && w == RunWork(cfg, old(w), task, inp)
    {
      WorkStep(cfg, w, task, rest, work, inp);
      hide Apply, Enabled, RunWork, Possible, Outcome, Recorded;
      Go(task, inp);
    }

    /** Is the item's subscription still active? */
    method Review(item: RetryItem, ghost rest: seq<RetryItem>, ghost task: string) returns (active: bool)
      requires Valid() && AtWork(w, task, rest, Reviewing) && rest[0] == item
      modifies this`w, this`trace
      ensures Valid() && active == !Gone(old(w), item.sub)
      ensures w == if active then SetTask(old(w), task, Working(rest, Loading))
                   else SetTask(Drop(old(w), item), task, Working(rest, Completing))
    {
      hide Apply, Receive, RunSubscribe, Encode, Number, Fanned, Enabled, Digits;
      ReviewWorld(cfg, w, task, rest, Plain());
      hide RunWork, Holds, RetryQueue.Queue.Valid, Recorded;
      var sub := subs.Get(item.sub);
      active := sub.Some? && sub.value.status == Active;
      Work(task, rest, Reviewing, Plain());
    }

    ghost method LoadGo(task: string, rest: seq<RetryItem>, work: WorkStage)
      requires Valid() && AtWork(w, task, rest, work) && (work.Loading? || work.Reloading?)
      requires work.Reloading? ==> NeedsReload(w, rest[0].topic, rest[0].offset)
      modifies this`w, this`trace
      ensures Valid()
      ensures w == SetTask(old(w), task, if work.Loading? && NeedsReload(old(w), rest[0].topic, rest[0].offset)
                                         then Working(rest, Reloading) else Loaded(old(w), rest))
    {
      hide Fetch, RunWork, Holds, RetryQueue.Queue.Valid, Recorded, NeedsReload, Loaded, SetTask;
      var t := rest[0].topic;
      if t in w.logs { LogShape(t); }
      LoadWorld(cfg, w, task, rest, work, Plain());
      TaskAside(w, task, if work.Loading? && NeedsReload(w, t, rest[0].offset) then Working(rest, Reloading)
                         else Loaded(w, rest));
      Work(task, rest, work, Plain());
    }

    /** What the store's topics look like. */
    lemma LogShape(t: string)
      requires Valid() && t in w.logs
      ensures t != "" && w.logs[t].Ordered()
      ensures forall i :: 0 <= i < |w.logs[t].recs| ==> w.logs[t].recs[i].topic == t && w.logs[t].recs[i].offset == i
    {
      hide Holds, RetryQueue.Queue.Valid, Recorded;
      Reads.LogShape(store, t);
    }

    lemma StoreReady()
      requires Valid()
      ensures store.Valid() && store.clock <= clock == w.clock && store.streams == w.logs
    {
      hide Holds, RetryQueue.Queue.Valid, Recorded;
    }

    lemma LocksAgree()
      requires Valid()
      ensures locked == w.locks.Keys && clock == w.clock
    {
      hide Holds, RetryQueue.Queue.Valid, Recorded;
    }

    lemma ReceivedAgrees()
      requires Valid()
      ensures transport.received == w.received
    {
    }

    lemma SubsAgree()
      requires Valid()
      ensures subs.subs == w.subs
    {
    }

    /** Loads the item's event, if it is still live. */
    method Load(item: RetryItem, ghost rest: seq<RetryItem>, ghost task: string) returns (record: Option<EventRecord>)
      requires Valid() && AtWork(w, task, rest, Loading) && rest[0] == item && item.topic != ""
      modifies this`w, this`trace
      ensures Valid() && w == SetTask(old(w), task, Loaded(old(w), rest))
      ensures record == if StillLive(old(w), item.topic, item.offset) then Some(w.logs[item.topic].recs[item.offset])
                        else None
    {
      hide Valid, Encode, Split, OffsetOf, TopicOf, NeedsReload, SetTask, Loaded, StillLive, LiveRecord;
      ghost var u := w;
      SplitEncode(item.topic, item.offset);
      StoreReady();
      LiveIs(u, item.topic, item.offset);
      TaskAside(u, task, Loaded(u, rest));
      record := Reads.Lookup(store, item.topic, Encode(item.topic, item.offset), item.offset, clock);
      LoadGo(task, rest, Loading);
      if NeedsReload(u, item.topic, item.offset) {
        SetTwice(u, task, Working(rest, Reloading), Loaded(u, rest));
        TaskAside(u, task, Working(rest, Reloading));
        NeedsSame(u, w, item.topic, item.offset);
        LoadedSame(u, w, rest);
        LoadGo(task, rest, Reloading);
      }
    }

    /** Removes a finished item and turns to the next. */
    method Finish(item: RetryItem, ghost rest: seq<RetryItem>, ghost task: string)
      requires Valid() && AtWork(w, task, rest, Completing) && rest[0] == item
      modifies this`w, this`trace, queue
      ensures Valid()
      ensures w == SetTask(Without(old(w), item.retryId), task, Working(rest[1..], Reviewing))
      ensures task in w.tasks && w.tasks[task] == Working(rest[1..], Reviewing)
    {
      hide Apply, Fanned, AdvanceCursor, Zeros, AllDigits, Enabled;
      CompleteWorld(cfg, w, task, rest, Plain());
      hide RunWork, Holds, RetryQueue.Queue.Valid, Recorded;
      queue.Complete(item.retryId);
      Work(task, rest, Completing, Plain());
    }

    /** Puts a failed item off. */
    method PutOff(item: RetryItem, attempt: nat, ghost record: EventRecord, ghost rest: seq<RetryItem>,
                  ghost task: string)
      requires Valid() && AtWork(w, task, rest, Redelivering(HandOver(attempt))) && rest[0] == item && attempt >= 1
      requires item.sub in w.subs && Logged(w, item.topic, item.offset)
      modifies this`w, this`trace, queue
      ensures Valid()
      ensures var at := clock + Backoff.Delay(initialDelay, maxDelay, attempt);
        w == SetTask(PostponedIn(old(w), item.retryId, attempt, at), task, Working(rest[1..], Reviewing))
      ensures task in w.tasks && w.tasks[task] == Working(rest[1..], Reviewing)
    {
      hide RunWork, Holds, RetryQueue.Queue.Valid, Recorded, Logged, SetTask, PostponedIn;
      var at := clock + Backoff.Delay(initialDelay, maxDelay, attempt);
      ghost var u := w;
      RescheduleWorld(cfg, w, task, rest, attempt, Plain().(at := at));
      PostponedStores(u, item.retryId, attempt, at);
      TaskAside(PostponedIn(u, item.retryId, attempt, at), task, Working(rest[1..], Reviewing));
      queue.Reschedule(item.retryId, at, attempt);
      Work(task, rest, Redelivering(HandOver(attempt)), Plain().(at := at));
    }

    /** A retry that was acked or given up: the item is done with. */
    method EndRetry(item: RetryItem, record: EventRecord, reply: Reply, ghost rest: seq<RetryItem>, ghost task: string)
      requires Valid() && rest != [] && rest[0] == item && record.topic == item.topic && record.offset == item.offset
      requires Stands(w, task, InWork(rest), item.sub, item.topic, item.offset,
                      Sent(item.attempt + 1, reply.ack, reply.retry))
      requires record == w.logs[item.topic].recs[item.offset]
      requires !StatusOf(cfg, item.attempt + 1, reply.ack, reply.retry).Retry?
      modifies this`w, this`trace, subs, queue
      ensures Valid()
      ensures w == SetTask(Judged(old(w), item, record,
                                  StatusOf(cfg, item.attempt + 1, reply.ack, reply.retry), 0), task,
                           Working(rest[1..], Reviewing))
      ensures task in w.tasks && w.tasks[task] == Working(rest[1..], Reviewing)
    {
      hide Holds, Recorded, RetryQueue.Queue.Valid, Valid, Mark, Kept;
      ghost var status := StatusOf(cfg, item.attempt + 1, reply.ack, reply.retry);
      ghost var y := Attempted(w, item.sub, record, item.attempt + 1, status);
      ghost var z := Closed(y, item.sub, record.topic, record.offset, status.Delivered?);
      ghost var c := InWork(rest);
      AtWorkNow(z, task, rest, Completing);
      ThenWithout(z, task, TaskDone(c, item.offset), Working(rest[1..], Reviewing), item.retryId);
      hide Recorded, Holds, RetryQueue.Queue.Valid, Stands, SetTask, Closed, Attempted, Valid;
      if reply.ack {
        OnDelivered(item.sub, record, item.attempt + 1, reply, task, c);
      } else {
        OnTerminal(item.sub, record, item.attempt + 1, reply, task, c);
      }
      Finish(item, rest, task);
    }

    /** A retry that failed and may be retried again: the item is put off. */
    method RetryAgain(item: RetryItem, record: EventRecord, reply: Reply, ghost rest: seq<RetryItem>,
                      ghost task: string)
      requires Valid() && rest != [] && rest[0] == item && record.topic == item.topic && record.offset == item.offset
      requires Stands(w, task, InWork(rest), item.sub, item.topic, item.offset,
                      Sent(item.attempt + 1, reply.ack, reply.retry))
      requires record == w.logs[item.topic].recs[item.offset]
      requires StatusOf(cfg, item.attempt + 1, reply.ack, reply.retry).Retry?
      modifies this`w, this`trace, subs, queue
      ensures Valid()
      ensures w == SetTask(Judged(old(w), item, record, Retry,
                                  clock + Backoff.Delay(initialDelay, maxDelay, item.attempt + 1)), task,
                           Working(rest[1..], Reviewing))
      ensures task in w.tasks && w.tasks[task] == Working(rest[1..], Reviewing)
    {
      hide Recorded, Holds, RetryQueue.Queue.Valid, SetTask, Attempted, PostponedIn, Valid;
      ghost var n, c := item.attempt + 1, InWork(rest);
      ghost var y := Attempted(w, item.sub, record, n, Retry);
      Untouched(w, item.sub, record, n, Retry);
      AtWorkNow(y, task, rest, Redelivering(HandOver(n)));
      ThenPostponed(y, task, TaskAt(c, item.offset, HandOver(n)), Working(rest[1..], Reviewing), item.retryId, n,
                    clock + Backoff.Delay(initialDelay, maxDelay, n));
      var st := RecordAttempt(item.sub, record, item.attempt + 1, reply, task, c);
      PutOff(item, item.attempt + 1, record, rest, task);
    }

    /** Re-attempts one queued delivery; `None` when the subscription is gone or the event too old. */
    method RetryDelivery(item: RetryItem, ghost rest: seq<RetryItem>, ghost task: string)
      returns (status: Option<AttemptStatus>)
      requires Valid() && AtWork(w, task, rest, Reviewing) && rest[0] == item && item.topic != ""
      modifies this`w, this`trace, subs, queue, transport
      ensures Valid() && (status.Some? && status.value.Retry? ==> item.attempt + 1 < cfg.maxAttempts)
      ensures status.None? <==> Gone(old(w), item.sub) || !StillLive(old(w), item.topic, item.offset)
      ensures status.None? ==> transport.sent == old(transport.sent)
      ensures status.Some? ==> transport.sent == old(transport.sent) + 1
      ensures var reply := transport.replies(old(transport.sent));
        && (status == Some(Delivered) <==> status.Some? && reply.ack)
        && (status == Some(DeadLetter) <==>
              status.Some? && !reply.ack && (!reply.retry || item.attempt + 1 >= cfg.maxAttempts))
      ensures var u := old(w);
        status.Some? <==>
          && item.sub in u.subs && u.subs[item.sub].status == Active
          && item.topic in u.logs && item.offset < |u.logs[item.topic].recs|
          && var log := u.logs[item.topic];
             (log.retention <= 0 || log.recs[item.offset].createdAt >= clock - log.retention)
      ensures TurnLeaves(old(w), w, item, status, clock + Backoff.Delay(initialDelay, maxDelay, item.attempt + 1))
      ensures var u, next := old(w), Working(rest[1..], Reviewing);
        match status
        case None => w == SetTask(Without(if Gone(u, item.sub) then Drop(u, item) else u, item.retryId), task, next)
        case Some(st) =>
          w == SetTask(Judged(u.(received := transport.received), item, u.logs[item.topic].recs[item.offset], st,
                              if st.Retry? then clock + Backoff.Delay(initialDelay, maxDelay, item.attempt + 1) else 0),
                       task, next)
      ensures task in w.tasks && w.tasks[task] == Working(rest[1..], Reviewing)
    {
      hide *;
      WorkRest(w, task, rest, Reviewing);
      ghost var u, next := w, Working(rest[1..], Reviewing);
      ClockAgrees();
      if item.topic in w.logs { LogShape(item.topic); }
      NowLive(u, item.sub, item.topic, item.offset);
      AttemptedWhen(u, item);
      NoneLeaves(u, item, task, next, clock + Backoff.Delay(initialDelay, maxDelay, item.attempt + 1));
      var active := Review(item, rest, task);
      if !active {
        AtWorkNow(Drop(u, item), task, rest, Completing);
        ThenWithout(Drop(u, item), task, Working(rest, Completing), next, item.retryId);
        Finish(item, rest, task);
        return None;
      }
      var record := LoadNext(item, rest, task, u);
      if record.None? {
        AtWorkNow(u, task, rest, Completing);
        ThenWithout(u, task, Working(rest, Completing), next, item.retryId);
        Finish(item, rest, task);
        return None;
      }
      var st := Redeliver(item, record.value, rest, task, u);
      JudgedLeaves(u, item, record.value, st, clock + Backoff.Delay(initialDelay, maxDelay, item.attempt + 1),
                   transport.received, task, next);
      return Some(st);
    }

    method LoadNext(item: RetryItem, ghost rest: seq<RetryItem>, ghost task: string, ghost u: World)
      returns (record: Option<EventRecord>)
      requires Valid() && rest != [] && rest[0] == item && item.topic != ""
          && w == SetTask(u, task, Working(rest, Loading))
      modifies this`w, this`trace
      ensures Valid()
      ensures w == SetTask(u, task, if record.Some? then TaskAt(InWork(rest), item.offset, Sending(item.attempt + 1))
                                               else Working(rest, Completing))
      ensures record == if StillLive(u, item.topic, item.offset) then Some(u.logs[item.topic].recs[item.offset])
                        else None
    {
      hide Holds, Recorded, RetryQueue.Queue.Valid, Valid;
      AtWorkNow(u, task, rest, Loading);
      NeedsSame(u, w, item.topic, item.offset);
      ghost var v := w;
      SetTwice(u, task, Working(rest, Loading), Loaded(v, rest));
      hide Valid, SetTask, StillLive;
      record := Load(item, rest, task);
    }

    method Redeliver(item: RetryItem, record: EventRecord, ghost rest: seq<RetryItem>, ghost task: string,
                     ghost u: World)
      returns (status: AttemptStatus)
      requires Valid() && rest != [] && rest[0] == item && item.sub in u.subs
      requires StillLive(u, item.topic, item.offset) && record == u.logs[item.topic].recs[item.offset]
      requires w == SetTask(u, task, TaskAt(InWork(rest), item.offset, Sending(item.attempt + 1)))
      modifies this`w, this`trace, subs, queue, transport
      ensures Valid() && (status.Retry? ==> item.attempt + 1 < cfg.maxAttempts)
      ensures w == SetTask(Judged(u.(received := transport.received), item, record, status,
                                  if status.Retry? then clock + Backoff.Delay(initialDelay, maxDelay, item.attempt + 1)
                                  else 0), task, Working(rest[1..], Reviewing))
      ensures task in w.tasks && w.tasks[task] == Working(rest[1..], Reviewing)
      ensures transport.sent == old(transport.sent) + 1
      ensures var reply := transport.replies(old(transport.sent));
        && (status == Delivered <==> reply.ack)
        && (status == DeadLetter <==> !reply.ack && (!reply.retry || item.attempt + 1 >= cfg.maxAttempts))
    {
      hide Valid, Stands, SetTask, Judged, StillLive, Apply, TaskAt;
      ghost var c, n := InWork(rest), item.attempt + 1;
      TaskAside(u, task, TaskAt(c, item.offset, Sending(n)));
      NowLive(u, item.sub, item.topic, item.offset);
      LogShape(item.topic);
      StandsAt(u, task, c, item.sub, item.topic, item.offset, Sending(n));
      var reply := AttemptSend(item.sub, record, item.attempt + 1, task, c);
      ThenReceived(u, task, TaskAt(c, item.offset, Sending(n)), TaskAt(c, item.offset, Sent(n, reply.ack, reply.retry)),
                   transport.received);
      status := Judge(item, record, reply, rest, task, u.(received := transport.received));
    }

    /** Records an answered retry and ends it, or puts it off. */
    method Judge(item: RetryItem, record: EventRecord, reply: Reply, ghost rest: seq<RetryItem>, ghost task: string,
                 ghost x: World)
      returns (status: AttemptStatus)
      requires Valid() && rest != [] && rest[0] == item && item.sub in x.subs
      requires Logged(x, item.topic, item.offset) && record == x.logs[item.topic].recs[item.offset]
      requires record.topic == item.topic && record.offset == item.offset
      requires w == SetTask(x, task, TaskAt(InWork(rest), item.offset, Sent(item.attempt + 1, reply.ack, reply.retry)))
      modifies this`w, this`trace, subs, queue
      ensures Valid() && (status.Retry? ==> item.attempt + 1 < cfg.maxAttempts)
      ensures w == SetTask(Judged(x, item, record, status,
                                  if status.Retry? then clock + Backoff.Delay(initialDelay, maxDelay, item.attempt + 1)
                                  else 0), task, Working(rest[1..], Reviewing))
      ensures task in w.tasks && w.tasks[task] == Working(rest[1..], Reviewing)
      ensures status == Delivered <==> reply.ack
      ensures status == DeadLetter <==> !reply.ack && (!reply.retry || item.attempt + 1 >= cfg.maxAttempts)
    {
      hide Holds, Recorded, RetryQueue.Queue.Valid, Valid, Closed, Attempted, Judged, Ended, Mark;
      ghost var a := TaskAt(InWork(rest), item.offset, Sent(item.attempt + 1, reply.ack, reply.retry));
      StandsAt(x, task, InWork(rest), item.sub, item.topic, item.offset,
               Sent(item.attempt + 1, reply.ack, reply.retry));
      status := StatusOf(cfg, item.attempt + 1, reply.ack, reply.retry);
      var at := if status.Retry? then clock + Backoff.Delay(initialDelay, maxDelay, item.attempt + 1) else 0;
      ThenJudged(x, task, a, Working(rest[1..], Reviewing), item, record, status, at);
      hide Valid, Judged, SetTask, Stands, TaskAt;
      if status.Retry? {
        RetryAgain(item, record, reply, rest, task);
      } else {
        EndRetry(item, record, reply, rest, task);
      }
    }

    /** Claims the due retries. */
    method Claim(batch: nat, lease: int, ghost task: string) returns (items: seq<RetryItem>)
      requires Valid() && task !in w.tasks
      modifies this`w, this`trace, queue
      ensures Valid()
      ensures var ids := RetryQueue.Claimed(old(queue.Contents()), clock, batch);
        && |items| == |ids|
        && (forall c :: c in ids ==> c in old(w).queue)
        && items == LeasedItems(old(w).queue, ids, clock + lease)
        && w == SetTask(Leased(old(w), ids, clock + lease), task, Working(items, Reviewing))
    {
      hide Apply, Enabled, Holds, Recorded, RetryQueue.Claimed, RetryQueue.Queue.Valid, LeasedItems, Leased;
      ghost var u, ids := w, RetryQueue.Claimed(queue.Contents(), clock, batch);
      ClaimEnabled(cfg, u, queue.Contents(), clock, batch, task, clock + lease);
      LeasedFrame(u, ids, clock + lease);
      items := TakeDue(batch, lease, u);
      Do(StartWork(task, ids, clock + lease));
    }

    method TakeDue(batch: nat, lease: int, ghost u: World) returns (items: seq<RetryItem>)
      requires queue.Contents().Valid() && queue.items == u.queue
      modifies queue
      ensures queue.Contents().Valid()
      ensures var ids := RetryQueue.Claimed(old(queue.Contents()), clock, batch);
        && (forall c :: c in ids ==> c in u.queue)
        && queue.items == Leased(u, ids, clock + lease).queue
        && items == LeasedItems(u.queue, ids, clock + lease) && |items| == |ids|
    {
      hide RetryQueue.Claimed, RetryQueue.Queue.Valid, RetryQueue.Leased, Leased, LeasedItems;
      ghost var ids := RetryQueue.Claimed(queue.Contents(), clock, batch);
      RetryQueue.ClaimedDue(queue.Contents(), clock, batch);
      items := queue.ClaimDue(clock, batch, lease);
      LeasedAgree(u, ids, clock + lease, items);
    }

    /** Processes all retries that are due now; returns how many there were. */
    method RunOnce(batch: nat, lease: int, ghost task: string)
      returns (n: nat, ghost items: seq<RetryItem>, ghost ends: seq<Option<AttemptStatus>>)
      requires Valid() && task !in w.tasks && forall q :: q in w.queue ==> w.queue[q].topic != ""
      modifies this`w, this`trace, subs, queue, transport
      ensures Valid() && task !in w.tasks
      ensures var ids := RetryQueue.Claimed(old(queue.Contents()), clock, batch);
        && (forall c :: c in ids ==> c in old(w).queue)
        && items == LeasedItems(old(w).queue, ids, clock + lease) && n == |ids| == |items| == |ends|
      ensures Through(old(w), w, items, ends, initialDelay, maxDelay)
      ensures forall i :: 0 <= i < n && ends[i] == Some(Retry) ==> items[i].attempt + 1 < cfg.maxAttempts
    {
      hide RetryQueue.Claimed, Recorded, Holds, Valid, Through, Leased, LeasedItems;
      ghost var u := w;
      var claimed := ClaimDistinct(batch, lease, task);
      items, ends := claimed, [];
      assert claimed[0..] == claimed;
      for i := 0 to |claimed|
        invariant Valid() && |ends| == i && Through(u, w, items, ends, initialDelay, maxDelay)
        invariant forall j :: 0 <= j < i && ends[j] == Some(Retry) ==> items[j].attempt + 1 < cfg.maxAttempts
        invariant task in w.tasks && w.tasks[task] == Working(claimed[i..], Reviewing)
      {
        assert claimed[i..][1..] == claimed[i + 1..];
        ends := RetryNext(claimed[i], items, ends, task, u);
      }
      assert claimed[|claimed|..] == [];
      ThroughAside(u, w, task, items, ends, initialDelay, maxDelay);
      FinishWork(task);
      n := |claimed|;
    }

    /** Claims the due retries, each once. */
    method ClaimDistinct(batch: nat, lease: int, ghost task: string) returns (items: seq<RetryItem>)
      requires Valid() && task !in w.tasks && forall q :: q in w.queue ==> w.queue[q].topic != ""
      modifies this`w, this`trace, queue
      ensures Valid()
      ensures var ids := RetryQueue.Claimed(old(queue.Contents()), clock, batch);
        && (forall c :: c in ids ==> c in old(w).queue)
        && items == LeasedItems(old(w).queue, ids, clock + lease) && |items| == |ids|
      ensures Through(old(w), w, items, [], initialDelay, maxDelay)
      ensures forall i :: 0 <= i < |items| ==> items[i].topic != ""
      ensures forall i, j :: 0 <= i < j < |items| ==> items[i].retryId != items[j].retryId
      ensures task in w.tasks && w.tasks[task] == Working(items, Reviewing)
    {
      hide RetryQueue.Claimed, Recorded, Holds, Through, Leased, LeasedItems;
      ghost var u, ids := w, RetryQueue.Claimed(queue.Contents(), clock, batch);
      RetryQueue.ClaimedDue(queue.Contents(), clock, batch);
      RetryQueue.ClaimedOnce(queue.Contents(), clock, batch);
      ThroughStart(u, ids, clock + lease, initialDelay, maxDelay);
      items := Claim(batch, lease, task);
      ThroughAside(u, Leased(u, ids, clock + lease), task, items, [], initialDelay, maxDelay);
    }

    method RetryNext(item: RetryItem, ghost items: seq<RetryItem>, ghost ends: seq<Option<AttemptStatus>>,
                     ghost task: string, ghost u: World)
      returns (ghost more: seq<Option<AttemptStatus>>)
      requires Valid() && |ends| < |items| && items[|ends|] == item && item.topic != ""
      requires task in w.tasks && w.tasks[task] == Working(items[|ends|..], Reviewing)
      requires forall i, j :: 0 <= i < j < |items| ==> items[i].retryId != items[j].retryId
      requires Through(u, w, items, ends, initialDelay, maxDelay)
      modifies this`w, this`trace, subs, queue, transport
      ensures Valid() && Through(u, w, items, more, initialDelay, maxDelay)
      ensures |more| == |ends| + 1 && more[..|ends|] == ends
      ensures more[|ends|] == Some(Retry) ==> item.attempt + 1 < cfg.maxAttempts
      ensures task in w.tasks && w.tasks[task] == Working(items[|ends| + 1..], Reviewing)
    {
      hide Valid, Judged, Through, Turned, Drop, Gone, StillLive, Without;
      ghost var v, rest := w, items[|ends|..];
      assert rest[0] == item && rest[1..] == items[|ends| + 1..];
      ClockAgrees();
      var status := RetryDelivery(item, rest, task);
      more := ends + [status];
      ghost var x;
      if status.None? {
        DroppedTurn(v, item, initialDelay, maxDelay);
        x := Without(if Gone(v, item.sub) then Drop(v, item) else v, item.retryId);
      } else {
        JudgedTurn(v, item, status.value, transport.received, initialDelay, maxDelay);
        x := Judged(v.(received := transport.received), item, v.logs[item.topic].recs[item.offset], status.value,
                    if status.value.Retry? then clock + Backoff.Delay(initialDelay, maxDelay, item.attempt + 1) else 0);
      }
      TurnedAside(v, x, task, Working(rest[1..], Reviewing), item, status, initialDelay, maxDelay);
      ThroughMore(u, v, w, items, ends, status, initialDelay, maxDelay);
    }

    ghost method FinishWork(task: string)
      requires Valid() && task in w.tasks && w.tasks[task] == Working([], Reviewing)
      modifies this`w, this`trace
      ensures Valid() && w == EndTask(old(w), task)
    {
      hide Holds, Recorded, RetryQueue.Queue.Valid;
      Work(task, [], Reviewing, Plain());
    }

    /** Expires a lapsed lease, and checks that the ack may go ahead. */
    method BeginAck(s: string, cursor: string, ghost task: string) returns (sub: Subscription)
      requires Valid() && task !in w.tasks && s in w.subs
      modifies this`w, this`trace, subs`subs
      ensures Valid() && w == AckBegun(old(w), task, s, cursor)
      ensures s in ExpireIfDue(old(w), s).subs && sub == ExpireIfDue(old(w), s).subs[s]
    {
      hide Apply, Enabled, Holds, Recorded, RetryQueue.Queue.Valid, ExpireIfDue, AckBegun;
      ghost var u := w;
      BegunAside(u, task, s, cursor);
      sub := Expire(s, u);
      AckStarts(cfg, u, task, s, cursor);
      Do(StartAck(task, s, cursor));
    }

    /** An explicit ack: moves the acked cursor and the mark up to a cursor the subscriber names. */
    method Ack(s: string, cursor: string, ghost task: string) returns (r: Result<(), ErrorCode>)
      requires Valid() && task !in w.tasks
      modifies this`w, this`trace, subs
      ensures Valid()
      ensures var u := old(w);
        if s !in u.subs || u.subs[s].status == Deleted then r == Failure(SubscriptionNotFound) && w == u
        else
          var x := ExpireIfDue(u, s);
          if x.subs[s].status != Active then r == Failure(SubscriptionExpired) && w == x
          else
            match Split(cursor)
            case Failure(e) => r == Failure(e) && w == x
            case Success((t, o)) =>
              if t !in x.subs[s].topics then r == Failure(TopicNotAuthorized) && w == x
              else r == Success(()) && w == AckedBy(x, s, t, o, cursor)
      ensures r == Failure(SubscriptionNotFound) <==> s !in old(w).subs || old(w).subs[s].status == Deleted
      ensures r == Failure(SubscriptionExpired) <==>
                s in old(w).subs && var was := old(w).subs[s];
                was.status != Deleted && (was.status != Active || was.leaseUntil <= clock)
      ensures r.Success? ==>
                && Split(cursor).Success?
                && MovedTo(old(w), w, s, Split(cursor).value.0, Split(cursor).value.1, cursor)
    {
      hide MovedTo, AckedBy, Valid, Split, ExpireIfDue, SetTask, AckBegun;
      SubsAgree();
      if s !in subs.subs || subs.subs[s].status == Deleted { return Failure(SubscriptionNotFound); }
      ghost var u, x := w, ExpireIfDue(w, s);
      ClockAgrees();
      ExpiryMeans(u, s);
      SplitRefuses(cursor);
      AckBegins(w, task, s, cursor);
      var sub := BeginAck(s, cursor, task);
      if sub.status != Active { return Failure(SubscriptionExpired); }
      match Split(cursor) {
        case Failure(e) => return Failure(e);
        case Success((t, o)) =>
          if t !in sub.topics { return Failure(TopicNotAuthorized); }
          AckAdvance(s, t, o, cursor, task, x);
          AckMoves(u, s, t, o, cursor);
          return Success(());
      }
    }

    /** Advances to an explicitly acked cursor, and notes the ack for the audit trail. */
    method AckAdvance(s: string, t: string, o: nat, cursor: string, ghost task: string, ghost x: World)
      requires Valid() && s in x.subs && task !in x.tasks && OffsetOf(cursor) == Success(o)
      requires w == SetTask(x, task, Acking(s, t, o, cursor, AckCursor))
      modifies this`w, this`trace, subs
      ensures Valid() && w == AckedBy(x, s, t, o, cursor)
    {
      hide Valid, Less, OffsetOf, SetTask, EndTask, AckRaised, AdvanceCursor, Mark, Split, Apply;
      ghost var y := AdvanceCursor(x, s, t, cursor);
      ghost var a, b := Acking(s, t, o, cursor, AckCursor), Acking(s, t, o, cursor, AckRead);
      AckEnds(x, task, a, b, Acking(s, t, o, cursor, AckWrite(Mark(y, s, t))), s, t, o, cursor);
      TaskAside(x, task, a);
      MoveAcked(s, t, o, cursor, task);
      TaskAside(y, task, b);
      var mark := ReadAcked(s, t, o, cursor, task);
      TaskAside(y, task, Acking(s, t, o, cursor, AckWrite(mark)));
      WriteAcked(s, t, o, cursor, mark, task);
      var found := RecordAt(t, cursor);
      if found.value.Some? { NoteAck(s, found.value.value.eventId, cursor); }
    }

    method NoteAck(s: string, eventId: string, cursor: string)
      requires Valid()
      modifies subs`acks
      ensures Valid()
    {
      subs.RecordAck(s, eventId, cursor);
    }

    ghost predicate Asked(task: string, s: string, t: string, o: nat, cursor: string, stage: AckStage)
      reads this
    {
      s in w.subs && task in w.tasks && w.tasks[task] == Acking(s, t, o, cursor, stage)
    }

    ghost method AckStep(task: string)
      requires Recorded() && task in w.tasks && w.tasks[task].Acking? && Plain().retryId !in w.hist.issued
      modifies this`w, this`trace
      ensures Recorded() && w == RunAck(old(w), task)
    {
      AckEnabled(cfg, w, task, Plain());
      hide Apply, Enabled, RunAck, Possible, Outcome, Recorded;
      Go(task, Plain());
    }

    method MoveAcked(s: string, t: string, o: nat, cursor: string, ghost task: string)
      requires Valid() && Asked(task, s, t, o, cursor, AckCursor)
      modifies this`w, this`trace, subs`subs
      ensures Valid() && w == SetTask(AdvanceCursor(old(w), s, t, cursor), task, Acking(s, t, o, cursor, AckRead))
      ensures s in old(subs.subs) && var was := old(subs.subs)[s];
        subs.subs == if t in was.cursors && !Less(was.cursors[t], cursor) then old(subs.subs)
                     else old(subs.subs)[s := was.(cursors := was.cursors[t := cursor])]
    {
      hide Holds, Recorded, RetryQueue.Queue.Valid, Less;
      var sub := subs.subs[s];
      if t !in sub.cursors || Less(sub.cursors[t], cursor) {
        subs.Update(s, sub.(cursors := sub.cursors[t := cursor]));
      }
      AckStep(task);
    }

    method ReadAcked(s: string, t: string, o: nat, cursor: string, ghost task: string) returns (mark: int)
      requires Valid() && Asked(task, s, t, o, cursor, AckRead)
      modifies this`w, this`trace
      ensures Valid() && mark == Mark(old(w), s, t)
      ensures w == SetTask(old(w), task, Acking(s, t, o, cursor, AckWrite(mark)))
    {
      hide Holds, Recorded, RetryQueue.Queue.Valid;
      var marks := subs.HighWater(s);
      mark := if t in marks then marks[t] else -1;
      AckStep(task);
    }

    method WriteAcked(s: string, t: string, o: nat, cursor: string, mark: int, ghost task: string)
      requires Valid() && Asked(task, s, t, o, cursor, AckWrite(mark)) && mark == Mark(w, s, t)
      modifies this`w, this`trace, subs`marks
      ensures Valid() && w == EndTask(AckRaised(old(w), s, t, o), task)
    {
      hide Holds, Recorded, RetryQueue.Queue.Valid, MarkOf;
      if o > mark { subs.SetHighWater(s, t, o); }
      AckStep(task);
    }

    /** Appends one event and, unless dispatch is deferred, delivers it to every subscription of its topic. */
    method Publish(topic: string, eventId: string, content: Content, ghost task: string)
      returns (r: Result<EventRecord, ErrorCode>)
      requires Valid() && Declared(w) && w.tasks == map[] && w.locks == map[] && task !in w.subs && cfg.maxAttempts >= 1
      requires Fresh(w, eventId)
      modifies this`w, this`trace, this`slept, this`drawn, this`locked, store, subs, queue, transport
      ensures Valid() && w.tasks == map[] && w.locks == map[]
      ensures topic !in old(w).logs ==> r == Failure(TopicNotFound) && w == old(w)
      ensures topic in old(w).logs ==>
                && r == Success(EventRecord(eventId, topic, |old(w).logs[topic].recs|, content, clock))
                && w.logs == Appended(old(w), topic, r.value).logs
                && w.logs == old(w).logs[topic := Stream(old(w).logs[topic].retention,
                                                         old(w).logs[topic].recs + [r.value])]
                && (cfg.deferred ==> w == Appended(old(w), topic, r.value))
                && (!cfg.deferred ==> Reached(w, topic, authorised))
    {
      hide Valid, Fresh, Reached, Serving, Declared;
      ghost var u := w;
      r := AppendEvent(topic, eventId, content, task);
      if r.Failure? { return; }
      ghost var v := Appended(u, topic, r.value);
      DeclaredAppended(u, topic, r.value);
      hide Appended;
      Fan(task, topic, r.value.offset, v);
      if !cfg.deferred { DispatchTopic(topic, v); }
    }

    method AppendEvent(topic: string, eventId: string, content: Content, ghost task: string)
      returns (r: Result<EventRecord, ErrorCode>)
      requires Valid() && task !in w.tasks && Fresh(w, eventId)
      modifies this`w, this`trace, store
      ensures Valid()
      ensures topic !in old(w).logs ==> r == Failure(TopicNotFound) && w == old(w)
      ensures topic in old(w).logs ==>
                && r == Success(EventRecord(eventId, topic, |old(w).logs[topic].recs|, content, clock))
                && w == SetTask(Appended(old(w), topic, r.value), task, Publishing(topic, r.value.offset))
    {
      hide Recorded, Holds, RetryQueue.Queue.Valid, Fresh, Apply, Enabled;
      if topic in w.logs { PublishStep(cfg, w, task, topic, eventId, content); }
      r := store.Append(topic, eventId, content, clock);
      if r.Success? { Do(Dispatch.Event.Publish(task, topic, eventId, content)); }
    }

    ghost method Fan(task: string, topic: string, o: nat, v: World)
      requires Valid() && v.tasks == map[] && task !in v.subs && w == SetTask(v, task, Publishing(topic, o))
      modifies this`w, this`trace
      ensures Valid() && w == if cfg.deferred then v else Fanning(v, topic, Audience(v, topic))
    {
      hide Recorded, Holds, RetryQueue.Queue.Valid, Apply, Enabled, SetTask, Audience, Fanning, Children;
      var inp := Plain().(children := Children(v, topic));
      TaskAside(v, task, Publishing(topic, o));
      FanningStores(v, topic, Audience(v, topic));
      FanStep(cfg, v, task, topic, o, inp);
      Go(task, inp);
    }

    /** Catches every subscription of a topic up to the head, one after the other. */
    method DispatchTopic(topic: string, ghost v: World)
      requires Valid() && Declared(v) && v.tasks == map[] && v.locks == map[] && topic in v.logs && cfg.maxAttempts >= 1
      requires w == Fanning(v, topic, Audience(v, topic))
      modifies this`w, this`trace, this`slept, this`drawn, this`locked, subs, queue, transport
      ensures Valid() && w.tasks == map[] && w.locks == map[] && w.logs == v.logs && Reached(w, topic, authorised)
    {
      hide Valid, Serving, Declared, Backlog, Mark, Audience, Fanning, DispatchedAll, HeadReached;
      ghost var x, done: set<string> := v, {};
      FanningAside(v, topic, Audience(v, topic));
      SubsAgree();
      var ids := subs.ListAll();
      AtFirst(v, topic, authorised);
      for i := 0 to |ids|
        invariant Valid() && x.tasks == map[] && x.locks == map[] && x.logs == v.logs
        invariant done == set s | s in ids[..i]
        invariant w == Fanning(x, topic, Audience(v, topic) - done)
        invariant DispatchedAll(v, x, done) && HeadReached(v, x, topic, authorised, done)
      {
        assert ids[..i + 1] == ids[..i] + [ids[i]];
        x := DispatchChild(ids[i], topic, v, x, done);
        done := done + {ids[i]};
      }
      assert ids[..|ids|] == ids;
      AtLast(v, x, w, topic, authorised, done);
    }

    method DispatchChild(s: string, topic: string, ghost v: World, ghost x: World, ghost done: set<string>)
      returns (ghost y: World)
      requires Valid() && s in v.subs && s !in done && topic in v.logs && cfg.maxAttempts >= 1
      requires x.tasks == map[] && x.locks == map[] && x.logs == v.logs
      requires w == Fanning(x, topic, Audience(v, topic) - done)
      requires DispatchedAll(v, x, done) && HeadReached(v, x, topic, authorised, done)
      modifies this`w, this`trace, this`slept, this`drawn, this`locked, subs, queue, transport
      ensures Valid() && y.tasks == map[] && y.locks == map[] && y.logs == v.logs
      ensures w == Fanning(y, topic, Audience(v, topic) - (done + {s}))
      ensures DispatchedAll(v, y, done + {s}) && HeadReached(v, y, topic, authorised, done + {s})
    {
      hide Valid, Holds, Effect, Receive, Dispatched, Serving, Backlog, Mark, Audience, Fanning, DispatchedAll,
        HeadReached, Owed;
      ghost var rest := Audience(v, topic) - done;
      InAudience(v, x, topic, s, done);
      SubsAgree();
      if topic in subs.subs[s].topics {
        ghost var u := Fanning(x, topic, rest - {s});
        TakeUp(x, topic, rest, s);
        FanningAside(x, topic, rest - {s});
        var n := DispatchStarted(s, [topic], s, u);
        ClockAgrees();
        y := w.(tasks := map[]);
        ChildDone(v, x, w, topic, rest - {s}, authorised, done, s);
      } else {
        y := x;
        NoChild(v, x, topic, authorised, done, s);
      }
      assert Audience(v, topic) - (done + {s}) == rest - {s};
    }

    /** The start offset of one topic; malformed cursors are refused here. */
    method StartAt(t: string, cursor: string) returns (r: Result<int, ErrorCode>)
      requires Valid() && t in w.logs
      ensures StartsFrom(w.logs[t], clock, t, cursor, r)
      ensures r == StartParse(w.logs[t], clock, t, cursor)
    {
      hide Zeros, Holds, Recorded, RetryQueue.Queue.Valid, Fetch, Reading, Split, Encode, StartsFrom;
      var none: int := -1;
      LogShape(t);
      StartsByText(w.logs[t], clock, t, cursor);
      SplitEncode(t, Max(|w.logs[t].recs| - 1, 0));
      if cursor == EARLIEST { return Success(none); }
      if cursor != LATEST {
        match Split(cursor) {
          case Failure(e) => return Failure(e);
          case Success((topic, o)) =>
            if topic == t {
              StartReads(t, w.logs[t], clock, cursor, o);
              var page := store.Read(t, Some(cursor), Some(cursor), 1, clock);
              if page.Failure? { return Failure(page.error); }
              return Success(o);
            }
        }
      }
      var count := store.Count(t);
      if count == 0 { return Success(none); }
      var latest := store.LatestCursor(t);
      return Success(OffsetOf(latest).value);
    }

    ghost method SubscribeGo(task: string)
      requires Recorded() && task in w.tasks && w.tasks[task].Subscribing? && Plain().retryId !in w.hist.issued
      modifies this`w, this`trace
      ensures Recorded() && w == RunSubscribe(cfg, old(w), task)
    {
      CaptureEnabled(cfg, w, task, Plain());
      hide Apply, Enabled, RunSubscribe, Possible, Outcome, Recorded;
      Go(task, Plain());
    }

    /** A step of a subscribe call that touches no store. */
    ghost method CaptureGo(task: string, v: World)
      requires Valid() && task in w.tasks && w.tasks[task].Subscribing? && v == RunSubscribe(cfg, w, task)
      requires StoresSame(w, v)
      modifies this`w, this`trace
      ensures Valid() && w == v
    {
      hide RunSubscribe, Holds, Recorded, RetryQueue.Queue.Valid;
      SubscribeGo(task);
    }

    /** Captures the start offset of every topic. */
    method CaptureStarts(id: string, sub: Subscription, from: From, cursor: string, ghost task: string, ghost u: World)
      returns (r: Result<map<string, int>, ErrorCode>, ghost heads: map<string, nat>)
      requires Valid() && StartFrom(cursor, sub.topics) == Success(from) && task !in u.tasks && id !in u.subs
      requires forall t :: t in sub.topics ==> t in u.logs
      requires w == SetTask(u, task, Subscribing(id, sub, from, sub.topics, map[], map[]))
      modifies this`w, this`trace
      ensures Valid()
      ensures r.Failure? ==>
                && r.error == CursorExpired && w == u
                && exists t :: t in sub.topics && StartOffset(u.logs[t], u.clock, t, from).None?
      ensures r.Success? ==>
                && CapturedAt(u, from, sub.topics, r.value, heads)
                && w == SetTask(u, task, Subscribing(id, sub, from, [], r.value, heads))
    {
      hide Valid, StartOffset, ParseFrom, SetTask, RunSubscribe, CapturedAt, StartFrom;
      var starts: map<string, int> := map[];
      heads := map[];
      assert sub.topics[0..] == sub.topics;
      CapturedNone(u, from);
      for i := 0 to |sub.topics|
        invariant Valid() && CapturedAt(u, from, sub.topics[..i], starts, heads)
        invariant w == SetTask(u, task, Subscribing(id, sub, from, sub.topics[i..], starts, heads))
      {
        var t := sub.topics[i];
        assert sub.topics[i..][1..] == sub.topics[i + 1..] && sub.topics[i..][0] == t;
        StartParsed(cursor, sub.topics);
        var o := CaptureOne(id, sub, from, cursor, sub.topics[i..], starts, heads, task, u);
        if o.Failure? { return Failure(o.error), heads; }
        assert sub.topics[..i + 1] == sub.topics[..i] + [t];
        CapturedMore(u, from, sub.topics[..i], t, starts, heads, o.value);
        starts := starts[t := o.value];
        heads := heads[t := |u.logs[t].recs|];
      }
      assert sub.topics[..|sub.topics|] == sub.topics && sub.topics[|sub.topics|..] == [];
      r := Success(starts);
    }

    method CaptureOne(id: string, sub: Subscription, from: From, cursor: string, todo: seq<string>,
                      ghost starts: map<string, int>, ghost heads: map<string, nat>, ghost task: string, ghost u: World)
      returns (o: Result<int, ErrorCode>)
      requires Valid() && ParseFrom(cursor) == Success(from) && task !in u.tasks && id !in u.subs
      requires todo != [] && forall t :: t in todo ==> t in u.logs
      requires w == SetTask(u, task, Subscribing(id, sub, from, todo, starts, heads))
      modifies this`w, this`trace
      ensures Valid()
      ensures o.Failure? ==>
                && o.error == CursorExpired && w == u
                && StartOffset(u.logs[todo[0]], u.clock, todo[0], from).None?
      ensures o.Success? ==>
                && StartOffset(u.logs[todo[0]], u.clock, todo[0], from) == Some(o.value)
                && w == SetTask(u, task, Subscribing(id, sub, from, todo[1..], starts[todo[0] := o.value],
                                                     heads[todo[0] := |u.logs[todo[0]].recs|]))
    {
      hide StartOffset, ParseFrom, SetTask, RunSubscribe, Valid, Apply;
      ghost var t, a := todo[0], Subscribing(id, sub, from, todo, starts, heads);
      TaskAside(u, task, a);
      ClockAgrees();
      o := StartAt(todo[0], cursor);
      SubscribeRuns(cfg, u, task, id, sub, from, todo, starts, heads);
      if o.Success? {
        ghost var b := Subscribing(id, sub, from, todo[1..], starts[t := o.value], heads[t := |u.logs[t].recs|]);
        TaskAside(u, task, b);
        CaptureGo(task, SetTask(u, task, b));
      } else {
        CaptureGo(task, u);
      }
    }

    /** The last step of a subscribe call. */
    ghost method AddGo(id: string, sub: Subscription, from: From, starts: map<string, int>, heads: map<string, nat>,
                       task: string, u: World)
      requires Recorded() && task !in u.tasks && id !in u.subs && Plain().retryId !in u.hist.issued
      requires w == SetTask(u, task, Subscribing(id, sub, from, [], starts, heads))
      modifies this`w, this`trace
      ensures Recorded()
      ensures var x := Added(u, id, sub, starts, Taken(from, heads));
        w == if cfg.deferred then x else SetTask(x, task, Dispatching(id, sub.topics, Checking))
    {
      hide Recorded, RunSubscribe, Added;
      SubscribeRuns(cfg, u, task, id, sub, from, [], starts, heads);
      SubscribeGo(task);
    }

    /** Adds the subscription, with its start offsets as first marks. */
    method AddSubscription(id: string, sub: Subscription, ghost from: From, starts: map<string, int>,
                           ghost heads: map<string, nat>, ghost task: string, ghost u: World)
      requires Valid() && task !in u.tasks && id !in u.subs
      requires w == SetTask(u, task, Subscribing(id, sub, from, [], starts, heads))
      modifies this`w, this`trace, subs`subs, subs`marks
      ensures Valid()
      ensures var x := Added(u, id, sub, starts, Taken(from, heads));
        w == if cfg.deferred then x else SetTask(x, task, Dispatching(id, sub.topics, Checking))
    {
      hide Holds, Recorded, RetryQueue.Queue.Valid, SetTask, RunSubscribe, Added;
      TaskAside(u, task, Subscribing(id, sub, from, [], starts, heads));
      AddGo(id, sub, from, starts, heads, task, u);
      AddedAside(u, w, id, sub, starts, Taken(from, heads), task);
      subs.Add(id, sub, starts);
    }

    /**
     * Creates a subscription and, unless dispatch is deferred, catches it up at once.  `first` is what the
     * checks before the topics are looked up come to (lease, limits, authorisation, quota, delivery target),
     * `last` what those after it do (selector, delivery modes, replay).
     */
    method Subscribe(id: string, wanted: seq<string>, selector: Content -> bool, endpoint: string, leaseUntil: int,
                     cursor: string, first: Option<ErrorCode>, last: Option<ErrorCode>, ghost task: string)
      returns (r: Result<(), ErrorCode>)
      requires Valid() && w.tasks == map[] && w.locks == map[] && id !in w.subs && cfg.maxAttempts >= 1
      modifies this`w, this`trace, this`slept, this`drawn, this`locked, subs, queue, transport
      ensures Valid() && w.tasks == map[] && w.locks == map[]
      ensures var u, topics := old(w), Deduped(wanted);
        if first.Some? then r == Failure(first.value) && w == u
        else if exists t :: t in topics && t !in u.logs then r == Failure(TopicNotFound) && w == u
        else if last.Some? then r == Failure(last.value) && w == u
        else
          match StartFrom(cursor, topics)
          case Failure(e) => r == Failure(e) && w == u
          case Success(from) =>
            if exists t :: t in topics && StartOffset(u.logs[t], u.clock, t, from).None?
            then r == Failure(CursorExpired) && w == u
            else r == Success(()) && Begun(u, w, id, topics, from, cfg.deferred, authorised)
      ensures first.None? && last.None? && wanted != [] && (forall t :: t in wanted ==> t in old(w).logs) ==>
                SubscribedFrom(old(w), w, id, wanted, cursor, cfg.deferred, r)
      ensures r.Success? ==>
                && id in w.subs && var sub := w.subs[id];
                && sub == Subscription(Deduped(wanted), selector, endpoint, sub.status, leaseUntil, sub.cursors)
                && (cfg.deferred ==> sub.status == Active && sub.cursors == map[])
    {
      hide Valid, StartOffset, ParseFrom, SubscribedFrom, Begun, Dispatched, Serving, SetTask, Added, CapturedAt,
        Mark, Backlog, Owed, Deduped, Apply;
      if first.Some? { return Failure(first.value); }
      var topics := Deduped(wanted);
      if exists t :: t in topics && t !in KnownTopics() { return Failure(TopicNotFound); }
      if last.Some? { return Failure(last.value); }
      var from := StartFrom(cursor, topics);
      if from.Failure? {
        if wanted != [] { RefusedText(w, id, wanted, topics, cursor, cfg.deferred); }
        return Failure(from.error);
      }
      var sub := Subscription(topics, selector, endpoint, Active, leaseUntil, map[]);
      ghost var u := w;
      BeginSubscribe(id, sub, from.value, task);
      var starts, heads := CaptureStarts(id, sub, from.value, cursor, task, u);
      if starts.Failure? {
        if wanted != [] { ExpiredText(u, id, wanted, topics, cursor, cfg.deferred, from.value); }
        return Failure(starts.error);
      }
      ghost var x := Added(u, id, sub, starts.value, Taken(from.value, heads));
      AllStart(u, from.value, topics, starts.value, heads);
      AddSubscription(id, sub, from.value, starts.value, heads, task, u);
      AddedFrame(u, id, sub, starts.value, Taken(from.value, heads));
      if cfg.deferred {
        BegunDeferred(u, id, sub, from.value, starts.value, heads, authorised);
      } else {
        var n := DispatchStarted(id, topics, task, x);
        ClockAgrees();
        BegunInline(u, w, id, sub, from.value, starts.value, heads, authorised);
        DispatchedSub(x, w, id);
      }
      if wanted != [] { BegunText(u, w, id, wanted, topics, cursor, cfg.deferred, from.value, authorised); }
      return Success(());
    }

    function KnownTopics(): (names: seq<string>)
      requires Valid()
      reads this, store, subs, queue, transport
      ensures forall t :: t in names <==> t in w.logs
    {
      store.names
    }

    lemma ClockAgrees()
      requires Valid()
      ensures clock == w.clock
    {
    }

    ghost method BeginSubscribe(id: string, sub: Subscription, from: From, task: string)
      requires Valid() && task !in w.tasks && sub.status == Active && sub.cursors == map[]
      requires forall i, j :: 0 <= i < j < |sub.topics| ==> sub.topics[i] != sub.topics[j]
      requires forall t :: t in sub.topics ==> t in w.logs
      modifies this`w, this`trace
      ensures Valid() && w == SetTask(old(w), task, Subscribing(id, sub, from, sub.topics, map[], map[]))
    {
      hide Apply, Enabled, Holds, Recorded, RetryQueue.Queue.Valid;
      SubscribeStep(cfg, w, task, id, sub, from);
      Do(Dispatch.Event.Subscribe(task, id, sub, from));
    }

    /** Lets time pass. */
    method AdvanceClock(to: int)
      requires Valid() && clock <= to
      modifies this`w, this`trace, this`clock
      ensures Valid() && clock == to && w == old(w).(clock := to)
    {
      hide Holds, Recorded, RetryQueue.Queue.Valid, Possible, Outcome;
      Do(Tick(to));
      clock := to;
    }

  }
}
