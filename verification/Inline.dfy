/**
 * Inline mode: no retry queue, no explicit acks, no crash.  Whatever the endpoints answer and
 * however many dispatches overlap, what one subscription is sent from one topic is a plain
 * filter of what its dispatch loops were handed, in log order, each event once.
 */
module Inline {
  import opened Contracts
  import opened Stream
  import opened Dispatch
  import opened NoLoss

  // --- One subscription's account with one topic ---------------------------------------

  /** Everything inline delivery of one topic to one subscription reads and writes. */
  datatype Account = Account(
    start: int,
    mark: int,
    made: seq<DeliveryAttempt>,
    sights: seq<Sight>,
    busy: Option<PageStage>)

  predicate Concerns(a: DeliveryAttempt, s: string, t: string) { a.sub == s && a.topic == t }

  function Made(attempts: seq<DeliveryAttempt>, s: string, t: string): seq<DeliveryAttempt> {
    if attempts == [] then []
    else
      var n := |attempts| - 1;
      Made(attempts[..n], s, t) + (if Concerns(attempts[n], s, t) then [attempts[n]] else [])
  }

  /** Where the dispatch that holds the lock is on this topic. */
  function Busy(w: World, s: string, t: string): Option<PageStage> {
    if s !in w.locks || w.locks[s] !in w.tasks then None
    else
      match w.tasks[w.locks[s]]
      case Dispatching(id, topics, On(page)) => if id == s && topics != [] && topics[0] == t then Some(page) else None
      case _ => None
  }

  function AccountOf(w: World, s: string, t: string): Account {
    Account(Start(w, s, t), Mark(w, s, t), Made(w.attempts, s, t), Scanned(w, s, t), Busy(w, s, t))
  }

  // --- What is owed and what was done -----------------------------------------------------

  /** Offsets of the events whose delivery ended, in the order they ended. */
  function Outcomes(made: seq<DeliveryAttempt>): seq<nat> {
    if made == [] then []
    else
      var n := |made| - 1;
      Outcomes(made[..n]) + (if made[n].status != Retry then [made[n].offset] else [])
  }

  predicate Hit(log: Stream, selector: Content -> bool, o: nat) {
    o < |log.recs| && selector(log.recs[o].content)
  }

  /** The simple filter: the offsets seen that the selector matches, in order. */
  function Hits(log: Stream, selector: Content -> bool, sights: seq<Sight>): seq<nat> {
    if sights == [] then []
    else
      var n := |sights| - 1;
      Hits(log, selector, sights[..n]) + (if Hit(log, selector, sights[n].offset) then [sights[n].offset] else [])
  }

  predicate Recorded(phase: Phase) {
    phase.Acknowledge? || phase.ReadMark? || phase.WriteMark? || phase.BuryMark?
  }

  /** How many of the events handed to the loop are still ahead of it. */
  function Left(a: Account): int {
    match a.busy
    case Some(Scanning(next, hi, _)) => hi - next
    case Some(Handling(next, hi, phase)) => if Recorded(phase) then hi - next - 1 else hi - next
    case _ => 0
  }

  function Done(a: Account): seq<Sight>
    requires 0 <= Left(a) <= |a.sights|
  {
    a.sights[..|a.sights| - Left(a)]
  }

  /** The last offset handed to a loop, or where the subscription started. */
  function Frontier(a: Account): int {
    if a.sights == [] then a.start else a.sights[|a.sights| - 1].offset
  }

  // --- Attempt chains -----------------------------------------------------------------------

  /** Attempts 1, 2, 3, ... at one event: none under way, `n` failed so far, or out of order. */
  datatype Chain = Closed | Open(offset: nat, n: nat) | Broken

  function Link(c: Chain, a: DeliveryAttempt): Chain {
    match c
    case Closed => if a.attempt != 1 then Broken else if a.status == Retry then Open(a.offset, 1) else Closed
    case Open(o, n) =>
      if a.offset != o || a.attempt != n + 1 then Broken
      else if a.status == Retry then Open(o, n + 1) else Closed
    case Broken => Broken
  }

  function ChainOf(made: seq<DeliveryAttempt>): Chain {
    if made == [] then Closed else Link(ChainOf(made[..|made| - 1]), made[|made| - 1])
  }

  function Expected(busy: Option<PageStage>): Chain {
    match busy
    case Some(Handling(next, _, Sending(n))) => if n <= 1 then Closed else Open(next, n - 1)
    case Some(Handling(next, _, Sent(n, _, _))) => if n <= 1 then Closed else Open(next, n - 1)
    case Some(Handling(next, _, HandOver(n))) => Open(next, n)
    case _ => Closed
  }

  /** The chains of `made` as a reader of the attempts log sees them. */
  ghost predicate WellChained(made: seq<DeliveryAttempt>) {
    forall i :: 0 <= i < |made| ==>
      if i > 0 && made[i - 1].status == Retry
      then made[i].offset == made[i - 1].offset && made[i].attempt == made[i - 1].attempt + 1
      else made[i].attempt == 1
  }

  lemma {:induction false} ChainsLink(made: seq<DeliveryAttempt>)
    requires ChainOf(made) != Broken
    ensures WellChained(made)
    ensures ChainOf(made) == Closed <==> made == [] || made[|made| - 1].status != Retry
    ensures ChainOf(made).Open? ==>
      var a := made[|made| - 1]; ChainOf(made) == Open(a.offset, a.attempt)
  {
    if made != [] {
      var n := |made| - 1;
      ChainsLink(made[..n]);
      forall i | 0 <= i < |made|
        ensures if i > 0 && made[i - 1].status == Retry
                then made[i].offset == made[i - 1].offset && made[i].attempt == made[i - 1].attempt + 1
                else made[i].attempt == 1
      {
        if i < n { assert made[..n][i] == made[i]; }
        if i > 0 { assert made[..n][i - 1] == made[i - 1]; }
        if i == n && n > 0 { assert ChainOf(made) == Link(ChainOf(made[..n]), made[n]); }
      }
    }
  }

  // --- A sound account ------------------------------------------------------------------------

  ghost predicate Forward(a: Account) {
    && (forall i, j :: 0 <= i < j < |a.sights| ==> a.sights[i].offset < a.sights[j].offset)
    && (forall i :: 0 <= i < |a.sights| ==> a.start < a.sights[i].offset)
  }

  ghost predicate Seen(a: Account, o: int) {
    exists i :: 0 <= i < |a.sights| && a.sights[i].offset == o
  }

  predicate Old(log: Stream, now: int, o: int) {
    0 <= o < |log.recs| && !log.LiveAt(now, o)
  }

  /** What no loop was handed had left retention. */
  ghost predicate GapsOld(log: Stream, now: int, a: Account) {
    forall o :: a.start < o <= Frontier(a) ==> Seen(a, o) || Old(log, now, o)
  }

  /** Everything a loop was handed was live when its page was read. */
  ghost predicate SeenLive(log: Stream, now: int, a: Account) {
    forall i :: 0 <= i < |a.sights| ==>
      a.sights[i].at <= now && a.sights[i].offset < |log.recs| && log.LiveAt(a.sights[i].at, a.sights[i].offset)
  }

  /** The last `hi - next` events handed over are exactly `next .. hi`. */
  ghost predicate Ahead(a: Account, next: nat, hi: nat) {
    && next <= hi
    && hi - next <= |a.sights|
    && Frontier(a) == hi - 1
    && forall j :: |a.sights| - (hi - next) <= j < |a.sights| ==> a.sights[j].offset == j - |a.sights| + hi
  }

  ghost predicate Progress(a: Account) {
    match a.busy
    case None => a.mark == Frontier(a)
    case Some(Fetching(position)) => a.mark == Frontier(a) && position == a.mark
    case Some(Refetching(position)) => a.mark == Frontier(a) && position == a.mark
    case Some(Scanning(next, hi, scan)) =>
      Ahead(a, next, hi) && a.mark < next && scan < next && (next == hi ==> scan == hi - 1)
    case Some(Handling(next, hi, phase)) =>
      && next < hi
      && Ahead(a, next, hi)
      && a.mark < next
      && (phase.WriteMark? ==> phase.mark == a.mark)
      && !phase.HandedMark?
    case Some(Settling(scan)) => scan == Frontier(a) && a.mark <= scan
    case Some(SettleMark(scan, mark)) => scan == Frontier(a) && mark == a.mark && a.mark <= scan
  }

  ghost predicate Sound(log: Stream, now: int, selector: Content -> bool, a: Account) {
    && Forward(a)
    && GapsOld(log, now, a)
    && SeenLive(log, now, a)
    && Progress(a)
    && 0 <= Left(a) <= |a.sights|
    && Outcomes(a.made) == Hits(log, selector, Done(a))
    && ChainOf(a.made) == Expected(a.busy)
  }

  // --- Each step keeps an account sound ----------------------------------------------------------

  lemma DoneGrows(log: Stream, selector: Content -> bool, a: Account, b: Account)
    requires 0 < Left(a) <= |a.sights| && b.sights == a.sights && Left(b) == Left(a) - 1
    ensures var next := a.sights[|a.sights| - Left(a)].offset;
      Hits(log, selector, Done(b)) == Hits(log, selector, Done(a)) + (if Hit(log, selector, next) then [next] else [])
  {
    var n := |a.sights| - Left(a);
    assert Done(b)[..n] == Done(a);
  }

  /** Nothing the filter depends on changes when the log grows. */
  lemma {:induction false} HitsStay(log: Stream, log': Stream, selector: Content -> bool, sights: seq<Sight>)
    requires log.recs <= log'.recs
    requires forall i :: 0 <= i < |sights| ==> sights[i].offset < |log.recs|
    ensures Hits(log, selector, sights) == Hits(log', selector, sights)
  {
    if sights != [] {
      var n := |sights| - 1;
      HitsStay(log, log', selector, sights[..n]);
      assert log'.recs[sights[n].offset] == log.recs[sights[n].offset];
    }
  }

  /** Appends and the passing of time leave a sound account sound. */
  lemma TimePasses(log: Stream, log': Stream, now: int, now': int, selector: Content -> bool, a: Account)
    requires Sound(log, now, selector, a)
    requires log'.retention == log.retention && log.recs <= log'.recs && now <= now'
    ensures Sound(log', now', selector, a)
  {
    HitsStay(log, log', selector, Done(a));
    forall i | 0 <= i < |a.sights|
      ensures a.sights[i].at <= now' && a.sights[i].offset < |log'.recs|
           && log'.LiveAt(a.sights[i].at, a.sights[i].offset)
    {
      assert log'.recs[a.sights[i].offset] == log.recs[a.sights[i].offset];
    }
    forall o | a.start < o <= Frontier(a) ensures Seen(a, o) || Old(log', now', o) {
      if Old(log, now, o) { assert log'.recs[o] == log.recs[o]; }
    }
  }

  /** `b` is `a` after the loop was handed the live events `lo .. hi`. */
  ghost predicate Opens(log: Stream, now: int, a: Account, b: Account, lo: nat, hi: nat) {
    && a.busy.Some? && (a.busy.value.Fetching? || a.busy.value.Refetching?)
    && Frontier(a) < lo < hi <= |log.recs|
    && (forall o :: Frontier(a) < o < lo ==> Old(log, now, o))
    && (forall o :: lo <= o < hi ==> log.LiveAt(now, o))
    && b == a.(sights := b.sights, busy := Some(Scanning(lo, hi, a.mark)))
    && |b.sights| == |a.sights| + hi - lo
    && (forall j :: 0 <= j < |a.sights| ==> b.sights[j] == a.sights[j])
    && (forall j :: |a.sights| <= j < |b.sights| ==> b.sights[j] == Sight(lo + j - |a.sights|, now))
  }

  lemma OpenGaps(log: Stream, now: int, a: Account, b: Account, lo: nat, hi: nat)
    requires Opens(log, now, a, b, lo, hi) && GapsOld(log, now, a)
    ensures GapsOld(log, now, b)
  {
    forall o | b.start < o <= Frontier(b) ensures Seen(b, o) || Old(log, now, o) {
      if o <= Frontier(a) {
        if Seen(a, o) {
          var i :| 0 <= i < |a.sights| && a.sights[i].offset == o;
          assert b.sights[i].offset == o;
        }
      } else if o >= lo {
        assert b.sights[|a.sights| + o - lo].offset == o;
      }
    }
  }

  lemma OpenForward(log: Stream, now: int, a: Account, b: Account, lo: nat, hi: nat)
    requires Opens(log, now, a, b, lo, hi) && Forward(a)
    ensures Forward(b) && Frontier(b) == hi - 1
  {
    var k := |a.sights|;
    assert k > 0 ==> a.sights[k - 1].offset == Frontier(a);
    forall i, j | 0 <= i < j < |b.sights| ensures b.sights[i].offset < b.sights[j].offset {
      assert i < k <= j ==> a.sights[i].offset <= Frontier(a);
    }
    assert forall i :: 0 <= i < k ==> b.sights[i].offset == a.sights[i].offset;
  }

  /** A page is opened: its events are handed to the loop. */
  lemma OpenKeeps(log: Stream, now: int, selector: Content -> bool, a: Account, b: Account, lo: nat, hi: nat)
    requires Sound(log, now, selector, a) && Opens(log, now, a, b, lo, hi)
    ensures Sound(log, now, selector, b)
  {
    OpenGaps(log, now, a, b, lo, hi);
    OpenForward(log, now, a, b, lo, hi);
    assert Done(b) == a.sights == Done(a);
    hide Forward, GapsOld;
  }

  /** The loop passes over an event its selector does not match. */
  lemma MissKeeps(log: Stream, now: int, selector: Content -> bool, a: Account, b: Account)
    requires Sound(log, now, selector, a)
    requires a.busy.Some? && a.busy.value.Scanning? && a.busy.value.next < a.busy.value.hi
    requires var Scanning(next, hi, scan) := a.busy.value;
      !Hit(log, selector, next) && b == a.(busy := Some(Scanning(next + 1, hi, next)))
    ensures Sound(log, now, selector, b)
  {
    hide Hits;
    var Scanning(next, hi, scan) := a.busy.value;
    assert a.sights[|a.sights| - (hi - next)].offset == next;
    DoneGrows(log, selector, a, b);
    forall o | b.start < o <= Frontier(b) ensures Seen(b, o) || Old(log, now, o) {
      if Seen(a, o) {
        var i :| 0 <= i < |a.sights| && a.sights[i].offset == o;
        assert b.sights[i].offset == o;
      }
    }
  }

  /** An attempt is recorded: the chain grows by one link, and ends when the answer was final. */
  lemma RecordKeeps(log: Stream, now: int, selector: Content -> bool, a: Account, b: Account,
                    next: nat, hi: nat, n: nat, made: DeliveryAttempt, after: Phase)
    requires Sound(log, now, selector, a) && Hit(log, selector, next) && n >= 1
    requires a.busy.Some? && a.busy.value.Handling? && a.busy.value.phase.Sent? && a.busy.value.phase.n == n
    requires a.busy.value.next == next && a.busy.value.hi == hi
    requires made.offset == next && made.attempt == n
    requires after == match made.status
                      case Delivered => Acknowledge
                      case DeadLetter => BuryMark
                      case Retry => HandOver(n)
    requires b == a.(made := a.made + [made], busy := Some(Handling(next, hi, after)))
    ensures Sound(log, now, selector, b)
  {
    hide Hits, Old, Hit;
    assert b.made[..|b.made| - 1] == a.made;
    assert Outcomes(b.made) == Outcomes(a.made) + (if made.status != Retry then [next] else []);
    assert ChainOf(b.made) == Link(ChainOf(a.made), made);
    assert a.sights[|a.sights| - (hi - next)].offset == next;
    if made.status != Retry { DoneGrows(log, selector, a, b); } else { assert Done(b) == Done(a); }
    forall o | b.start < o <= Frontier(b) ensures Seen(b, o) || Old(log, now, o) {
      if Seen(a, o) {
        var i :| 0 <= i < |a.sights| && a.sights[i].offset == o;
        assert b.sights[i].offset == o;
      }
    }
  }

  /** Steps that neither see, send nor record: the loop moves on, or the mark catches up. */
  lemma MoveKeeps(log: Stream, now: int, selector: Content -> bool, a: Account, b: Account)
    requires Sound(log, now, selector, a)
    requires b == a.(mark := b.mark, busy := b.busy)
    requires Left(b) == Left(a) && Expected(b.busy) == Expected(a.busy) && Progress(b)
    ensures Sound(log, now, selector, b)
  {
    forall o | b.start < o <= Frontier(b) ensures Seen(b, o) || Old(log, now, o) {
      if Seen(a, o) {
        var i :| 0 <= i < |a.sights| && a.sights[i].offset == o;
        assert b.sights[i].offset == o;
      }
    }
  }
}
