/** The subscriber's automatic lease renewer: a timed loop against a publisher that may fail. */
module Lease {
  import opened Contracts

  /** What one renew call comes to. */
  datatype Reply = Granted(until: real) | Gone | Failed

  /** A reply and how long the call took. */
  datatype Answer = Answer(reply: Reply, took: real)

  /** How the publisher answers one call, depending on when it is made. */
  type Server = real -> Answer

  /** One renew call: when it was made, until when the lease ran at that moment, and the reply. */
  datatype Attempt = Attempt(at: real, until: real, reply: Reply)

  /** Why the loop ended: it was closed, the subscription was gone, or the lease had run out. */
  datatype Ending = Closed | Terminal | Lapsed

  function Larger(a: real, b: real): real { if a >= b then a else b }

  function Smaller(a: real, b: real): real { if a <= b then a else b }

  datatype Pace = Pace(fraction: real, minSleep: real, lease: real) {
    ghost predicate Valid() { 0.0 < fraction < 1.0 && minSleep > 0.0 && lease > 0.0 }

    /** The part of the lease that is left when a renewal is due. */
    function Margin(): real { (1.0 - fraction) * lease }

    /** How long to wait before the next attempt. */
    function Delay(until: real, now: real): real { Larger(minSleep, until - now - Margin()) }

    /** How long to pause after a failure. */
    function Pause(until: real, now: real): real { Smaller(minSleep, until - now) }

    /** One round of the loop: the attempt, and the lease and the time the next round starts with. */
    function Turn(until: real, now: real, server: Server): Round {
      var at := now + Delay(until, now);
      var Answer(reply, took) := server(at);
      var done := at + took;
      var attempt := Attempt(at, until, reply);
      match reply
      case Granted(later) => Onwards(attempt, later, done)
      case Gone => Over(attempt, Terminal)
      case Failed =>
        if until - done <= 0.0 then Over(attempt, Lapsed) else Onwards(attempt, until, done + Pause(until, done))
    }

    /** The attempts of a renewer that is closed after `servers` are used up. */
    function Attempts(until: real, now: real, servers: seq<Server>): seq<Attempt>
      decreases |servers|
    {
      if servers == [] then []
      else
        var turn := Turn(until, now, servers[0]);
        [turn.attempt] + if turn.Over? then [] else Attempts(turn.until, turn.now, servers[1..])
    }

    function End(until: real, now: real, servers: seq<Server>): Ending
      decreases |servers|
    {
      if servers == [] then Closed
      else
        var turn := Turn(until, now, servers[0]);
        if turn.Over? then turn.ending else End(turn.until, turn.now, servers[1..])
    }
  }

  datatype Round =
    | Onwards(attempt: Attempt, until: real, now: real)
    | Over(attempt: Attempt, ending: Ending)

  /** The grants among the attempts, in order. */
  function Grants(attempts: seq<Attempt>): seq<real> {
    if attempts == [] then []
    else (if attempts[0].reply.Granted? then [attempts[0].reply.until] else []) + Grants(attempts[1..])
  }

  lemma {:induction false} GrantsAppend(attempts: seq<Attempt>, a: Attempt)
    ensures Grants(attempts + [a]) == Grants(attempts) + (if a.reply.Granted? then [a.reply.until] else [])
  {
    if attempts != [] {
      assert (attempts + [a])[1..] == attempts[1..] + [a];
      GrantsAppend(attempts[1..], a);
    } else {
      assert [a][1..] == [];
      assert attempts + [a] == [a];
    }
  }

  lemma NoRounds(pace: Pace, until: real, now: real)
    ensures pace.Attempts(until, now, []) == [] && pace.End(until, now, []) == Closed && Grants([]) == []
  {
  }

  lemma Unrolled(pace: Pace, until: real, now: real, servers: seq<Server>, before: seq<Attempt>)
    requires servers != []
    ensures var turn := pace.Turn(until, now, servers[0]);
      && (turn.Over? ==> before + pace.Attempts(until, now, servers) == before + [turn.attempt])
      && (turn.Over? ==> pace.End(until, now, servers) == turn.ending)
      && (turn.Onwards? ==>
            && before + pace.Attempts(until, now, servers)
               == before + [turn.attempt] + pace.Attempts(turn.until, turn.now, servers[1..])
            && pace.End(until, now, servers) == pace.End(turn.until, turn.now, servers[1..]))
  {
    hide Pace.Turn;
  }

  class AutoLeaseRenewer {
    const pace: Pace
    var clock: real
    var renewals: seq<real>
    var lastError: Option<Reply>

    constructor (pace: Pace, now: real)
      ensures this.pace == pace && clock == now && renewals == [] && lastError == None
    {
      this.pace, clock, renewals, lastError := pace, now, [], None;
    }

    method Sleep(seconds: real)
      modifies this`clock
      ensures clock == old(clock) + seconds
    {
      clock := clock + seconds;
    }

    /** Waits briefly before a retry; false when the lease has run out. */
    method RetryPause(until: real) returns (again: bool)
      modifies this`clock
      ensures again <==> until - old(clock) > 0.0
      ensures clock == if again then old(clock) + pace.Pause(until, old(clock)) else old(clock)
      ensures again ==>
                var left := until - old(clock);
                clock == old(clock) + if pace.minSleep <= left then pace.minSleep else left
    {
      var remaining := until - clock;
      if remaining <= 0.0 { return false; }
      Sleep(Smaller(pace.minSleep, remaining));
      return true;
    }

    /** One round: wait, call, and take the answer. */
    method Renew(until: real, server: Server) returns (attempt: Attempt, later: Option<real>, ending: Ending)
      modifies this
      ensures var turn := pace.Turn(until, old(clock), server);
        && attempt == turn.attempt
        && (turn.Onwards? ==> later == Some(turn.until) && clock == turn.now)
        && (turn.Over? ==> later == None && ending == turn.ending)
      ensures renewals == old(renewals) + (if attempt.reply.Granted? then [attempt.reply.until] else [])
    {
      ending := Closed;
      Sleep(pace.Delay(until, clock));
      var Answer(reply, took) := server(clock);
      attempt := Attempt(clock, until, reply);
      Sleep(took);
      if reply.Granted? {
        renewals := renewals + [reply.until];
        return attempt, Some(reply.until), ending;
      }
      lastError := Some(reply);
      if reply.Gone? { return attempt, None, Terminal; }
      var again := RetryPause(until);
      if !again { return attempt, None, Lapsed; }
      return attempt, Some(until), ending;
    }

    /** The renewal loop, until it ends by itself or is closed after the last of `servers`. */
    method Run(leaseUntil: real, servers: seq<Server>) returns (attempts: seq<Attempt>, ending: Ending)
      modifies this
      ensures attempts == pace.Attempts(leaseUntil, old(clock), servers)
      ensures ending == pace.End(leaseUntil, old(clock), servers)
      ensures renewals == old(renewals) + Grants(attempts)
    {
      hide Pace.Turn, Pace.Attempts, Pace.End, Grants;
      var until, calls := leaseUntil, servers;
      NoRounds(pace, leaseUntil, clock);
      attempts := [];
      while calls != []
        invariant pace.Attempts(leaseUntil, old(clock), servers) == attempts + pace.Attempts(until, clock, calls)
        invariant pace.End(leaseUntil, old(clock), servers) == pace.End(until, clock, calls)
        invariant renewals == old(renewals) + Grants(attempts)
        decreases |calls|
      {
        Unrolled(pace, until, clock, calls, attempts);
        GrantsAppend(attempts, pace.Turn(until, clock, calls[0]).attempt);
        var attempt, later, ended := Renew(until, calls[0]);
        attempts := attempts + [attempt];
        if later.None? { return attempts, ended; }
        until, calls := later.value, calls[1..];
      }
      ending := Closed;
      NoRounds(pace, until, clock);
    }
  }

  // --- When an attempt is in time ------------------------------------------------------------------

  /** An attempt is made strictly before expiry exactly when more than the minimal sleep is left. */
  lemma InTime(pace: Pace, until: real, now: real)
    requires pace.Valid()
    ensures now + pace.Delay(until, now) < until <==> pace.minSleep < until - now
  {
    assert pace.Margin() > 0.0;
  }

  /**
   * After a failure with `r > 0` seconds left, the retry is made strictly before expiry exactly when
   * more than twice the minimal sleep is left; otherwise the loop calls once more at or after expiry.
   */
  lemma RetryInTime(pace: Pace, until: real, now: real)
    requires pace.Valid() && now < until
    ensures var later := now + pace.Pause(until, now);
      later + pace.Delay(until, later) < until <==> 2.0 * pace.minSleep < until - now
  {
    InTime(pace, until, now + pace.Pause(until, now));
  }

  /**
   * How the loop ends: as terminal exactly when a call found the subscription gone, which is then the last
   * one; as lapsed only after a failed call; and as closed only when it was closed.
   */
  lemma {:induction false} EndingMeans(pace: Pace, until: real, now: real, servers: seq<Server>)
    ensures var attempts, ending := pace.Attempts(until, now, servers), pace.End(until, now, servers);
      && (forall i :: 0 <= i < |attempts| - 1 ==> !attempts[i].reply.Gone?)
      && (ending == Terminal <==> attempts != [] && attempts[|attempts| - 1].reply.Gone?)
      && (ending == Lapsed ==> attempts != [] && attempts[|attempts| - 1].reply.Failed?)
      && (ending == Closed ==> |attempts| == |servers|)
    decreases |servers|
  {
    if servers != [] {
      var turn := pace.Turn(until, now, servers[0]);
      if turn.Onwards? {
        var rest := pace.Attempts(turn.until, turn.now, servers[1..]);
        EndingMeans(pace, turn.until, turn.now, servers[1..]);
        assert pace.Attempts(until, now, servers) == [turn.attempt] + rest;
      }
    }
  }

  /** A server that grants a full lease at once. */
  ghost predicate Prompt(pace: Pace, server: Server) {
    forall at :: server(at) == Answer(Granted(at + pace.lease), 0.0)
  }

  /** The time from a grant to the next attempt: the fraction of the lease, or the minimal sleep if that is longer. */
  ghost function Step(pace: Pace): real {
    if pace.minSleep <= pace.fraction * pace.lease then pace.fraction * pace.lease else pace.minSleep
  }

  /** With prompt replies each attempt comes when the configured fraction of the lease has elapsed. */
  lemma {:induction false} EvenlySpaced(pace: Pace, granted: real, servers: seq<Server>)
    requires pace.Valid() && forall i :: 0 <= i < |servers| ==> Prompt(pace, servers[i])
    ensures var attempts := pace.Attempts(granted + pace.lease, granted, servers);
      && |attempts| == |servers|
      && (servers != [] ==> attempts[0].at == granted + Step(pace))
      && forall i :: 0 < i < |attempts| ==> attempts[i].at == attempts[i - 1].at + Step(pace)
    decreases |servers|
  {
    assert (1.0 - pace.fraction) * pace.lease == pace.lease - pace.fraction * pace.lease;
    if servers != [] {
      var at := granted + Step(pace);
      var attempts := pace.Attempts(granted + pace.lease, granted, servers);
      assert Prompt(pace, servers[0]);
      assert servers[0](at) == Answer(Granted(at + pace.lease), 0.0);
      EvenlySpaced(pace, at, servers[1..]);
      assert attempts[1..] == pace.Attempts(at + pace.lease, at, servers[1..]);
    }
  }

  /** With prompt replies and a lease longer than the minimal sleep, every attempt is in time. */
  lemma {:induction false} AlwaysInTime(pace: Pace, until: real, now: real, servers: seq<Server>)
    requires pace.Valid() && pace.minSleep < pace.lease && pace.minSleep < until - now
    requires forall i :: 0 <= i < |servers| ==> Prompt(pace, servers[i])
    ensures forall i :: 0 <= i < |pace.Attempts(until, now, servers)| ==>
              pace.Attempts(until, now, servers)[i].at < pace.Attempts(until, now, servers)[i].until
    ensures |pace.Attempts(until, now, servers)| == |servers|
    ensures pace.End(until, now, servers) == Closed
    decreases |servers|
  {
    if servers != [] {
      InTime(pace, until, now);
      var at := now + pace.Delay(until, now);
      assert Prompt(pace, servers[0]);
      AlwaysInTime(pace, at + pace.lease, at, servers[1..]);
      assert pace.Attempts(until, now, servers)[1..] == pace.Attempts(at + pace.lease, at, servers[1..]);
    }
  }

  /** A lease no longer than the minimal sleep is renewed late even by a server that grants at once. */
  lemma LateRenewal(server: Server)
    requires Prompt(Pace(0.5, 2.0, 1.0), server)
    ensures Pace(0.5, 2.0, 1.0).Attempts(1.0, 0.0, [server]) == [Attempt(2.0, 1.0, Granted(3.0))]
  {
    assert server(2.0) == Answer(Granted(3.0), 0.0);
    assert [server][1..] == [];
  }

  /** With half of a lease of three seconds left a failed call is retried half a second after expiry. */
  lemma LateRetry(server: Server)
    requires forall at :: server(at) == Answer(Failed, 0.0)
    ensures var pace := Pace(0.5, 1.0, 3.0);
      && pace.Attempts(3.0, 0.0, [server, server]) == [Attempt(1.5, 3.0, Failed), Attempt(3.5, 3.0, Failed)]
      && pace.End(3.0, 0.0, [server, server]) == Lapsed
  {
    var pace := Pace(0.5, 1.0, 3.0);
    assert server(1.5) == Answer(Failed, 0.0) && server(3.5) == Answer(Failed, 0.0);
    assert pace.Turn(3.0, 0.0, server) == Onwards(Attempt(1.5, 3.0, Failed), 3.0, 2.5);
    assert pace.Turn(3.0, 2.5, server) == Over(Attempt(3.5, 3.0, Failed), Lapsed);
    assert [server, server][1..] == [server];
    assert pace.Attempts(3.0, 2.5, [server]) == [Attempt(3.5, 3.0, Failed)];
  }

  // --- Outages ----------------------------------------------------------------------------------------

  /** A server that fails at once before `end`, and grants a full lease from then on. */
  ghost predicate Outage(pace: Pace, end: real, server: Server) {
    forall at :: server(at) == Answer(if at < end then Failed else Granted(at + pace.lease), 0.0)
  }

  /** The first attempt that is granted. */
  ghost function FirstGrant(attempts: seq<Attempt>): (k: nat)
    ensures k <= |attempts| && (k < |attempts| ==> attempts[k].reply.Granted?)
    ensures forall i :: 0 <= i < k ==> !attempts[i].reply.Granted?
  {
    if attempts == [] || attempts[0].reply.Granted? then 0 else 1 + FirstGrant(attempts[1..])
  }

  /** The time `n` retries take: each comes two minimal sleeps after the last. */
  function Periods(pace: Pace, n: int): real { n as real * (2.0 * pace.minSleep) }

  lemma OneMore(n: int, m: real)
    ensures n as real * m == (n - 1) as real * m + m
  {
  }

  /** While the outage lasts and two minimal sleeps fit, a failed call comes again two of them later. */
  lemma Retried(pace: Pace, until: real, now: real, end: real, server: Server)
    requires pace.Valid() && Outage(pace, end, server)
    requires var at := now + pace.Delay(until, now); until - at <= pace.Margin()
    ensures var at, turn := now + pace.Delay(until, now), pace.Turn(until, now, server);
      && turn.attempt.at == at && turn.attempt.until == until && (turn.attempt.reply.Granted? <==> at >= end)
      && (at < end && end + 2.0 * pace.minSleep <= until ==>
            turn.Onwards? && turn.until == until
            && turn.now + pace.Delay(until, turn.now) == at + 2.0 * pace.minSleep)
  {
    var at := now + pace.Delay(until, now);
    assert server(at) == Answer(if at < end then Failed else Granted(at + pace.lease), 0.0);
  }

  /**
   * The loop between two retries: while the outage ends at least two minimal sleeps before expiry,
   * the first call after it is granted in time.
   */
  lemma {:induction false} OutageRetries(pace: Pace, until: real, now: real, end: real, servers: seq<Server>)
    requires pace.Valid() && end + 2.0 * pace.minSleep <= until
    requires var at := now + pace.Delay(until, now); at < end + 2.0 * pace.minSleep && until - at <= pace.Margin()
    requires forall i :: 0 <= i < |servers| ==> Outage(pace, end, servers[i])
    requires now + pace.Delay(until, now) + Periods(pace, |servers| - 1) >= end
    requires servers != []
    ensures var attempts := pace.Attempts(until, now, servers); var k := FirstGrant(attempts);
      k < |attempts| && attempts[k].at < attempts[k].until == until
    decreases |servers|
  {
    var at, turn := now + pace.Delay(until, now), pace.Turn(until, now, servers[0]);
    var attempts := pace.Attempts(until, now, servers);
    Retried(pace, until, now, end, servers[0]);
    OneMore(|servers| - 1, 2.0 * pace.minSleep);
    assert Periods(pace, 0) == 0.0;
    if at < end {
      hide Pace.Delay, Pace.Turn, Pace.Margin, Outage;
      OutageRetries(pace, until, turn.now, end, servers[1..]);
      assert attempts[1..] == pace.Attempts(until, turn.now, servers[1..]);
    } else {
      hide Pace.Delay, Pace.Turn, Pace.Margin, Outage;
    }
  }

  /**
   * Bounded outages are survived: if calls fail for `d` seconds after an attempt made when the
   * renewal was due, and `d` plus two minimal sleeps fit into what is left of the lease, then the
   * loop is granted a new lease before the old one runs out.
   */
  lemma OutageSurvived(pace: Pace, until: real, now: real, d: real, servers: seq<Server>)
    requires pace.Valid() && d >= 0.0 && d + 2.0 * pace.minSleep <= (1.0 - pace.fraction) * pace.lease
    requires var at := now + pace.Delay(until, now);
      && until - at == (1.0 - pace.fraction) * pace.lease
      && forall i :: 0 <= i < |servers| ==> Outage(pace, at + d, servers[i])
    requires servers != [] && Periods(pace, |servers| - 1) >= d
    ensures var attempts := pace.Attempts(until, now, servers); var k := FirstGrant(attempts);
      k < |attempts| && attempts[k].at < attempts[k].until == until
  {
    OutageRetries(pace, until, now, now + pace.Delay(until, now) + d, servers);
  }

  // --- Permanent failure --------------------------------------------------------------------------------

  ghost predicate Fails(server: Server) {
    forall at :: server(at).reply == Failed && server(at).took >= 0.0
  }

  /** A failed call goes on, at least the minimal sleep later, unless the lease has run out. */
  lemma FailedRound(pace: Pace, until: real, now: real, servers: seq<Server>)
    requires pace.Valid() && servers != [] && Fails(servers[0])
    ensures var turn := pace.Turn(until, now, servers[0]);
      && (turn.Over? ==> turn.ending == Lapsed && |pace.Attempts(until, now, servers)| == 1
                         && pace.End(until, now, servers) == Lapsed)
      && (turn.Onwards? ==>
            && turn.until == until && turn.now >= now + pace.minSleep && now + pace.minSleep < until
            && |pace.Attempts(until, now, servers)| == 1 + |pace.Attempts(until, turn.now, servers[1..])|
            && pace.End(until, now, servers) == pace.End(until, turn.now, servers[1..]))
  {
    var at := now + pace.Delay(until, now);
    assert servers[0](at).reply == Failed && servers[0](at).took >= 0.0;
    Unrolled(pace, until, now, servers, []);
    hide Pace.Attempts, Pace.End;
    assert forall s: seq<Attempt> :: [] + s == s;
  }

  /** One round took a minimal sleep off the time left. */
  lemma Spent(m: int, sleep: real, left: real, rest: real)
    requires m >= 1 && sleep < left && rest <= left - sleep
    requires m >= 2 ==> (m - 1) as real * sleep < rest
    ensures m as real * sleep < left
  {
    if m >= 2 { OneMore(m, sleep); } else { assert m as real == 1.0; }
  }

  /** If every call fails, the loop gives up after boundedly many attempts. */
  lemma {:induction false} GivesUp(pace: Pace, until: real, now: real, servers: seq<Server>)
    requires pace.Valid() && forall i :: 0 <= i < |servers| ==> Fails(servers[i])
    ensures var n := |pace.Attempts(until, now, servers)|;
      && (n >= 2 ==> (n - 1) as real * pace.minSleep < until - now)
      && (pace.End(until, now, servers) == Closed ==> n == |servers|)
      && pace.End(until, now, servers) != Terminal
    decreases |servers|
  {
    hide Pace.Turn, Pace.Attempts, Pace.End;
    if servers == [] {
      NoRounds(pace, until, now);
    } else {
      assert Fails(servers[0]);
      FailedRound(pace, until, now, servers);
      var turn := pace.Turn(until, now, servers[0]);
      if turn.Onwards? {
        GivesUp(pace, until, turn.now, servers[1..]);
        var m := |pace.Attempts(until, turn.now, servers[1..])|;
        if m >= 1 { Spent(m, pace.minSleep, until - now, until - turn.now); }
      }
    }
  }

  /** So with enough calls to come it always ends because the lease ran out. */
  lemma FailureEnds(pace: Pace, until: real, now: real, servers: seq<Server>)
    requires pace.Valid() && forall i :: 0 <= i < |servers| ==> Fails(servers[i])
    requires |servers| >= 2 && (|servers| - 1) as real * pace.minSleep >= until - now
    ensures pace.End(until, now, servers) == Lapsed
  {
    GivesUp(pace, until, now, servers);
  }
}
