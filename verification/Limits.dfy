/** The token-bucket rate limiter. */
module Limits {
  import opened Contracts

  /** A bucket as it was left by its last call. */
  datatype Bucket = Bucket(tokens: real, last: real)

  datatype Rate = Rate(rate: real, capacity: real) {
    ghost predicate Valid() { rate >= 0.0 && capacity >= 0.0 }

    /** What a call at `now` finds in its bucket. */
    function Found(b: Option<Bucket>, now: real): real {
      match b
      case None => Least(capacity, capacity + Gain(now, now))
      case Some(b) => Least(capacity, b.tokens + Gain(b.last, now))
    }

    /** What the rate adds between two times. */
    function Gain(since: real, now: real): real { (now - since) * rate }

    predicate Admits(b: Option<Bucket>, now: real) { Found(b, now) >= 1.0 }

    function Next(b: Option<Bucket>, now: real): Option<Bucket> {
      Some(Bucket(Found(b, now) - (if Admits(b, now) then 1.0 else 0.0), now))
    }

    /** The bucket after calls at `times`. */
    function After(b: Option<Bucket>, times: seq<real>): Option<Bucket>
      decreases |times|
    {
      if times == [] then b else After(Next(b, times[0]), times[1..])
    }

    function Verdicts(b: Option<Bucket>, times: seq<real>): (vs: seq<bool>)
      ensures |vs| == |times|
      decreases |times|
    {
      if times == [] then [] else [Admits(b, times[0])] + Verdicts(Next(b, times[0]), times[1..])
    }

    /** The calls at `times` that are admitted. */
    function Admitted(b: Option<Bucket>, times: seq<real>): seq<real>
      decreases |times|
    {
      if times == [] then []
      else (if Admits(b, times[0]) then [times[0]] else []) + Admitted(Next(b, times[0]), times[1..])
    }
  }

  function Least(a: real, b: real): real { if a <= b then a else b }

  const ANONYMOUS := "<anonymous>"

  class TokenBucketRateLimiter {
    const limit: Rate
    var buckets: map<(string, string), Bucket>

    constructor (rate: real, capacity: real)
      ensures limit == Rate(rate, capacity) && buckets == map[]
    {
      limit := Rate(rate, capacity);
      buckets := map[];
    }

    function Of(key: Option<string>, operation: string): Option<Bucket>
      reads this
    {
      var k := KeyOf(key, operation);
      if k in buckets then Some(buckets[k]) else None
    }

    method Check(key: Option<string>, operation: string, now: real) returns (r: Result<(), ErrorCode>)
      modifies this
      ensures r == if limit.Admits(old(Of(key, operation)), now) then Success(()) else Failure(RateLimited)
      ensures Of(key, operation) == limit.Next(old(Of(key, operation)), now)
      ensures var k := (if key.None? || key.value == "" then "<anonymous>" else key.value, operation);
        var tokens := if k !in old(buckets) then limit.capacity
                      else var b := old(buckets)[k];
                           var refilled := b.tokens + (now - b.last) * limit.rate;
                           if refilled <= limit.capacity then refilled else limit.capacity;
        && (r.Success? <==> tokens >= 1.0)
        && buckets == old(buckets)[k := Bucket(if r.Success? then tokens - 1.0 else tokens, now)]
      ensures forall k :: k != KeyOf(key, operation) ==> (k in buckets <==> k in old(buckets))
      ensures forall k :: k != KeyOf(key, operation) && k in buckets ==> buckets[k] == old(buckets)[k]
    {
      var k := KeyOf(key, operation);
      var b := if k in buckets then buckets[k] else Bucket(limit.capacity, now);
      var tokens := Least(limit.capacity, b.tokens + limit.Gain(b.last, now));
      if tokens < 1.0 {
        buckets := buckets[k := Bucket(tokens, now)];
        return Failure(RateLimited);
      }
      buckets := buckets[k := Bucket(tokens - 1.0, now)];
      return Success(());
    }
  }

  /** Callers without a key share one bucket per operation. */
  function KeyOf(key: Option<string>, operation: string): (string, string) {
    (if key.None? || key.value == "" then ANONYMOUS else key.value, operation)
  }

  /** Calls in order of time, none before the last one the bucket saw. */
  ghost predicate Timely(b: Option<Bucket>, times: seq<real>) {
    && (b.Some? && times != [] ==> b.value.last <= times[0])
    && forall i, j :: 0 <= i <= j < |times| ==> times[i] <= times[j]
  }

  ghost predicate InRange(limit: Rate, b: Option<Bucket>) {
    b.Some? ==> 0.0 <= b.value.tokens <= limit.capacity
  }

  lemma GainLaws(limit: Rate, a: real, b: real, c: real)
    requires limit.Valid() && a <= b
    ensures limit.Gain(a, b) >= 0.0 && limit.Gain(a, a) == 0.0
    ensures limit.Gain(a, b) + limit.Gain(b, c) == limit.Gain(a, c)
  {
  }

  lemma FoundInRange(limit: Rate, b: Option<Bucket>, now: real)
    requires limit.Valid() && InRange(limit, b) && (b.Some? ==> b.value.last <= now)
    ensures 0.0 <= limit.Found(b, now) <= limit.capacity
    ensures InRange(limit, limit.Next(b, now))
    ensures b.Some? ==> limit.Found(b, now) <= b.value.tokens + limit.Gain(b.value.last, now)
  {
    GainLaws(limit, now, now, now);
    if b.Some? { GainLaws(limit, b.value.last, now, now); }
    hide Rate.Gain;
  }

  /** Tokens stay between zero and the capacity. */
  lemma {:induction false} TokensInRange(limit: Rate, b: Option<Bucket>, times: seq<real>)
    requires limit.Valid() && InRange(limit, b) && Timely(b, times)
    ensures InRange(limit, limit.After(b, times))
    decreases |times|
  {
    if times != [] {
      FoundInRange(limit, b, times[0]);
      TokensInRange(limit, limit.Next(b, times[0]), times[1..]);
    }
  }

  lemma {:induction false} AdmittedLeaves(limit: Rate, b: Bucket, times: seq<real>)
    requires limit.Valid() && InRange(limit, Some(b)) && Timely(Some(b), times) && times != []
    ensures |limit.Admitted(Some(b), times)| as real <= b.tokens + limit.Gain(b.last, times[|times| - 1])
    decreases |times|
  {
    var now, rest, last := times[0], times[1..], times[|times| - 1];
    FoundInRange(limit, Some(b), now);
    GainLaws(limit, b.last, now, last);
    var c := limit.Next(Some(b), now).value;
    hide Rate.Gain;
    if rest == [] {
      OneAdmitted(limit, Some(b), times);
    } else {
      assert rest[|rest| - 1] == last;
      AdmittedLeaves(limit, c, rest);
    }
  }

  lemma OneAdmitted(limit: Rate, b: Option<Bucket>, times: seq<real>)
    requires |times| == 1
    ensures limit.Admitted(b, times) == if limit.Admits(b, times[0]) then [times[0]] else []
  {
    assert limit.Admitted(limit.Next(b, times[0]), times[1..]) == [];
  }

  lemma StretchBound(limit: Rate, b: Option<Bucket>, times: seq<real>)
    requires limit.Valid() && InRange(limit, b) && Timely(b, times) && times != []
    ensures |limit.Admitted(b, times)| as real <= limit.capacity + limit.Gain(times[0], times[|times| - 1])
  {
    var first, rest := times[0], times[1..];
    FoundInRange(limit, b, first);
    GainLaws(limit, first, first, first);
    hide Rate.Gain, Rate.Found;
    if rest == [] {
      OneAdmitted(limit, b, times);
    } else {
      AdmittedLeaves(limit, limit.Next(b, first).value, rest);
      assert rest[|rest| - 1] == times[|times| - 1];
    }
  }

  lemma TimelyParts(limit: Rate, before: seq<real>, times: seq<real>)
    requires Timely(None, before + times)
    ensures Timely(None, before) && Timely(limit.After(None, before), times)
  {
    LastIsLast(limit, None, before);
    assert forall i :: 0 <= i < |before| ==> (before + times)[i] == before[i];
    assert forall i :: 0 <= i < |times| ==> times[i] == (before + times)[|before| + i];
    hide Rate.After;
  }

  /**
   * The window bound: any stretch of calls on one bucket, whatever came before, admits at most
   * the capacity plus what the rate adds between its first and its last call.
   */
  lemma WindowBound(limit: Rate, before: seq<real>, times: seq<real>)
    requires limit.Valid() && times != [] && Timely(None, before + times)
    ensures |limit.Admitted(limit.After(None, before), times)| as real
         <= limit.capacity + (times[|times| - 1] - times[0]) * limit.rate
  {
    hide Rate.After, Rate.Admitted, Rate.Found, Timely;
    TimelyParts(limit, before, times);
    TokensInRange(limit, None, before);
    StretchBound(limit, limit.After(None, before), times);
  }

  lemma {:induction false} LastIsLast(limit: Rate, b: Option<Bucket>, times: seq<real>)
    ensures times != [] ==> limit.After(b, times).Some? && limit.After(b, times).value.last == times[|times| - 1]
    ensures times == [] ==> limit.After(b, times) == b
    decreases |times|
  {
    if |times| > 1 {
      LastIsLast(limit, limit.Next(b, times[0]), times[1..]);
    } else if |times| == 1 {
      assert limit.After(b, times) == limit.After(limit.Next(b, times[0]), []);
    }
  }

  // --- Rejected calls leave no trace --------------------------------------------------------------

  /** Two buckets no call from `now` on can tell apart. */
  ghost predicate Alike(limit: Rate, b: Option<Bucket>, c: Option<Bucket>, now: real) {
    forall t :: t >= now ==> limit.Found(b, t) == limit.Found(c, t)
  }

  lemma RejectionIsSilent(limit: Rate, b: Option<Bucket>, now: real)
    requires limit.Valid() && InRange(limit, b) && (b.Some? ==> b.value.last <= now) && !limit.Admits(b, now)
    ensures Alike(limit, b, limit.Next(b, now), now)
  {
    forall t | t >= now ensures limit.Found(b, t) == limit.Found(limit.Next(b, now), t) {
      GainLaws(limit, now, t, t);
      GainLaws(limit, now, now, now);
      if b.Some? { GainLaws(limit, b.value.last, now, t); }
    }
  }

  lemma {:induction false} AlikeVerdicts(limit: Rate, b: Option<Bucket>, c: Option<Bucket>, now: real, times: seq<real>)
    requires Alike(limit, b, c, now) && forall i :: 0 <= i < |times| ==> now <= times[i]
    requires forall i, j :: 0 <= i <= j < |times| ==> times[i] <= times[j]
    ensures limit.Verdicts(b, times) == limit.Verdicts(c, times)
    ensures limit.Admitted(b, times) == limit.Admitted(c, times)
    decreases |times|
  {
    if times != [] {
      assert limit.Found(b, times[0]) == limit.Found(c, times[0]);
      assert limit.Next(b, times[0]) == limit.Next(c, times[0]);
    }
  }

  /** Leaving a rejected call out of a run changes no later verdict. */
  lemma RejectedLeavesNoTrace(limit: Rate, b: Option<Bucket>, now: real, times: seq<real>)
    requires limit.Valid() && InRange(limit, b) && Timely(b, [now] + times) && !limit.Admits(b, now)
    ensures limit.Verdicts(limit.Next(b, now), times) == limit.Verdicts(b, times)
    ensures limit.Admitted(limit.Next(b, now), times) == limit.Admitted(b, times)
  {
    assert forall i :: 0 <= i < |times| ==> times[i] == ([now] + times)[i + 1];
    assert ([now] + times)[0] == now;
    RejectionIsSilent(limit, b, now);
    AlikeVerdicts(limit, b, limit.Next(b, now), now, times);
  }

  /** The admitted calls alone would all have been admitted, and leave an equivalent bucket. */
  lemma {:induction false} AdmittedStandAlone(limit: Rate, b: Option<Bucket>, times: seq<real>)
    requires limit.Valid() && InRange(limit, b) && Timely(b, times)
    ensures limit.Admitted(b, limit.Admitted(b, times)) == limit.Admitted(b, times)
    decreases |times|
  {
    if times != [] {
      var now, rest := times[0], times[1..];
      FoundInRange(limit, b, now);
      assert times == [now] + rest;
      AdmittedStandAlone(limit, limit.Next(b, now), rest);
      if limit.Admits(b, now) {
        var kept := limit.Admitted(b, times);
        assert kept[0] == now && kept[1..] == limit.Admitted(limit.Next(b, now), rest);
      } else {
        RejectedLeavesNoTrace(limit, b, now, rest);
        assert limit.Admitted(b, times) == limit.Admitted(limit.Next(b, now), rest);
        AdmittedStandAlone(limit, b, rest);
      }
      hide Rate.Found, Rate.Admits;
    }
  }
}
