/** The in-memory subscription state: subscriptions, high-water marks, attempts and acks. */
module SubscriptionStore {
  import opened Contracts

  /** An event that no attempt could deliver. */
  datatype DeadLetterEntry = DeadLetterEntry(sub: string, eventId: string, topic: string, offset: nat)

  function AttemptsOf(attempts: seq<DeliveryAttempt>, sub: string): seq<DeliveryAttempt> {
    if attempts == [] then []
    else
      var n := |attempts| - 1;
      AttemptsOf(attempts[..n], sub) + (if attempts[n].sub == sub then [attempts[n]] else [])
  }

  function Buried(attempts: seq<DeliveryAttempt>): seq<DeadLetterEntry> {
    if attempts == [] then []
    else
      var n := |attempts| - 1;
      var a := attempts[n];
      Buried(attempts[..n]) +
      (if a.status == DeadLetter then [DeadLetterEntry(a.sub, a.eventId, a.topic, a.offset)] else [])
  }

  /** The attempts of a subscription come in the order in which they were recorded. */
  lemma {:induction false} AttemptsJoin(a: seq<DeliveryAttempt>, b: seq<DeliveryAttempt>, sub: string)
    ensures AttemptsOf(a + b, sub) == AttemptsOf(a, sub) + AttemptsOf(b, sub)
  {
    if b == [] {
      assert a + b == a;
    } else {
      var n := |b| - 1;
      assert (a + b)[..|a + b| - 1] == a + b[..n];
      AttemptsJoin(a, b[..n], sub);
    }
  }

  /** They are all of its attempts, each as often as it was recorded, and none of another subscription. */
  lemma {:induction false} AttemptsCount(attempts: seq<DeliveryAttempt>, sub: string, a: DeliveryAttempt)
    ensures multiset(AttemptsOf(attempts, sub))[a] == if a.sub == sub then multiset(attempts)[a] else 0
  {
    if attempts != [] {
      var n := |attempts| - 1;
      AttemptsCount(attempts[..n], sub, a);
      assert attempts == attempts[..n] + [attempts[n]];
    }
  }

  lemma {:induction false} BuriedJoin(a: seq<DeliveryAttempt>, b: seq<DeliveryAttempt>)
    ensures Buried(a + b) == Buried(a) + Buried(b)
  {
    if b == [] {
      assert a + b == a;
    } else {
      var n := |b| - 1;
      assert (a + b)[..|a + b| - 1] == a + b[..n];
      BuriedJoin(a, b[..n]);
    }
  }

  /** An entry is listed exactly when an attempt at its event was dead-lettered. */
  lemma {:induction false} BuriedExactly(attempts: seq<DeliveryAttempt>, d: DeadLetterEntry)
    ensures d in Buried(attempts)
       <==> exists a ::
              a in attempts && a.status == DeadLetter && d == DeadLetterEntry(a.sub, a.eventId, a.topic, a.offset)
  {
    if attempts != [] {
      var n := |attempts| - 1;
      BuriedExactly(attempts[..n], d);
      assert attempts == attempts[..n] + [attempts[n]];
    }
  }

  /** An entry is listed as often as the attempts of its own subscription list it. */
  lemma {:induction false} BuriedBySub(attempts: seq<DeliveryAttempt>, d: DeadLetterEntry)
    ensures multiset(Buried(attempts))[d] == multiset(Buried(AttemptsOf(attempts, d.sub)))[d]
  {
    if attempts != [] {
      var n := |attempts| - 1;
      var last := if attempts[n].sub == d.sub then [attempts[n]] else [];
      BuriedBySub(attempts[..n], d);
      BuriedJoin(AttemptsOf(attempts[..n], d.sub), last);
      assert last != [] ==> last[..0] == [];
    }
  }

  /** The mark of a subscription on a topic, if one was ever written. */
  function MarkOf(marks: map<string, map<string, int>>, id: string, topic: string): Option<int> {
    if id in marks && topic in marks[id] then Some(marks[id][topic]) else None
  }

  class InMemorySubscriptionStore {
    var subs: map<string, Subscription>
    var marks: map<string, map<string, int>>
    var attempts: seq<DeliveryAttempt>
    var acks: map<(string, string), string>

    constructor ()
      ensures subs == map[] && marks == map[] && attempts == [] && acks == map[]
    {
      subs, marks, attempts, acks := map[], map[], [], map[];
    }

    method Add(id: string, sub: Subscription, highWater: map<string, int>)
      modifies this`subs, this`marks
      ensures subs == old(subs)[id := sub] && marks == old(marks)[id := highWater]
    {
      subs := subs[id := sub];
      marks := marks[id := highWater];
    }

    method Get(id: string) returns (sub: Option<Subscription>)
      ensures sub == if id in subs then Some(subs[id]) else None
    {
      sub := if id in subs then Some(subs[id]) else None;
    }

    /** The ids of all subscriptions, each once. */
    method ListAll() returns (ids: seq<string>)
      ensures forall id :: id in ids <==> id in subs
      ensures forall i, j :: 0 <= i < j < |ids| ==> ids[i] != ids[j]
    {
      ids := [];
      var todo := subs.Keys;
      while todo != {}
        invariant forall id :: id in subs <==> id in ids || id in todo
        invariant forall id :: id in todo ==> id !in ids
        invariant forall i, j :: 0 <= i < j < |ids| ==> ids[i] != ids[j]
        decreases |todo|
      {
        var id :| id in todo;
        todo := todo - {id};
        ids := ids + [id];
      }
    }

    method Update(id: string, sub: Subscription)
      modifies this`subs
      ensures subs == old(subs)[id := sub]
    {
      subs := subs[id := sub];
    }

    /** The marks of one subscription; a topic without one is before its first event. */
    method HighWater(id: string) returns (marks: map<string, int>)
      ensures marks == if id in this.marks then this.marks[id] else map[]
    {
      marks := if id in this.marks then this.marks[id] else map[];
    }

    /** Writes one mark; every other one stays. */
    method SetHighWater(id: string, topic: string, offset: int)
      modifies this`marks
      ensures MarkOf(marks, id, topic) == Some(offset)
      ensures forall i, t :: (i, t) != (id, topic) ==> MarkOf(marks, i, t) == MarkOf(old(marks), i, t)
      ensures marks == old(marks)[id := (if id in old(marks) then old(marks)[id] else map[])[topic := offset]]
    {
      marks := marks[id := (if id in marks then marks[id] else map[])[topic := offset]];
    }

    method RecordAck(id: string, eventId: string, cursor: string)
      modifies this`acks
      ensures acks == old(acks)[(id, eventId) := cursor]
    {
      acks := acks[(id, eventId) := cursor];
    }

    method RecordAttempt(attempt: DeliveryAttempt)
      modifies this`attempts
      ensures attempts == old(attempts) + [attempt]
    {
      attempts := attempts + [attempt];
    }

    method DeliveryAttempts(id: string) returns (found: seq<DeliveryAttempt>)
      ensures found == AttemptsOf(attempts, id)
    {
      found := [];
      for i := 0 to |attempts|
        invariant found == AttemptsOf(attempts[..i], id)
      {
        assert attempts[..i + 1][..i] == attempts[..i];
        if attempts[i].sub == id { found := found + [attempts[i]]; }
      }
      assert attempts[..|attempts|] == attempts;
    }

    method DeadLetters() returns (found: seq<DeadLetterEntry>)
      ensures found == Buried(attempts)
    {
      found := [];
      for i := 0 to |attempts|
        invariant found == Buried(attempts[..i])
      {
        assert attempts[..i + 1][..i] == attempts[..i];
        var a := attempts[i];
        if a.status == DeadLetter { found := found + [DeadLetterEntry(a.sub, a.eventId, a.topic, a.offset)]; }
      }
      assert attempts[..|attempts|] == attempts;
    }
  }
}
