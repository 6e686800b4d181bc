/** The subscriber's end: verify, deduplicate, acknowledge. */
module Receiver {
  import opened Contracts

  datatype Arrival = Arrival(id: string, data: string)

  datatype DeliveryResult = DeliveryResult(ack: bool, retry: bool, status: int)

  /** How an arrival fares before it is looked at: credentials, key, signature and timestamp. */
  datatype Check = Passed | BadToken | UnknownKey | BadSignature | OutOfSkew

  function Refusal(check: Check): DeliveryResult
    requires !check.Passed?
  {
    DeliveryResult(false, false, if check.OutOfSkew? then 403 else 401)
  }

  function Ids(arrivals: seq<Arrival>): (ids: seq<string>)
    ensures |ids| == |arrivals| && forall i :: 0 <= i < |ids| ==> ids[i] == arrivals[i].id
  {
    seq(|arrivals|, i requires 0 <= i < |arrivals| => arrivals[i].id)
  }

  /** The ids taken so far, after one more arrival was acknowledged. */
  function Taken(ids: seq<string>, id: string): seq<string> {
    if id in ids then ids else ids + [id]
  }

  class EventReceiver {
    var received: seq<Arrival>
    var seen: set<string>

    ghost predicate Valid()
      reads this
    {
      && (forall id :: id in seen <==> id in Ids(received))
      && (forall i, j :: 0 <= i < j < |received| ==> received[i].id != received[j].id)
      && "" !in seen
    }

    constructor ()
      ensures Valid() && received == []
    {
      received, seen := [], {};
    }

    /**
     * Takes an arrival once: an id that was taken before is acknowledged again and not taken again.
     * `handler` is what the application answers, if it answers at all.
     */
    method Accept(check: Check, event: Arrival, handler: Option<DeliveryResult>) returns (r: DeliveryResult)
      requires Valid()
      modifies this
      ensures Valid()
      ensures r.ack ==> check.Passed? && event.id != "" && Ids(received) == Taken(old(Ids(received)), event.id)
      ensures !r.ack ==> received == old(received)
      ensures old(event.id in seen) && check.Passed? ==> r.ack && received == old(received)
      ensures old(received) <= received
      ensures !check.Passed? ==> r == Refusal(check)
      ensures check.Passed? && event.id != "" && old(event.id !in seen) && handler.Some? ==> r == handler.value
      ensures check.Passed? && event.id != "" && handler.None? ==> r.ack
      ensures !r.ack && r.retry ==> handler.Some? && r == handler.value
      ensures check == BadToken || check == UnknownKey || check == BadSignature ==>
                r == DeliveryResult(false, false, 401)
      ensures check == OutOfSkew ==> r == DeliveryResult(false, false, 403)
      ensures check.Passed? && event.id == "" ==> r == DeliveryResult(false, false, 400)
      ensures check.Passed? && old(event.id in seen) ==> r.ack && r.status == 200
      ensures check.Passed? && event.id != "" && old(event.id !in seen) && handler.None? ==> r.ack && r.status == 204
      ensures check.Passed? && event.id != "" && old(event.id !in seen) ==>
                received == if r.ack then old(received) + [event] else old(received)
    {
      if !check.Passed? { return Refusal(check); }
      if event.id == "" { return DeliveryResult(false, false, 400); }
      if event.id in seen { return DeliveryResult(true, true, 200); }
      if handler.Some? {
        if handler.value.ack { Take(event); }
        return handler.value;
      }
      Take(event);
      return DeliveryResult(true, true, 204);
    }

    method Take(event: Arrival)
      requires Valid() && event.id != "" && event.id !in seen
      modifies this
      ensures Valid() && received == old(received) + [event]
      ensures Ids(received) == old(Ids(received)) + [event.id]
    {
      seen := seen + {event.id};
      received := received + [event];
      assert Ids(received) == old(Ids(received)) + [event.id];
    }
  }

  /** What the receiver holds after acknowledging `ids` one after the other. */
  function TakenAll(taken: seq<string>, ids: seq<string>): seq<string>
    decreases |ids|
  {
    if ids == [] then taken else TakenAll(Taken(taken, ids[0]), ids[1..])
  }

  /** However often ids arrive: each is held once, in order of first arrival, and none is made up. */
  lemma {:induction false} EachOnce(taken: seq<string>, ids: seq<string>)
    requires forall i, j :: 0 <= i < j < |taken| ==> taken[i] != taken[j]
    ensures var r := TakenAll(taken, ids);
      && taken <= r
      && (forall i, j :: 0 <= i < j < |r| ==> r[i] != r[j])
      && forall id :: id in r <==> id in taken || id in ids
    decreases |ids|
  {
    if ids != [] {
      assert ids == [ids[0]] + ids[1..];
      EachOnce(Taken(taken, ids[0]), ids[1..]);
    }
  }

  /** Sending anything again changes nothing. */
  lemma {:induction false} ResendIsSilent(taken: seq<string>, ids: seq<string>, again: seq<string>)
    requires forall i, j :: 0 <= i < j < |taken| ==> taken[i] != taken[j]
    requires forall id :: id in again ==> id in taken || id in ids
    ensures TakenAll(TakenAll(taken, ids), again) == TakenAll(taken, ids)
    decreases |again|
  {
    EachOnce(taken, ids);
    if again != [] {
      assert again == [again[0]] + again[1..];
      ResendIsSilent(taken, ids, again[1..]);
    }
  }
}
