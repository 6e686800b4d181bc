/**
 * The log of one topic as a reader sees it: every event ever appended, in order,
 * together with the retention window that hides the old ones.
 */
module Stream {
  import opened Contracts

  datatype Stream = Stream(retention: int, recs: seq<EventRecord>) {

    /** The event at `o` is still inside the retention window at time `now`. */
    predicate LiveAt(now: int, o: nat)
      requires o < |recs|
    {
      retention <= 0 || recs[o].createdAt >= now - retention
    }

    ghost predicate Ordered() {
      forall i, j :: 0 <= i <= j < |recs| ==> recs[i].createdAt <= recs[j].createdAt
    }

    function FirstLiveFrom(now: int, k: nat): (f: nat)
      requires k <= |recs|
      ensures k <= f <= |recs|
      ensures forall i :: k <= i < f ==> !LiveAt(now, i)
      ensures f < |recs| ==> LiveAt(now, f)
      decreases |recs| - k
    {
      if k < |recs| && !LiveAt(now, k) then FirstLiveFrom(now, k + 1) else k
    }

    /** The offset of the oldest live event, or the end of the log when there is none. */
    function FirstLive(now: int): (f: nat)
      ensures f <= |recs|
      ensures forall i :: 0 <= i < f ==> !LiveAt(now, i)
      ensures f < |recs| ==> LiveAt(now, f)
    {
      FirstLiveFrom(now, 0)
    }
  }

  /** A read either finds its cursor expired or returns the events at offsets `lo..hi`. */
  datatype Page = Stale | Range(lo: nat, hi: nat)

  /**
   * The events after offset `after` (-1: from the start of retention) and not past
   * `upto`, at most `limit` of them.  A limit below one still returns one event.
   */
  function Fetch(st: Stream, now: int, after: int, upto: int, limit: int): (p: Page)
    ensures p.Range? ==> p.lo <= p.hi <= |st.recs|
  {
    var f := st.FirstLive(now);
    if 0 <= after < f < |st.recs| then Stale
    else
      var lo := Max(after + 1, f);
      var hi := Min(Min(|st.recs|, upto + 1), lo + Max(limit, 1));
      if lo < hi then Range(lo, hi) else Range(0, 0)
  }

  lemma LiveTail(st: Stream, now: int)
    requires st.Ordered()
    ensures forall o :: st.FirstLive(now) <= o < |st.recs| ==> st.LiveAt(now, o)
  {
    forall o | st.FirstLive(now) <= o < |st.recs| ensures st.LiveAt(now, o) {
      assert st.recs[st.FirstLive(now)].createdAt <= st.recs[o].createdAt;
    }
  }
}
