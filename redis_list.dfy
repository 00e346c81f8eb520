/**
 * The one Redis list the transport uses (the list under the key
 * "subscribers"), and the semantics of the two list commands it issues:
 * LPUSH and LRANGE.
 */
module RedisList {

  /** One list element: a JSON-encoded subscriber, as Redis stores it. */
  type Record = string

  /**
   * How one LPUSH command ends, the command reaching the server at most
   * once. A reply can be lost after the server has applied the command (a
   * read timeout, a dropped connection), so a reported failure does not tell
   * whether the list changed.
   */
  datatype WriteOutcome =
    | Acked             // applied and acknowledged
    | NotApplied        // refused or never reached the server
    | AppliedUnacked    // applied, but the client reports an error

  /**
   * LRANGE key start stop. Both bounds are inclusive; a negative bound counts
   * from the tail (-1 is the last element); a start before the head is moved
   * to the head, a stop past the tail is moved to the tail, and an empty range
   * gives the empty list.
   */
  function LRange(list: seq<Record>, start: int, stop: int): (r: seq<Record>)
    ensures |r| <= |list|
  {
    var n := |list|;
    var first := if start >= 0 then start else if n + start >= 0 then n + start else 0;
    var last := if stop < 0 then n + stop else if stop >= n then n - 1 else stop;
    if first > last || first >= n then [] else list[first..last + 1]
  }

  /**
   * LPUSH puts the new element in front: a range from the head, one longer,
   * sees the new element followed by what the shorter range saw before.
   */
  lemma LRangeAfterPush(list: seq<Record>, v: Record, stop: nat)
    ensures LRange([v] + list, 0, stop + 1) == [v] + LRange(list, 0, stop)
  {
  }

  /**
   * The backing store as the transport sees it: the list of persisted
   * subscribers. It is shared by every transport that reaches the same
   * address and outlives them.
   */
  class Store {
    var list: seq<Record>

    constructor (initial: seq<Record>)
      ensures list == initial
    {
      list := initial;
    }

    /**
     * LPUSH subscribers v, ending as `outcome` says. The client reports
     * success only for an acknowledged write; a reported failure may or may
     * not have put `v` in front.
     */
    method LPush(v: Record, outcome: WriteOutcome) returns (ok: bool)
      modifies this
      ensures ok == outcome.Acked?
      ensures ok ==> list == [v] + old(list)
      ensures !ok ==> list == old(list) || list == [v] + old(list)
      ensures list == if outcome.NotApplied? then old(list) else [v] + old(list)
    {
      ok := outcome.Acked?;
      if !outcome.NotApplied? {
        list := [v] + list;
      }
    }
  }
}
