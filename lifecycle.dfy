/**
 * Sequences of calls on one transport: what the lifecycle guarantees across
 * calls, stated over the step functions the transport's methods are proved
 * against.
 */
module Lifecycle {
  import opened Wrappers
  import opened RedisList
  import opened Mercure

  /** One call on the transport, with the outcomes of its collaborators fixed. */
  datatype Call =
    | DispatchCall(stillConnected: Handle -> bool)
    | AddCall(s: Handle, encoded: Option<Record>, write: WriteOutcome)
    | CloseCall(closeFails: bool)

  function Apply(st: State, c: Call): Step
  {
    match c
    case DispatchCall(f) => DispatchStep(st, f)
    case AddCall(s, encoded, up) => AddStep(st, s, encoded, up)
    case CloseCall(fails) => CloseStep(st, fails)
  }

  /** The state after the calls, in order. */
  function Run(st: State, calls: seq<Call>): State
    decreases |calls|
  {
    if calls == [] then st else Run(Apply(st, calls[0]).next, calls[1..])
  }

  /** The error each of the calls returns, in order. */
  function Errors(st: State, calls: seq<Call>): (errs: seq<Option<Error>>)
    ensures |errs| == |calls|
    decreases |calls|
  {
    if calls == [] then [] else [Apply(st, calls[0]).err] + Errors(Apply(st, calls[0]).next, calls[1..])
  }

  /** `a` is what remains at the tail of `b`: `b` only grew at its front. */
  ghost predicate IsSuffix(a: seq<Record>, b: seq<Record>)
  {
    |a| <= |b| && b[|b| - |a|..] == a
  }

  lemma SuffixTransitive(a: seq<Record>, b: seq<Record>, c: seq<Record>)
    requires IsSuffix(a, b) && IsSuffix(b, c)
    ensures IsSuffix(a, c)
  {
  }

  /**
   * Closed is terminal: from a closed transport no sequence of calls changes
   * anything, every Dispatch and AddSubscriber is refused with
   * ClosedTransport, and every further Close answers None.
   */
  lemma {:induction false} ClosedIsTerminal(st: State, calls: seq<Call>)
    requires st.closed
    ensures Run(st, calls) == st
    ensures forall i :: 0 <= i < |calls| ==>
      Errors(st, calls)[i] == if calls[i].CloseCall? then None else Some(ClosedTransport)
    decreases |calls|
  {
    if calls != [] {
      ClosedIsTerminal(st, calls[1..]);
      assert Errors(st, calls) == [Apply(st, calls[0]).err] + Errors(st, calls[1..]);
      forall i | 1 <= i < |calls|
        ensures Errors(st, calls)[i] == Errors(st, calls[1..])[i - 1]
      {
      }
    }
  }

  /** After the first Close, whatever comes next is refused or ignored. */
  lemma {:induction false} AfterClose(st: State, closeFails: bool, calls: seq<Call>)
    requires Inv(st)
    ensures var closed := CloseStep(st, closeFails).next;
      closed.closed && closed.subscribers == {} &&
      Run(closed, calls) == closed &&
      forall i :: 0 <= i < |calls| && !calls[i].CloseCall? ==> Errors(closed, calls)[i] == Some(ClosedTransport)
  {
    ClosedIsTerminal(CloseStep(st, closeFails).next, calls);
  }

  /** Teardown runs once: a second Close changes nothing and answers None. */
  lemma CloseOnce(st: State, first: bool, second: bool)
    ensures var s1 := CloseStep(st, first).next;
      CloseStep(s1, second) == Step(s1, None)
  {
  }

  /** No call breaks the invariant that a closed transport has no subscribers. */
  lemma {:induction false} RunKeepsInv(st: State, calls: seq<Call>)
    requires Inv(st)
    ensures Inv(Run(st, calls))
    decreases |calls|
  {
    if calls != [] {
      RunKeepsInv(Apply(st, calls[0]).next, calls[1..]);
    }
  }

  /**
   * The persisted list is append-only at its front: whatever the calls, the
   * records that were there are still there, in order, at the tail.
   */
  lemma {:induction false} RecordsOnlyGrow(st: State, calls: seq<Call>)
    ensures IsSuffix(st.records, Run(st, calls).records)
    decreases |calls|
  {
    if calls != [] {
      var mid := Apply(st, calls[0]).next;
      assert IsSuffix(st.records, mid.records) by {
        assert mid.records == st.records || mid.records == [mid.records[0]] + st.records;
      }
      RecordsOnlyGrow(mid, calls[1..]);
      SuffixTransitive(st.records, mid.records, Run(mid, calls[1..]).records);
    }
  }

  /**
   * Dispatch on an open transport keeps exactly the subscribers that report
   * they are still connected; with N registered of which M report a
   * disconnection, N - M stay registered.
   */
  lemma DispatchKeepsConnected(st: State, f: Handle -> bool)
    requires !st.closed
    ensures var step := DispatchStep(st, f);
      step.err == None && step.next.closed == st.closed && step.next.records == st.records &&
      (forall s :: s in step.next.subscribers <==> s in st.subscribers && f(s)) &&
      |step.next.subscribers| == |st.subscribers| - |Dropped(st.subscribers, f)|
  {
    var kept, dropped := Prune(st.subscribers, f), Dropped(st.subscribers, f);
    assert kept + dropped == st.subscribers;
    assert kept * dropped == {};
  }

  /**
   * AddSubscriber on an open transport registers the handle and leaves every
   * other registration as it was, whether or not persisting succeeds.
   */
  lemma AddRegisters(st: State, s: Handle, encoded: Option<Record>, write: WriteOutcome)
    requires !st.closed
    ensures var step := AddStep(st, s, encoded, write);
      step.err == None && !step.next.closed &&
      step.next.subscribers == st.subscribers + {s} &&
      (s in st.subscribers ==> step.next.subscribers == st.subscribers)
  {
  }

  /** Two registrations of distinct subscribers on an open transport: neither is lost. */
  lemma {:induction false} TwoAddsBothRegistered(st: State, s1: Handle, s2: Handle,
                                                  e1: Option<Record>, e2: Option<Record>, w1: WriteOutcome, w2: WriteOutcome)
    requires !st.closed
    ensures var calls := [AddCall(s1, e1, w1), AddCall(s2, e2, w2)];
      Run(st, calls).subscribers == st.subscribers + {s1, s2} &&
      Errors(st, calls) == [None, None]
  {
    var mid := AddStep(st, s1, e1, w1).next;
    var calls := [AddCall(s1, e1, w1), AddCall(s2, e2, w2)];
    assert calls[1..] == [AddCall(s2, e2, w2)];
    assert Run(st, calls) == Run(mid, calls[1..]);
    assert Run(mid, calls[1..]) == Run(AddStep(mid, s2, e2, w2).next, []);
  }

  /**
   * A successful registration is what GetSubscribers reads back first: the
   * window starts with the new record, followed by the window as it was,
   * less its last element when it was full.
   */
  lemma PersistedFirstInWindow(st: State, s: Handle, rec: Record)
    requires !st.closed
    ensures var next := AddStep(st, s, Some(rec), Acked).next;
      Window(next.records) == [rec] + LRange(st.records, 0, 99) &&
      Window(next.records)[0] == rec
  {
    LRangeAfterPush(st.records, rec, 99);
  }

  /** A subscriber that cannot be encoded leaves the persisted list as it was. */
  lemma MarshalFailureWritesNothing(st: State, s: Handle, write: WriteOutcome)
    ensures PersistError(None, write) == Some(MarshalFailed)
    ensures AddStep(st, s, None, write).next.records == st.records
  {
  }

  /**
   * A registration whose write is reported failed leaves the persisted list
   * either as it was or with the record in front: the report does not say which.
   */
  lemma WriteFailureMayHaveWritten(st: State, s: Handle, rec: Record, write: WriteOutcome)
    requires !st.closed && !write.Acked?
    ensures PersistError(Some(rec), write) == Some(StoreWriteFailed)
    ensures var next := AddStep(st, s, Some(rec), write).next;
      next.records == st.records || next.records == [rec] + st.records
  {
  }

  /**
   * A new transport is open with an empty registry, and no sequence of calls
   * on it reaches a closed transport that still has subscribers.
   */
  lemma InitialIsOpen(records: seq<Record>)
    ensures !Initial(records).closed && Initial(records).subscribers == {}
    ensures forall calls :: Inv(Run(Initial(records), calls))
  {
    forall calls
      ensures Inv(Run(Initial(records), calls))
    {
      RunKeepsInv(Initial(records), calls);
    }
  }
}
