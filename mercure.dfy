/**
 * The Redis transport of the Mercure hub: a registry of live subscribers that
 * updates are fanned out to, a durable list of subscriber records in Redis,
 * and a one-shot shutdown.
 */
module Mercure {
  import opened Wrappers
  import opened RedisList

  /** Identity of a live subscriber: the `*Subscriber` pointer the registry is keyed by. */
  type Handle = nat

  /** The parts of the transport URL the constructor looks at. */
  datatype Url = Url(host: string, path: string, redacted: string)

  datatype Error =
    | ClosedTransport                         // ErrClosedTransport
    | TransportError(dsn: string, msg: string) // ErrTransport, from the constructor
    | MarshalFailed                           // json.Marshal of a subscriber failed
    | StoreWriteFailed                        // LPUSH failed
    | CloseFailed                             // "unable to close Redis DB"

  /** The event id GetSubscribers reports; it is set once and never updated. */
  const LastEventID: string := "42"

  /** GetSubscribers reads LRANGE subscribers WindowStart WindowStop. */
  const WindowStart: int := 0
  const WindowStop: int := 100

  /**
   * The Redis address: the URL path (redis:///path.db), or else its host
   * (redis://path.db); a URL with neither is refused.
   */
  function ResolveAddress(u: Url): (r: Result<string, Error>)
    ensures r.Success? <==> u.path != "" || u.host != ""
    ensures r.Success? ==> r.value != "" && (r.value == u.path || r.value == u.host)
    ensures u.path != "" ==> r == Success(u.path)
    ensures r.Failure? ==> r.error == TransportError(u.redacted, "missing path")
  {
    var path := if u.path == "" then u.host else u.path;
    if path == "" then Failure(TransportError(u.redacted, "missing path")) else Success(path)
  }

  /** The records GetSubscribers reads back: the most recent ones, at most 101. */
  function Window(records: seq<Record>): seq<Record>
  {
    LRange(records, WindowStart, WindowStop)
  }

  lemma WindowIsPrefix(records: seq<Record>)
    ensures |Window(records)| == if |records| < 101 then |records| else 101
    ensures Window(records) == records[..|Window(records)|]
  {
  }

  // ---------------------------------------------------------------------
  // The transport's observable state and the effect of each operation on it.

  /** What the transport's operations read and change: lifecycle, registry, persisted list. */
  datatype State = State(closed: bool, subscribers: set<Handle>, records: seq<Record>)

  /** The state after an operation and the error it returns. */
  datatype Step = Step(next: State, err: Option<Error>)

  /** Once closed, the registry stays empty: Close drains it and nothing refills it. */
  ghost predicate Inv(st: State)
  {
    st.closed ==> st.subscribers == {}
  }

  /** A transport just built, over a store that already holds `records`. */
  function Initial(records: seq<Record>): State
  {
    State(false, {}, records)
  }

  /** The subscribers that stay registered after one round of delivery. */
  function Prune(subs: set<Handle>, stillConnected: Handle -> bool): set<Handle>
  {
    set s | s in subs && stillConnected(s)
  }

  /** The subscribers one round of delivery removes. */
  function Dropped(subs: set<Handle>, stillConnected: Handle -> bool): set<Handle>
  {
    set s | s in subs && !stillConnected(s)
  }

  function DispatchStep(st: State, stillConnected: Handle -> bool): Step
  {
    if st.closed then Step(st, Some(ClosedTransport))
    else Step(st.(subscribers := Prune(st.subscribers, stillConnected)), None)
  }

  /** The persisted list after persisting a subscriber whose encoding is `encoded`. */
  function Persisted(records: seq<Record>, encoded: Option<Record>, write: WriteOutcome): seq<Record>
  {
    if encoded.Some? && !write.NotApplied? then [encoded.value] + records else records
  }

  /** The error persist returns. */
  function PersistError(encoded: Option<Record>, write: WriteOutcome): Option<Error>
  {
    if encoded.None? then Some(MarshalFailed)
    else if !write.Acked? then Some(StoreWriteFailed)
    else None
  }

  /** AddSubscriber; the error of persisting is dropped, so an open transport always answers None. */
  function AddStep(st: State, s: Handle, encoded: Option<Record>, write: WriteOutcome): Step
  {
    if st.closed then Step(st, Some(ClosedTransport))
    else Step(State(false, st.subscribers + {s}, Persisted(st.records, encoded, write)), None)
  }

  /** Close: the first call tears down; every later call does nothing and answers None. */
  function CloseStep(st: State, closeFails: bool): Step
  {
    if st.closed then Step(st, None)
    else Step(State(true, {}, st.records), if closeFails then Some(CloseFailed) else None)
  }

  // ---------------------------------------------------------------------
  // The transport itself.

  class RedisTransport {
    /** The `closed` channel, closed by the first Close; the client is closed at the same moment. */
    var closed: bool
    /** The registry `map[*Subscriber]struct{}`, as the set of its keys. */
    var subscribers: set<Handle>
    const lastEventID: string
    /** The Redis address the client was built for. */
    const addr: string
    /** The store the client talks to. */
    const store: Store

    ghost predicate Valid()
      reads this
    {
      lastEventID == LastEventID && (closed ==> subscribers == {})
    }

    /** The transport's state, the persisted list included. */
    function Abs(): State
      reads this, store
    {
      State(closed, subscribers, store.list)
    }

    constructor (addr: string, store: Store)
      ensures Valid()
      ensures this.addr == addr && this.store == store
      ensures Abs() == Initial(store.list)
    {
      closed := false;
      subscribers := {};
      lastEventID := LastEventID;
      this.addr := addr;
      this.store := store;
    }

    /**
     * Hands the update to every registered subscriber and unregisters each one
     * whose delivery reports that it is no longer connected.
     * `stillConnected(s)` is what `s.Dispatch(update, false)` answers; the
     * handles the update was handed to, in the order of the calls, are
     * returned in `delivered`.
     */
    method Dispatch(stillConnected: Handle -> bool) returns (err: Option<Error>, delivered: seq<Handle>)
      requires Valid()
      modifies this
      ensures Valid()
      ensures Abs() == DispatchStep(old(Abs()), stillConnected).next
      ensures err == DispatchStep(old(Abs()), stillConnected).err
      ensures forall s :: s in delivered <==> !old(closed) && s in old(subscribers)
      ensures forall i, j :: 0 <= i < j < |delivered| ==> delivered[i] != delivered[j]
    {
      delivered := [];
      if closed {
        return Some(ClosedTransport), delivered;
      }
      var pending := subscribers;
      while pending != {}
        invariant !closed && lastEventID == LastEventID
        invariant pending <= old(subscribers)
        invariant subscribers == Prune(old(subscribers) - pending, stillConnected) + pending
        invariant forall s :: s in delivered <==> s in old(subscribers) && s !in pending
        invariant forall i, j :: 0 <= i < j < |delivered| ==> delivered[i] != delivered[j]
        decreases pending
      {
        var s :| s in pending;
        delivered := delivered + [s];
        if !stillConnected(s) {
          subscribers := subscribers - {s};
        }
        pending := pending - {s};
      }
      return None, delivered;
    }

    /** Encodes `s` and pushes the record onto the front of the persisted list. */
    method Persist(s: Handle, encode: Handle -> Option<Record>, write: WriteOutcome) returns (err: Option<Error>)
      modifies store
      ensures store.list == Persisted(old(store.list), encode(s), write)
      ensures err == PersistError(encode(s), write)
    {
      var encoded := encode(s);
      if encoded.None? {
        return Some(MarshalFailed);
      }
      var ok := store.LPush(encoded.value, write);
      if !ok {
        return Some(StoreWriteFailed);
      }
      return None;
    }

    /** Registers `s` and persists a record of it; a failure to persist is not reported. */
    method AddSubscriber(s: Handle, encode: Handle -> Option<Record>, write: WriteOutcome) returns (err: Option<Error>)
      requires Valid()
      modifies this, store
      ensures Valid()
      ensures Abs() == AddStep(old(Abs()), s, encode(s), write).next
      ensures err == AddStep(old(Abs()), s, encode(s), write).err
    {
      if closed {
        return Some(ClosedTransport);
      }
      subscribers := subscribers + {s};
      var _ := Persist(s, encode, write);
      return None;
    }

    /**
     * Reads back the most recent persisted records and decodes each one
     * (`decode` stands for json.Unmarshal into a `*Subscriber`: its result is
     * the pointer left behind, nil or not, whether or not decoding failed).
     * The read fails, leaving the list empty, when the store is unreachable or
     * the client was closed by Close. No error is ever returned.
     */
    method GetSubscribers(storeUp: bool, decode: Record -> Option<Handle>)
      returns (eventID: string, subs: seq<Option<Handle>>, err: Option<Error>)
      requires Valid()
      ensures eventID == LastEventID && err == None
      ensures |subs| == if !closed && storeUp then |Window(store.list)| else 0
      ensures |subs| <= 101
      ensures forall i :: 0 <= i < |subs| ==> subs[i] == decode(Window(store.list)[i])
    {
      var val: seq<Record> := [];
      if !closed && storeUp {
        val := LRange(store.list, WindowStart, WindowStop);
      }
      var decoded := new Option<Handle>[|val|];
      for i := 0 to |val|
        invariant forall j :: 0 <= j < i ==> decoded[j] == decode(val[j])
      {
        decoded[i] := decode(val[i]);
      }
      return lastEventID, decoded[..], None;
    }

    /**
     * The first call marks the transport closed, disconnects every registered
     * subscriber once (the handles, in the order Disconnect was called, are
     * returned in `disconnected`), empties the registry and closes the client;
     * `closeFails` is the outcome of closing the client. Later calls do nothing.
     */
    method Close(closeFails: bool) returns (err: Option<Error>, disconnected: seq<Handle>)
      requires Valid()
      modifies this
      ensures Valid()
      ensures Abs() == CloseStep(old(Abs()), closeFails).next
      ensures err == CloseStep(old(Abs()), closeFails).err
      ensures forall s :: s in disconnected <==> s in old(subscribers)
      ensures forall i, j :: 0 <= i < j < |disconnected| ==> disconnected[i] != disconnected[j]
    {
      if closed {
        return None, [];
      }
      closed := true;
      disconnected := [];
      while subscribers != {}
        invariant closed && lastEventID == LastEventID
        invariant subscribers <= old(subscribers)
        invariant forall s :: s in disconnected <==> s in old(subscribers) && s !in subscribers
        invariant forall i, j :: 0 <= i < j < |disconnected| ==> disconnected[i] != disconnected[j]
        decreases subscribers
      {
        var s :| s in subscribers;
        disconnected := disconnected + [s];
        subscribers := subscribers - {s};
      }
      err := if closeFails then Some(CloseFailed) else None;
    }
  }

  /**
   * NewRedisTransport: resolves the address and, if there is one, builds an
   * open transport whose client talks to `store`; otherwise returns the
   * construction error and builds nothing.
   */
  method NewRedisTransport(u: Url, store: Store) returns (t: RedisTransport?, err: Option<Error>)
    ensures t == null <==> err.Some?
    ensures ResolveAddress(u).Failure? ==> err == Some(ResolveAddress(u).error)
    ensures ResolveAddress(u).Success? ==>
      t != null && fresh(t) && t.Valid() && t.addr == ResolveAddress(u).value &&
      t.store == store && t.Abs() == Initial(store.list) && t.lastEventID == LastEventID
  {
    var path := ResolveAddress(u);
    if path.Failure? {
      return null, Some(path.error);
    }
    t := new RedisTransport(path.value, store);
    err := None;
  }
}
