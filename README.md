# Mercure Redis transport — a Dafny model

This project models the Redis transport of the Mercure hub (`redis_transport.go`):

- the **registry** of live subscribers, keyed by subscriber handle;
- **Dispatch**, which hands an update to every registered subscriber and unregisters those that report they are no longer connected;
- **AddSubscriber**, which registers a subscriber and persists a JSON record of it at the front of the Redis list `subscribers` (`persist`);
- **GetSubscribers**, which reads back at most 101 records (`LRANGE subscribers 0 100`) and decodes them, together with the fixed last event id `"42"`;
- **Close**, a one-shot teardown that marks the transport closed, disconnects and unregisters every subscriber, and closes the Redis client;
- **NewRedisTransport**, which takes the Redis address from the URL path, or else from its host, and refuses a URL with neither.

Files:

- `wrappers.dfy`: `Option` and `Result`, standing for Go's nil pointers and `(value, error)` pairs.
- `redis_list.dfy`: the Redis list as a `Store` object shared by transports, `LPUSH` as a method on it, and `LRANGE` with Redis's inclusive and negative-index bounds.
- `mercure.dfy`: the transport. There is a class `RedisTransport` with a `closed` flag, a `set` of handles and a reference to the store. Its methods are proved against step functions (`DispatchStep`, `AddStep`, `CloseStep`) on an abstract `State`.
- `lifecycle.dfy`: sequences of calls on one transport (`Run`, `Errors`) and the properties that hold across calls.

The collaborators the transport calls are parameters:

- `stillConnected(s)` is what `s.Dispatch(update, false)` answers. The deliveries are observed through the sequence of handles `Dispatch` returns.
- `encode` stands for `json.Marshal`; `None` is a marshal failure.
- `decode` stands for `json.Unmarshal` into a `*Subscriber`; its result is whatever pointer that leaves behind. A syntax error or the record `null` leaves nil (`None`). A type mismatch leaves a partly filled, non-nil subscriber alongside the error. `decode` is unconstrained, so every one of these cases is covered.
- A `WriteOutcome` is how one LPUSH command ends, the command reaching the server at most once: acknowledged, not applied, or applied but reported as failed (a reply lost after the server ran the command).
- `storeUp` is whether the LRANGE round trip succeeds.
- `closeFails` is the outcome of closing the client.
- `Disconnect` is observed through the sequence of handles `Close` returns.

What the code does, where its own doc comments or names suggest more:

- `GetSubscribers` is documented (redis_transport.go:124) as getting "the list of active subscribers". It returns the most recent persisted records instead, which include subscribers that have since been pruned or disconnected.
- `GetSubscribers` never checks whether the transport is closed, unlike `Dispatch` and `AddSubscriber`. After `Close`, the closed client makes the range read fail, so it returns an empty list and no error.
- `AddSubscriber` discards the error that `persist` returns. On an open transport it returns no error even when marshalling or the write fails.
- Decode failures and a failed range read are not reported: the error of `json.Unmarshal` is formatted and dropped, and `GetSubscribers` always returns a nil error.
- Persisted records are never removed, neither when `Dispatch` prunes a subscriber nor on `Close` (`Lifecycle.RecordsOnlyGrow`).
- The last event id is the constant `"42"`; nothing updates it.

## Model

| member | source | states |
|---|---|---|
| Mercure.ResolveAddress | redis_transport.go:34-40 | the address is the URL path when it is non-empty, else the host; it fails with a "missing path" transport error exactly when both are empty, and a successful result is never empty |
| Mercure.NewRedisTransport | redis_transport.go:29-55 | with no resolvable address it returns the error and no transport; otherwise a fresh, open transport with an empty registry, last event id "42", whose client targets the resolved address |
| Mercure.RedisTransport.constructor | redis_transport.go:48-54 | a new transport is open, has no subscribers, last event id "42", and sees the store's existing list |
| Mercure.RedisTransport.Dispatch | redis_transport.go:57-80 | closed: ClosedTransport, the update is handed to no one and nothing changes; open: the update is handed to every registered subscriber exactly once, None is returned, and the registry becomes exactly the old registry minus the subscribers whose delivery reported disconnection; the store is untouched |
| Mercure.RedisTransport.Persist | redis_transport.go:82-102 | a marshal failure returns MarshalFailed and writes nothing; an unacknowledged write returns StoreWriteFailed, and the record is in front of the list exactly when the server applied it; an acknowledged write returns None with the record pushed on the front and the older records kept behind it |
| Mercure.RedisTransport.AddSubscriber | redis_transport.go:105-122 | closed: ClosedTransport, registry and store unchanged; open: the handle is added to the registry set, the record persisted as Persist does, and None is returned even if persisting failed |
| Mercure.RedisTransport.GetSubscribers | redis_transport.go:125-155 | returns "42" and no error; the list holds one decoded entry per record of the first min(101, length) records of the store list, in order, or nothing when the read fails (store unreachable or client closed) |
| Mercure.RedisTransport.Close | redis_transport.go:158-180 | the first call closes the transport, disconnects every registered subscriber exactly once, empties the registry, and returns CloseFailed only if closing the client fails; a later call changes nothing and returns None |
| RedisList.Store.LPush | redis_transport.go:94 | an acknowledged LPUSH reports success with the value in front of the old list; a reported failure leaves either the old list or the value in front of it |
| RedisList.LRangeAfterPush | redis_transport.go:94 | after an LPUSH, a range from the head that is one element longer sees the new element followed by exactly what the shorter range saw before |
| Mercure.WindowIsPrefix | redis_transport.go:135 | LRANGE 0 100 is inclusive: it reads the first min(101, length) records of the list, in order |
| Lifecycle.ClosedIsTerminal | redis_transport.go:58-122 | from a closed transport, no sequence of calls changes registry, store or state; every Dispatch and AddSubscriber answers ClosedTransport, every Close answers None |
| Lifecycle.AfterClose | redis_transport.go:158-173 | after the first Close the transport is closed with an empty registry and stays so whatever calls follow, each Dispatch and AddSubscriber being refused |
| Lifecycle.CloseOnce | redis_transport.go:162-179 | teardown runs once: a second Close leaves the state as the first left it and returns None |
| Lifecycle.RunKeepsInv | redis_transport.go:162-170 | no sequence of calls leads to a closed transport that still has subscribers |
| Lifecycle.RecordsOnlyGrow | redis_transport.go:82-122 | the persisted list only grows at its front: after any calls, the earlier records are still its tail, in order |
| Lifecycle.DispatchKeepsConnected | redis_transport.go:73-79 | on an open transport a subscriber stays registered iff it was registered and reported connected; with N registered and M reporting disconnection, N - M remain; state and store are unchanged |
| Lifecycle.AddRegisters | redis_transport.go:118-121 | on an open transport the handle joins the registry, no other registration changes, re-adding a registered handle changes nothing, and the answer is None |
| Lifecycle.TwoAddsBothRegistered | redis_transport.go:105-122 | two registrations in a row on an open transport both succeed and both handles are registered |
| Lifecycle.PersistedFirstInWindow | redis_transport.go:94-135 | after a successful registration the window GetSubscribers reads starts with the new record, followed by the first 100 records of before |
| Lifecycle.MarshalFailureWritesNothing | redis_transport.go:86-91 | a subscriber that cannot be encoded gives MarshalFailed and leaves the persisted list unchanged |
| Lifecycle.WriteFailureMayHaveWritten | redis_transport.go:94-98 | a write reported as failed gives StoreWriteFailed and leaves the list either unchanged or with the record in front |
| Lifecycle.InitialIsOpen | redis_transport.go:48-54 | a new transport is open with an empty registry, and no sequence of calls on it reaches a closed transport that still has subscribers |

## Left out

- RedisList.Store.LPush: the client's automatic retries are not modelled. `redis.NewClient` with default options re-sends a command after a lost reply, so one client call can push the record two or more times, whether it ends acknowledged or reported as failed. Each `WriteOutcome` assumes the command reached the server at most once. `Mercure.RedisTransport.Persist` and `Lifecycle.PersistedFirstInWindow` inherit this assumption.
- Locking (`sync.RWMutex`), the `closedOnce` latch and the `closed` channel as concurrency primitives. Calls are modelled one at a time, so the latch is the `closed` flag. Dispatch's closed check, made outside the lock, is then the same as one made inside it.
- The Redis client's network I/O and `context.Background`. How each store call ends is a parameter. The client is closed exactly when the transport is.
- JSON encoding of `Subscriber`, which is defined in code that is not part of this model. `encode` and `decode` are parameters, and no round trip is proved for them.
- The identity of decoded subscribers. `json.Unmarshal` allocates new `Subscriber` objects. Here a decoded entry is a `Handle`.
- `AssignUUID`, the update passed to subscribers, `Subscriber.Dispatch` and `Subscriber.Disconnect`. They are defined elsewhere and only reach the model through the `stillConnected` oracle and the sequences `Dispatch` and `Close` return.
- `ErrTransport`'s wrapped cause and the text of `u.Redacted()`. The URL carries its redacted form as a string.
- `RegisterTransportFactory` and the `init` registration under the scheme "redis": process-wide plumbing with no state of this transport.
- Logger calls and the `fmt.Println`/`fmt.Errorf` debug output, which change nothing.
- The password, DB number and connection options of `redis.NewClient`. They are constants that only the network client reads.
- `caddy/blackfire.go`: Caddy module registration and a `/_blackfire` path-prefix check that forwards to an external profiler library. It has no state of its own.
