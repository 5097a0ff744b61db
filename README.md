# Client-side invocation contract of the Terracotta entity API, in Dafny

This project models three small pieces of the entity API's client side and proves what they
promise:

- **The future adapters of `InvocationBuilder`** (`invocation_builder.dfy`, module `Invocation`).
  The default methods `invoke()` and `invokeAndRetire()` create a `CompletableFuture`, build an
  anonymous `InvocationCallback`, and pass it to the builder's two-argument `invoke` with a fixed
  subscription. `invoke()` subscribes to {RESULT, FAILURE, COMPLETE} and `invokeAndRetire()` to
  {RESULT, FAILURE, RETIRED}. The callback buffers the last `result`. It completes the future
  with that buffer (or `null`) on its terminal event, `complete()` or `retired()`. It completes
  the future exceptionally on `failure(t)`.
  - The future is a single-assignment cell (`CompletableFuture`, `FutureState`): the first
    settlement wins.
  - The callback is a class (`FutureAdapter`) with the field `response` and one method per
    callback.
  - The pure fold `Run` over any event sequence is what the lemmas describe. `DeliverEvents`
    plays the transport: it calls the callback once per subscribed event and is proved to end in
    the state `Run` gives.
- **`PassthroughInvocationBuilder`** (`passthrough_invocation_builder.dfy`, module `Passthrough`).
  It has four final identity fields and four mutable configuration fields. The setters
  `ackReceived`, `ackCompleted`, `replicate` and `payload` each assign one field and return the
  builder. `invoke` forwards all fields, in order, to the connection's
  `invokeActionAndWaitForAcks`. The connection is a recorder of those argument tuples. The pure
  `Apply`/`ApplyAll` describe any chain of setter calls.
- **`PlatformClientFetchedEntity`** (`platform_client_fetched_entity.dfy`, module `Monitoring`).
  A value of two identifier strings and an optional `ClientDescriptor`, with `equals`,
  `hashCode` and `toString` as functions. The three-argument constructor is the datatype
  constructor, which stores its arguments verbatim. The argument of `equals(Object)` is a
  datatype: `null`, an object of another class, the same reference, or a distinct record.

Points where the code's behaviour is worth stating precisely:

- A fresh `PassthroughInvocationBuilder` has `shouldReplicate` false, although the doc comment of
  `InvocationBuilder.replicate` (InvocationBuilder.java:49) says replication is the default.
  `DefaultConfiguration` and the constructor state the code's default. The passthrough builder
  implements a different, byte-payload version of `InvocationBuilder`. Each file is modelled
  against its own method set.
- Nothing guards against a second `PassthroughInvocationBuilder.invoke`: each call forwards the
  tuple again (`Invoke`, `InvokeTwiceWithDefaults`).
- `equals` throws when the receiver's descriptor is absent and the other's is present, which
  breaks the symmetry `Object.equals` requires (see Findings).

## Model

| member | source | states |
|---|---|---|
| `Invocation.Settle` | entity-client-api/src/main/java/org/terracotta/entity/InvocationBuilder.java:85-92 | settling a pending future sets it to the attempt; settling a settled future leaves it unchanged (first settlement wins) |
| `Invocation.Subscription` | entity-client-api/src/main/java/org/terracotta/entity/InvocationBuilder.java:73-119 | both subscriptions hold RESULT and FAILURE but neither SENT nor RECEIVED; COMPLETE is subscribed exactly by `invoke()`, RETIRED exactly by `invokeAndRetire()`; three kinds each |
| `Invocation.Step` | entity-client-api/src/main/java/org/terracotta/entity/InvocationBuilder.java:79-116 | `result(r)` sets the buffer to `r` and leaves the future; no other event touches the buffer; `failure(t)` settles with `t`; the flavor's terminal event settles with the buffer; other events leave the future |
| `Invocation.Run` | entity-client-api/src/main/java/org/terracotta/entity/InvocationBuilder.java:75-93 | the callback receives the events one by one, in order; a sequence without `result` events leaves the buffer as it was |
| `Invocation.Filter` | entity-client-api/src/main/java/org/terracotta/entity/InvocationBuilder.java:64-71 | only events whose kind is in the subscription are delivered, each one taken from the input; every event of a subscribed kind is delivered; a sequence of subscribed kinds passes unchanged |
| `Invocation.FilterAppend` | entity-client-api/src/main/java/org/terracotta/entity/InvocationBuilder.java:64-71 | filtering distributes over concatenation, so the delivered events keep the order of the input |
| `Invocation.RunResponse` | entity-client-api/src/main/java/org/terracotta/entity/InvocationBuilder.java:80-82 | after any event sequence the buffer holds the value of the last `result` (itself possibly `null`), or `null` if none arrived |
| `Invocation.SettledStays` | entity-client-api/src/main/java/org/terracotta/entity/InvocationBuilder.java:85-92 | once the future is settled, no later events change it |
| `Invocation.StaysPending` | entity-client-api/src/main/java/org/terracotta/entity/InvocationBuilder.java:79-92 | without a failure or the flavor's terminal event, the future stays pending |
| `Invocation.Outcome` | entity-client-api/src/main/java/org/terracotta/entity/InvocationBuilder.java:75-93 | the first settling event decides the future: exactly the throwable for a failure, otherwise the last result before that event (or `null`) |
| `Invocation.SettledIff` | entity-client-api/src/main/java/org/terracotta/entity/InvocationBuilder.java:84-92 | the future is settled if and only if a failure or the flavor's terminal event was delivered |
| `Invocation.CompleteResolvesWithBuffer` | entity-client-api/src/main/java/org/terracotta/entity/InvocationBuilder.java:77-87 | on the `invoke()` path, results then `complete()` resolve the future with the last result, which is `null` when there were none or the last one was `null` |
| `Invocation.RetiredResolvesWithBuffer` | entity-client-api/src/main/java/org/terracotta/entity/InvocationBuilder.java:101-111 | on the `invokeAndRetire()` path `retired()` resolves with the last result; `complete()` reaching that adapter leaves the future pending |
| `Invocation.FailureRejects` | entity-client-api/src/main/java/org/terracotta/entity/InvocationBuilder.java:89-92 | `failure(t)` arriving before any settling event rejects the future with exactly `t`, whatever results were buffered |
| `Invocation.FilterTransparent` | entity-client-api/src/main/java/org/terracotta/entity/InvocationBuilder.java:75-93 | delivering only the subscribed events gives the adapter the same state as delivering all of them |
| `Invocation.CompletableFuture.constructor` | entity-client-api/src/main/java/org/terracotta/entity/InvocationBuilder.java:74 | a new future is pending |
| `Invocation.CompletableFuture.Complete` | entity-client-api/src/main/java/org/terracotta/entity/InvocationBuilder.java:86 | `complete(v)` settles only a pending future and reports whether it did |
| `Invocation.CompletableFuture.CompleteExceptionally` | entity-client-api/src/main/java/org/terracotta/entity/InvocationBuilder.java:91 | `completeExceptionally(t)` settles only a pending future and reports whether it did |
| `Invocation.FutureAdapter.constructor` | entity-client-api/src/main/java/org/terracotta/entity/InvocationBuilder.java:75-77 | a new callback holds its future and an empty (`null`) buffer |
| `Invocation.FutureAdapter.Result` | entity-client-api/src/main/java/org/terracotta/entity/InvocationBuilder.java:80-82 | `result(r)` overwrites the buffer with `r`, `null` included, and leaves the future unchanged |
| `Invocation.FutureAdapter.Complete` | entity-client-api/src/main/java/org/terracotta/entity/InvocationBuilder.java:85-87 | `complete()` completes the future with the buffer on the `invoke()` adapter and does nothing on the other |
| `Invocation.FutureAdapter.Retired` | entity-client-api/src/main/java/org/terracotta/entity/InvocationBuilder.java:109-111 | `retired()` completes the future with the buffer on the `invokeAndRetire()` adapter and does nothing on the other |
| `Invocation.FutureAdapter.Failure` | entity-client-api/src/main/java/org/terracotta/entity/InvocationBuilder.java:90-92 | `failure(t)` completes the future exceptionally with `t` unless it is already settled |
| `Invocation.InvocationBuilder.InvokeWith` | entity-client-api/src/main/java/org/terracotta/entity/InvocationBuilder.java:71 | the two-argument `invoke` records one dispatch of the callback with its subscription |
| `Invocation.InvocationBuilder.Invoke` | entity-client-api/src/main/java/org/terracotta/entity/InvocationBuilder.java:73-95 | exactly one dispatch, with subscription {RESULT, FAILURE, COMPLETE}, of a fresh callback bound to the returned pending future |
| `Invocation.InvocationBuilder.InvokeAndRetire` | entity-client-api/src/main/java/org/terracotta/entity/InvocationBuilder.java:97-119 | exactly one dispatch, with subscription {RESULT, FAILURE, RETIRED} (COMPLETE not included), of a fresh callback bound to the returned pending future |
| `Invocation.DeliverEvent` | entity-client-api/src/main/java/org/terracotta/entity/InvocationBuilder.java:64-71 | one event calls the matching callback method when its kind is subscribed and changes nothing otherwise |
| `Invocation.DeliverEvents` | entity-client-api/src/main/java/org/terracotta/entity/InvocationBuilder.java:64-71 | calling the callback's methods for the subscribed events, in order, leaves it in the state `Run` gives for the filtered sequence |
| `Passthrough.DefaultConfiguration` | entity-test-lib/src/main/java/org/terracotta/passthrough/PassthroughInvocationBuilder.java:19-22 | the configuration fields default to false, false, false and `null`, so replication is off by default |
| `Passthrough.Apply` | entity-test-lib/src/main/java/org/terracotta/passthrough/PassthroughInvocationBuilder.java:31-53 | each setter changes exactly its own field: the ack setters set their flag, `replicate` and `payload` assign their argument |
| `Passthrough.ApplyAll` | entity-test-lib/src/main/java/org/terracotta/passthrough/PassthroughInvocationBuilder.java:31-53 | a chain of setters never clears an ack flag, and leaves `shouldReplicate` or `payload` alone when it has no call that sets them |
| `Passthrough.ApplyIdempotent` | entity-test-lib/src/main/java/org/terracotta/passthrough/PassthroughInvocationBuilder.java:32-53 | calling any setter twice in a row has the effect of calling it once |
| `Passthrough.ApplyAllFields` | entity-test-lib/src/main/java/org/terracotta/passthrough/PassthroughInvocationBuilder.java:31-53 | after any chain of setters, each ack flag is set if and only if it was set before or its setter occurs in the chain; `shouldReplicate` and `payload` hold the last value given, or their earlier value |
| `Passthrough.PassthroughConnection.InvokeActionAndWaitForAcks` | entity-test-lib/src/main/java/org/terracotta/passthrough/PassthroughInvocationBuilder.java:57 | the connection records exactly the argument tuple it receives and answers with the call's position |
| `Passthrough.PassthroughInvocationBuilder.constructor` | entity-test-lib/src/main/java/org/terracotta/passthrough/PassthroughInvocationBuilder.java:24-29 | connection, entity class, entity name and client instance ID are stored verbatim (and never change: they are `const`); the configuration is the default |
| `Passthrough.PassthroughInvocationBuilder.AckReceived` | entity-test-lib/src/main/java/org/terracotta/passthrough/PassthroughInvocationBuilder.java:32-35 | sets `shouldWaitForReceived`, changes no other field, returns the same builder |
| `Passthrough.PassthroughInvocationBuilder.AckCompleted` | entity-test-lib/src/main/java/org/terracotta/passthrough/PassthroughInvocationBuilder.java:38-41 | sets `shouldWaitForCompleted`, changes no other field, returns the same builder |
| `Passthrough.PassthroughInvocationBuilder.Replicate` | entity-test-lib/src/main/java/org/terracotta/passthrough/PassthroughInvocationBuilder.java:44-47 | sets `shouldReplicate` to the argument, changes no other field, returns the same builder |
| `Passthrough.PassthroughInvocationBuilder.Payload` | entity-test-lib/src/main/java/org/terracotta/passthrough/PassthroughInvocationBuilder.java:50-53 | sets `payload` to the argument, changes no other field, returns the same builder |
| `Passthrough.PassthroughInvocationBuilder.Invoke` | entity-test-lib/src/main/java/org/terracotta/passthrough/PassthroughInvocationBuilder.java:56-58 | forwards exactly the current fields, in parameter order, to the connection once and leaves the builder unchanged |
| `Passthrough.InvokeTwiceWithDefaults` | entity-test-lib/src/main/java/org/terracotta/passthrough/PassthroughInvocationBuilder.java:19-58 | a builder given only a payload and invoked twice sends two identical requests, with both ack flags and `shouldReplicate` false |
| `Monitoring.EqualsDefined` | monitoring-support/src/main/java/org/terracotta/monitoring/PlatformClientFetchedEntity.java:74-76 | `equals` cannot throw against `null`, another class or the same reference, with a present receiver descriptor, with an absent other descriptor, or with a differing client identifier |
| `Monitoring.Equals` | monitoring-support/src/main/java/org/terracotta/monitoring/PlatformClientFetchedEntity.java:69-79 | the same reference is equal; `null` and other classes are not; a distinct record is equal if and only if both identifiers and the descriptors (both absent or equal) match; not callable where it throws |
| `Monitoring.EqualsSymmetric` | monitoring-support/src/main/java/org/terracotta/monitoring/PlatformClientFetchedEntity.java:74-76 | where both directions are defined, `a.equals(b)` and `b.equals(a)` agree |
| `Monitoring.HashCode` | monitoring-support/src/main/java/org/terracotta/monitoring/PlatformClientFetchedEntity.java:62-66 | the XOR of the three component hashes; the promise is the precondition (a `NullPointerException` at line 65 when the descriptor is absent) together with `EqualRecordsHashEqual` |
| `Monitoring.EqualRecordsHashEqual` | monitoring-support/src/main/java/org/terracotta/monitoring/PlatformClientFetchedEntity.java:62-79 | an object equal to a record is the same reference or a distinct record, and then, with descriptors present, it has the same hash code |
| `Monitoring.ToString` | monitoring-support/src/main/java/org/terracotta/monitoring/PlatformClientFetchedEntity.java:52-59 | the rendering is 88 fixed characters plus the descriptor text and both identifiers, opens with `PlatformClientFetchedEntity{` and closes with `'}` |
| `Monitoring.ToStringShape` | monitoring-support/src/main/java/org/terracotta/monitoring/PlatformClientFetchedEntity.java:52-59 | the rendering is `PlatformClientFetchedEntity{clientDescriptor=<d>, clientIdentifier='<c>', entityIdentifier='<e>'}`, with `null` for an absent descriptor |
| `Monitoring.ToStringRoundTrip` | monitoring-support/src/main/java/org/terracotta/monitoring/PlatformClientFetchedEntity.java:52-59 | when neither identifier contains a single quote, the descriptor text and both identifiers are read back from the rendering, in field order |
| `Monitoring.EqualsAsymmetricWithoutDescriptor` | monitoring-support/src/main/java/org/terracotta/monitoring/PlatformClientFetchedEntity.java:76 | for any identifiers and descriptor, a record without descriptor compared to one with that descriptor and the same identifiers throws; the reverse comparison is defined and false |
| `Monitoring.NullSafeEquals` | monitoring-support/src/main/java/org/terracotta/monitoring/PlatformClientFetchedEntity.java:69-79 | null-safe equality: defined on every argument and equal to `equals` wherever `equals` does not throw |
| `Monitoring.NullSafeEqualsIsEquivalence` | monitoring-support/src/main/java/org/terracotta/monitoring/PlatformClientFetchedEntity.java:69-79 | the null-safe equality is symmetric and transitive on distinct records |

## Left out

- `PassthroughMaintenanceRef` (`doesExist`, `create`, `destroy`): it only wraps
  `sendInternalMessageAfterAcks`, `Future.get()` and `Assert.fail`, which are not part of this
  model. What `doesExist` returns on failure depends on `Assert.fail`.
- The transport behind the two-argument `invoke` and `invokeActionAndWaitForAcks`: ack waits,
  asynchronous delivery, replication and ordering across threads. The event sequence is an input
  (`DeliverEvents`, `Run`). The connection only records calls and returns the call's position in
  place of the `Future<byte[]>`.
- Concurrency: `volatile` on `response` and blocking in `Future.get()`. The future is a plain
  single-assignment cell. `cancel`, `obtrudeValue` and the other `CompletableFuture` operations
  are not modelled.
- `InvocationCallback` is not part of this model. The callbacks the adapters do not override
  (`sent`, `received`, and `retired` or `complete`) are taken to do nothing.
- The abstract `message(M)` and `replicate(boolean)` of the typed `InvocationBuilder` are only
  declared there, so there is nothing to model. The message codec is not modelled.
- Java serialization of `PlatformClientFetchedEntity` (`transient`, `serialVersionUID`) and its
  no-argument constructor. Identifiers are non-null strings; a `null` identifier would make
  `equals`, `hashCode` and `toString` throw or print "null".
- `String.hashCode`, `ClientDescriptor.hashCode` and `ClientDescriptor.toString` are parameters
  of `HashCode` and `ToString`. `ClientDescriptor.equals` is taken to be value equality.
- The entity class (`Class<?>`) is identified by its name.
- `Invocation.Step` and `Invocation.FutureAdapter.Failure`: the throwable given to `failure` is
  taken to be non-null. `completeExceptionally(null)` throws a `NullPointerException` and leaves
  the future pending, which the model does not capture.
- `Invocation.InvocationBuilder.Invoke` and `Invocation.InvocationBuilder.InvokeAndRetire`: the
  returned future is pending because the two-argument `invoke` is a recorder that delivers no
  event before it returns and throws nothing. A transport that delivers events synchronously
  would return a future already settled; one that throws would return no future.
- `Passthrough.PassthroughInvocationBuilder.Payload`: the payload is an immutable value. The
  source stores the caller's array by reference, so later writes by the caller to that array
  change what `invoke` forwards; this aliasing is not captured, and the two requests of
  `InvokeTwiceWithDefaults` are identical in contents where Java guarantees the same reference.

## Findings

| source | as written | input that shows it | evidently intended | confidence | as-written member | corrected member |
|---|---|---|---|---|---|---|
| monitoring-support/src/main/java/org/terracotta/monitoring/PlatformClientFetchedEntity.java:76 | with both identifiers equal, `this.clientDescriptor.equals(...)` is called when this descriptor is `null` but the other's is not | `a = (client, entity, null)`, `b = (client, entity, d)`: `a.equals(b)` throws `NullPointerException`, `b.equals(a)` returns false | a null-safe descriptor comparison, so `equals` is total and symmetric as `Object.equals` requires | medium, not executed | `Monitoring.EqualsAsymmetricWithoutDescriptor` | `Monitoring.NullSafeEquals` |
