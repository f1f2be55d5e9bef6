# hashsplit4j high-availability blob store, modelled in Dafny

This project models the high-availability layer of hashsplit4j's content-addressed blob
store, together with two small pieces beside it:

- `HABlobStore` puts two `BlobStore` backends behind one interface. A write goes to the
  current primary and a replication task toward the other backend is queued. If the primary
  throws, the write goes to the secondary and the roles are exchanged. A whole attempt is
  retried up to `retries` times. A read tells a miss (`null`) apart from an exception: a miss
  may fall through to the secondary with no swap, while an exception falls back to the
  secondary and swaps the roles. When `validate` is on, the bytes returned are checked
  against the requested digest.
- `NullBlobStore` is a backend that keeps nothing.
- `HashGroup` is a persisted index record with a fixed `name`, a mutable `contentHash` and a
  mutable `status`.

Files:

- `blobs.dfy` (module `Blobs`): digests, bytes, `Option`/`Result`, and how a backend call can
  end. A call either returns normally or throws with a code (`Outcome`). A backend either
  raises an exception or is a `null` slot (`Fault`).
- `null_blob_store.dfy` (module `NullStore`): `NullBlobStore` as a value with constant
  operations.
- `backend.dfy` (module `Backends`): the `BlobStore` collaborator as a class holding a map from
  digest to bytes. Each call takes an `Outcome` parameter, so every branch of the HA logic can
  be reached deterministically. A backend built as a null store behaves as `NullBlobStore`:
  its reads answer through `NullBlobStore`'s `getBlob`, its writes keep nothing, and it never
  throws.
- `failover.dfy` (module `Failover`): the HA store's decisions as pure functions. These are:
  one write attempt (`WriteAttempt`), the retry loop (`Retry`), the read path (`Fetch`,
  `PlanRead`) and the role pair (`Roles`, `Switched`, `Bound`). The lemmas about them are here.
- `ha_blob_store.dfy` (module `HAStore`): the `HABlobStore` class. Its role slots, configuration
  and executor queue are fields, and its methods are proved against the `Failover` functions.
  The object invariant `Valid()` says the slots hold the two configured backends, possibly
  exchanged.
- `hash_group.dfy` (module `Groups`): the `HashGroup` class.

Environment parameters: each `setBlob` takes `env: nat -> Attempt`, the outcomes of the two
writes that attempt `i` may make. Each `getBlob` takes a `ReadFaults`, the outcomes of the up
to three backend reads it may make. `HashCalc.verifyHash` is the constant function
`verifyHash` of the store. The executor is the sequence `queue` of submitted tasks.
`RunTask` is one worker running one task of its choice.

Behaviour of the code as written, kept in the model: the secondary read after a primary miss
(`HABlobStore.java` line 98) sits inside the same `try` as the primary read. So an exception
from it is caught by the handler meant for a failing primary. That handler reads the
secondary again and, if this succeeds, swaps the roles. The primary is then demoted although
it did not fail (`Failover.MissThenSecondaryFaultDemotesPrimary`). Line 95 tests the field
`curSecondary` where the rest of the method uses the local copy `s`. In a sequential model the
two are equal. The constructor accepts `null` for either backend, and so does the model. A `null` slot makes
`setBlob` and `getBlob` on it throw a `NullPointerException`, which the surrounding handlers
treat like any other exception. This is modelled as `Fault.NullReference`. So `switchStores`
is never reached with a `null` secondary from either caller. With a `null` primary, the first
successful fallback calls `switchStores(null, s)`. That leaves the secondary slot `null`, so
no later swap changes anything (`Failover.SwitchedFromNullPrimary`).

## Model

| member | source | states |
|---|---|---|
| `HAStore.HABlobStore.constructor` | src/main/java/org/hashsplit4j/store/HABlobStore.java:31-39 | the slots start bound to `primary` and `secondary`; defaults are `trySecondaryWhenNotFound = true`, `validate = false`, `retries = 3`; no task is queued |
| `HAStore.HABlobStore.SetBlob` | src/main/java/org/hashsplit4j/store/HABlobStore.java:41-54 | the result, the number of `_setBlob` calls and the new state match the retry reference `Retry`: the effect of the first successful attempt, or an `ExhaustedRetries(retries, last cause)` error with nothing changed; afterwards a non-null primary holds the blob (read-your-write); the role pair stays bound |
| `HAStore.HABlobStore.WriteOnce` | src/main/java/org/hashsplit4j/store/HABlobStore.java:56-71 | a primary success queues exactly one task toward the current secondary and keeps the roles; a secondary success queues one task toward the old primary and exchanges the roles; when both writes throw, the secondary's exception is the cause and roles, queue and backends are unchanged |
| `HAStore.HABlobStore.Enqueue` | src/main/java/org/hashsplit4j/store/HABlobStore.java:73-77 | appends exactly the task `(hash, bytes, target)` to the executor queue |
| `HAStore.HABlobStore.HasBlob` | src/main/java/org/hashsplit4j/store/HABlobStore.java:79-83 | returns whether `getBlob` would return non-null, propagates its exceptions, and swaps the roles exactly as `getBlob` does |
| `HAStore.HABlobStore.Plan` | src/main/java/org/hashsplit4j/store/HABlobStore.java:85-124 | a read never swaps the roles without a secondary; with `validate` on, returned bytes pass the hash check; a null-store primary with the fall-through disabled returns `null` without a swap |
| `HAStore.HABlobStore.GetBlob` | src/main/java/org/hashsplit4j/store/HABlobStore.java:85-124 | returns what `PlanRead` gives for the reads of the current primary and secondary, and swaps the roles exactly when `PlanRead` says so; the role pair stays bound |
| `HAStore.HABlobStore.SwitchStores` | src/main/java/org/hashsplit4j/store/HABlobStore.java:134-145 | with no secondary the slots are unchanged; otherwise they are exchanged, and the role pair stays bound |
| `HAStore.HABlobStore.SetTrySecondaryWhenNotFound` | src/main/java/org/hashsplit4j/store/HABlobStore.java:130-132 | sets only that flag |
| `HAStore.HABlobStore.SetValidate` | src/main/java/org/hashsplit4j/store/HABlobStore.java:151-153 | sets only that flag |
| `HAStore.HABlobStore.SetRetries` | src/main/java/org/hashsplit4j/store/HABlobStore.java:159-161 | sets only the retry count |
| `HAStore.HABlobStore.RunTask` | src/main/java/org/hashsplit4j/store/HABlobStore.java:176-183 | removes the task from the queue and writes it to its target, whatever the target does: a throwing target is left unchanged and a `null` target is skipped; nothing is raised |
| `Failover.Switched` | src/main/java/org/hashsplit4j/store/HABlobStore.java:134-145 | with no secondary the roles are kept; otherwise the new primary is the old secondary and the new secondary is the old primary |
| `Failover.SwitchedTwice` | src/main/java/org/hashsplit4j/store/HABlobStore.java:134-145 | with a non-null primary, swapping twice restores the original binding |
| `Failover.SwitchedFromNullPrimary` | src/main/java/org/hashsplit4j/store/HABlobStore.java:134-145 | with a null primary and a secondary, one swap moves the secondary into the primary slot and leaves the secondary slot null; a second swap then changes nothing, so the original binding is not restored |
| `Failover.SwitchedKeepsBound` | src/main/java/org/hashsplit4j/store/HABlobStore.java:142-143 | a swap keeps the two configured backends in the slots |
| `Failover.BoundIsSamePair` | src/main/java/org/hashsplit4j/store/HABlobStore.java:28-36 | the slots are bound exactly when the multiset `{curPrimary, curSecondary}` equals `{primary, secondary}` and, when no secondary is configured, the secondary slot is still `null` |
| `Failover.WriteAttempt` | src/main/java/org/hashsplit4j/store/HABlobStore.java:56-71 | given the exception each write raised: the attempt writes the primary exactly when the primary's write returned, and the secondary exactly when the primary threw and the secondary's write returned; a failed attempt carries the secondary's exception |
| `Failover.AttemptAt` | src/main/java/org/hashsplit4j/store/HABlobStore.java:56-71 | a null-store primary never fails an attempt; with both slots null the attempt fails with a null reference; a secondary write implies a non-null secondary |
| `Failover.AttemptOutcomes` | src/main/java/org/hashsplit4j/store/HABlobStore.java:56-71 | an attempt writes the primary exactly when the primary's write returns; it writes the secondary exactly when the primary threw and a non-null secondary's write returned; a failed attempt reports the secondary's exception, or a null reference when there is no secondary |
| `Failover.Retry` | src/main/java/org/hashsplit4j/store/HABlobStore.java:44-53 | the loop either stops at a successful attempt numbered below `retries`, or is exhausted reporting `retries` |
| `Failover.SetBlobPlan` | src/main/java/org/hashsplit4j/store/HABlobStore.java:42-53 | the loop from its first attempt stops at a successful attempt below `retries`, whose ending it keeps, or is exhausted reporting `retries`; with `retries <= 0` it is exhausted at once with no cause |
| `Failover.Calls` | src/main/java/org/hashsplit4j/store/HABlobStore.java:44-47 | a loop that succeeded at attempt `k` made `k + 1` calls; no call is made only when the loop is exhausted with `retries <= 0` |
| `Failover.SetBlobResult` | src/main/java/org/hashsplit4j/store/HABlobStore.java:47-53 | `setBlob` returns normally exactly when an attempt succeeded; otherwise it raises an exhausted-retries error with the attempt count and the last cause |
| `Failover.RetryPrefixFailed` | src/main/java/org/hashsplit4j/store/HABlobStore.java:44-52 | every attempt before the one that ends the loop failed |
| `Failover.RetryStopsAtFirstSuccess` | src/main/java/org/hashsplit4j/store/HABlobStore.java:44-47 | when attempt `k < retries` is the first success, the loop returns after it, having made exactly `k + 1` calls |
| `Failover.RetryExhaustsOnlyWhenAllFail` | src/main/java/org/hashsplit4j/store/HABlobStore.java:44-53 | the loop fails exactly when every attempt below `retries` fails; the error then reports `retries` and the last attempt's cause, or no cause when `retries <= 0` |
| `Failover.RetryLastCause` | src/main/java/org/hashsplit4j/store/HABlobStore.java:48-53 | an exhausted loop reports the cause of its final attempt |
| `Failover.RetryCallsBounded` | src/main/java/org/hashsplit4j/store/HABlobStore.java:44 | at most `retries` calls are made; with `retries <= 0` none are made and the loop fails at once with no cause |
| `Failover.Fallback` | src/main/java/org/hashsplit4j/store/HABlobStore.java:101-112 | the handler yields the secondary's answer, marked as coming from the secondary and with the roles swapped, exactly when the secondary's read returns; otherwise it fails with that read's exception |
| `Failover.Fetch` | src/main/java/org/hashsplit4j/store/HABlobStore.java:87-112 | bytes found on the primary are taken unswapped; an answer from the primary is its own read; an answer from the secondary without a swap comes only from the fall-through after a miss with the flag set and a secondary present; a swapped answer or a failure comes from the handler's read |
| `Failover.PlanRead` | src/main/java/org/hashsplit4j/store/HABlobStore.java:85-124 | the roles are swapped exactly when the lookup swapped them; a normal result is the lookup's data; a lookup that answered ends in an error only when `validate` is on, bytes were found and they fail the hash check, and the error names the digest, the size and the slot |
| `Failover.PrimaryHit` | src/main/java/org/hashsplit4j/store/HABlobStore.java:92-94 | bytes found on the primary are returned (if they pass validation) with no swap |
| `Failover.MissFallsThroughWithoutSwap` | src/main/java/org/hashsplit4j/store/HABlobStore.java:94-100 | a primary miss with `trySecondaryWhenNotFound` set and a secondary present returns the secondary's answer, possibly `null`, with no swap |
| `Failover.MissWithoutFallthrough` | src/main/java/org/hashsplit4j/store/HABlobStore.java:94-95 | without the flag or without a secondary, a primary miss returns `null` with no swap |
| `Failover.PrimaryFaultFailsOver` | src/main/java/org/hashsplit4j/store/HABlobStore.java:101-112 | a primary exception returns the secondary's answer and swaps the roles |
| `Failover.BothFaultsFail` | src/main/java/org/hashsplit4j/store/HABlobStore.java:104-110 | when the secondary also throws in the handler, the call raises a lookup error carrying that exception and nothing is swapped |
| `Failover.SwapOnlyAfterException` | src/main/java/org/hashsplit4j/store/HABlobStore.java:91-112 | the roles are swapped exactly when an exception reached the handler and the secondary then answered; a miss alone never swaps |
| `Failover.MissThenSecondaryFaultDemotesPrimary` | src/main/java/org/hashsplit4j/store/HABlobStore.java:94-111 | a primary miss followed by a secondary exception on the fall-through read leads to a swap once the secondary answers in the handler |
| `Failover.ValidationGuardsResult` | src/main/java/org/hashsplit4j/store/HABlobStore.java:114-121 | with `validate` on, returned bytes always pass the hash check; found bytes that fail it raise a hash-check error naming the digest, the size and the slot they came from |
| `Failover.NoValidationNoCheck` | src/main/java/org/hashsplit4j/store/HABlobStore.java:114 | with `validate` off, the result is the lookup's, whatever the hash check would say |
| `Failover.Exists` | src/main/java/org/hashsplit4j/store/HABlobStore.java:80-83 | existence is true exactly when the read returned non-null; a read's exception is passed through unchanged |
| `Backends.Backend.SetFault` | src/main/java/org/hashsplit4j/store/HABlobStore.java:60 | a backend write throws exactly when the environment says so, and a null store never throws |
| `Backends.Backend.SetBlob` | src/main/java/org/hashsplit4j/store/HABlobStore.java:65 | a write that returns stores the blob under its digest, while a null store keeps nothing; a write that throws changes nothing |
| `Backends.Backend.Stored` | src/main/java/org/hashsplit4j/store/HABlobStore.java:60 | after a write the digest maps to the bytes and every other digest is as before; a null store is unchanged |
| `Backends.Backend.constructor` | src/main/java/org/hashsplit4j/store/HABlobStore.java:31-33 | the environment's backend stub starts with no blobs and is, or is not, a null store as asked; the HA store's constructor accepts backends in any state |
| `Backends.Backend.Lookup` | src/main/java/org/hashsplit4j/store/HABlobStore.java:93-106 | a read throws exactly when the environment says so and the backend is not a null store, with that exception's code; otherwise it returns the stored bytes or `null`, and a null store returns `null` |
| `Backends.Backend.GetBlob` | src/main/java/org/hashsplit4j/store/HABlobStore.java:93 | a read throws exactly when the environment says so, and a null store never throws; otherwise it returns the stored bytes or `null` |
| `Backends.SetFaultOf` | src/main/java/org/hashsplit4j/store/HABlobStore.java:65 | a write through a `null` slot throws a null-reference exception |
| `Backends.ReadOf` | src/main/java/org/hashsplit4j/store/HABlobStore.java:106 | a read through a `null` slot throws a null-reference exception |
| `NullStore.NullBlobStore.SetBlob` | src/main/java/org/hashsplit4j/store/NullBlobStore.java:13-15 | setBlob leaves the state as it was |
| `NullStore.NullBlobStore.GetBlob` | src/main/java/org/hashsplit4j/store/NullBlobStore.java:18-20 | getBlob returns `null` for every digest |
| `NullStore.NullBlobStore.HasBlob` | src/main/java/org/hashsplit4j/store/NullBlobStore.java:23-25 | hasBlob returns false for every digest |
| `NullStore.SetBlobUnobservable` | src/main/java/org/hashsplit4j/store/NullBlobStore.java:13-20 | after setBlob of any digest, every read still returns `null` and every existence check still returns false |
| `NullStore.HasBlobIsGetBlobNonNull` | src/main/java/org/hashsplit4j/store/NullBlobStore.java:18-25 | hasBlob is true exactly when getBlob is non-null, the HA store's definition of existence |
| `Groups.HashGroup.constructor` | src/main/java/org/hashsplit4j/api/HashGroup.java:85-89 | stores `name`, `contentHash` and `status` exactly as given |
| `Groups.HashGroup.SetContentHash` | src/main/java/org/hashsplit4j/api/HashGroup.java:99-101 | sets the content hash and leaves `status` unchanged; `name` is a constant with no setter |
| `Groups.HashGroup.SetStatus` | src/main/java/org/hashsplit4j/api/HashGroup.java:107-109 | sets the status and leaves `contentHash` unchanged; repeating it with the value already held changes nothing |

The getters (`getName`, `getContentHash`, `getStatus`, `isTrySecondaryWhenNotFound`,
`isValidate`, `getRetries`) are reads of the corresponding fields. `HashGroup.name` is a `const`,
so "the primary key never changes" holds by construction. `INVALID` and `VALID` are the
documented status values, but the field holds any string or `null`, as in the code. `name`,
`contentHash` and `status` are Java strings, so each is an `Option<string>` where `None` is
`null`.

## Left out

- Executor threads: the fixed pool of five threads and background execution are concurrency.
  The model keeps the queue of submitted tasks, and `RunTask` runs any one task as a separate step.
- Mutual exclusion of `switchStores` (`synchronized`): each operation is one atomic sequential
  step. Interleavings of concurrent callers, including a swap between another call's snapshot
  and its use, are not modelled.
- Logging (slf4j): it has no effect on behaviour, except that the warning at
  `HABlobStore.java` line 63 reads `bytes.length` (see the next line).
- `bytes` and `hash` are never null in the model. In the source, `setBlob(hash, null)` with a
  primary that throws raises a `NullPointerException` at line 63, before line 65 tries the
  secondary. That attempt therefore fails with no failover and no swap, and the exhausted loop
  reports the `NullPointerException` as its last cause.
- A backend call raises only `Exception`s (`Outcome.Throw`). The handlers at lines 48, 62, 101
  and 108 catch only `Exception`. An `Error` from a backend would therefore escape `setBlob` or
  `getBlob` with no retry and no failover, and this is not modelled. Only the replication task
  (line 180) catches every `Throwable`, as `RunTask` does.
- `HashCalc.verifyHash` is a cryptographic hash computed elsewhere. It is the uninterpreted
  function `verifyHash`, and an `IOException` from it is modelled as the function returning false.
- The `BlobStore` interface and its real backends are not part of this model. A backend is a map
  from digest to bytes whose calls end as an `Outcome` parameter says.
- Error messages: errors carry a kind and their data (attempt count and last cause; the
  failing exception; digest, size and slot), not the message text with the backends' `toString`.
- The Sleepycat persistence annotations and the private no-argument constructor of `HashGroup`,
  which exist for deserialisation only.
- The hash-group prefix tree (invalidation, recompute, the `{name},{hash}` aggregation) is
  described only in `HashGroup`'s documentation comment. No code of it is part of this model.
- Blob bytes are a value (`seq<bv8>`), not a shared `byte[]`. `InsertBlobRunnable` keeps the
  caller's array by reference, so a caller that changes its buffer before the task runs
  changes what is replicated. The model does not capture that aliasing: a queued task always
  writes the bytes as they were when the task was submitted.
- Failover.SwitchedTwice: requires a non-null primary, because with a null primary the source
  does not restore the binding on a second swap (`Failover.SwitchedFromNullPrimary`).
- Java `int` width for `retries` and the loop counter: values are unbounded integers. The loop
  stops at `retries`, so the counter cannot overflow in the source either.
