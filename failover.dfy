/** The decisions the HA blob store makes, as functions of what its backends did: which
    backend a write lands on, how the retry loop ends, where a read comes from and whether
    the roles are exchanged. The class in module HAStore is proved against these. */
module Failover {
  import opened Blobs
  import opened Backends

  // ---------------------------------------------------------------- role slots

  /** The two role slots: the backend currently primary and the one currently secondary.
      Either may hold `null`, as the constructor accepts a null backend for either role. */
  datatype Roles = Roles(p: Backend?, s: Backend?)

  /** switchStores: exchange the roles, or keep them when there is no secondary. */
  function Switched(r: Roles): (r': Roles)
    ensures r.s == null ==> r' == r
    ensures r.s != null ==> r'.p == r.s && r'.s == r.p
  {
    if r.s == null then r else Roles(r.s, r.p)
  }

  /** The slots hold the configured backends `primary` and `secondary`, in either order. */
  predicate Bound(r: Roles, primary: Backend?, secondary: Backend?)
  {
    (r.p == primary && r.s == secondary) || (secondary != null && r.p == secondary && r.s == primary)
  }

  /** Swapping twice restores the original binding. */
  lemma SwitchedTwice(r: Roles)
    requires r.p != null
    ensures Switched(Switched(r)) == r
  {
  }

  /** With a null primary, one swap moves the secondary into the primary slot and leaves the
      secondary slot null, after which every further swap does nothing. */
  lemma SwitchedFromNullPrimary(r: Roles)
    requires r.p == null && r.s != null
    ensures Switched(r) == Roles(r.s, null)
    ensures Switched(Switched(r)) == Switched(r) != r
  {
  }

  /** A swap keeps the configured backends in the slots. */
  lemma SwitchedKeepsBound(r: Roles, primary: Backend?, secondary: Backend?)
    requires Bound(r, primary, secondary)
    ensures Bound(Switched(r), primary, secondary)
  {
  }

  /** The slots are bound exactly when the pair they hold is the configured pair, except
      that with no secondary configured the roles are never exchanged, so the secondary slot
      stays `null`. */
  lemma BoundIsSamePair(r: Roles, primary: Backend?, secondary: Backend?)
    ensures Bound(r, primary, secondary) <==>
            multiset{r.p, r.s} == multiset{primary, secondary} && (secondary == null ==> r.s == null)
  {
  }

  // ---------------------------------------------------------------- writes

  /** The environment's outcomes for the two backend writes one attempt may make. */
  datatype Attempt = Attempt(onPrimary: Outcome, onSecondary: Outcome)

  /** How one `_setBlob` attempt ends. */
  datatype WriteResult = WrotePrimary | WroteSecondary | WriteFailed(cause: Fault)

  /** One `_setBlob` attempt, given the exception (if any) each write raised: the primary is
      tried first, the secondary only when the primary threw, and the attempt fails with the
      secondary's exception when both threw. */
  function WriteAttempt(pf: Option<Fault>, sf: Option<Fault>): (w: WriteResult)
    ensures w.WrotePrimary? <==> pf.None?
    ensures w.WroteSecondary? <==> pf.Some? && sf.None?
    ensures w.WriteFailed? ==> sf == Some(w.cause)
  {
    if pf.None? then WrotePrimary
    else if sf.None? then WroteSecondary
    else WriteFailed(sf.value)
  }

  /** The end of attempt `i` against roles `r` when the environment behaves as `env`. */
  function AttemptAt(r: Roles, env: nat -> Attempt, i: nat): (w: WriteResult)
    ensures r.p != null && r.p.isNull ==> w == WrotePrimary
    ensures r.p == null && r.s == null ==> w == WriteFailed(NullReference)
    ensures w.WroteSecondary? ==> r.s != null
  {
    WriteAttempt(SetFaultOf(r.p, env(i).onPrimary), SetFaultOf(r.s, env(i).onSecondary))
  }

  /** The attempt succeeds exactly when one of the two writes returned normally; on failure
      the reported cause is the secondary's exception. */
  lemma AttemptOutcomes(r: Roles, env: nat -> Attempt, i: nat)
    ensures AttemptAt(r, env, i).WrotePrimary? <==> r.p != null && r.p.SetFault(env(i).onPrimary).None?
    ensures AttemptAt(r, env, i).WroteSecondary? <==>
            SetFaultOf(r.p, env(i).onPrimary).Some? && r.s != null && r.s.SetFault(env(i).onSecondary).None?
    ensures AttemptAt(r, env, i).WriteFailed? ==>
            AttemptAt(r, env, i).cause == (if r.s == null then NullReference else Raised(env(i).onSecondary.code))
  {
  }

  /** How the `setBlob` retry loop ends: after the attempt numbered `attempt` succeeded, or
      with every attempt spent. */
  datatype RetryResult =
    | Succeeded(attempt: nat, via: WriteResult)
    | Exhausted(attempts: int, last: Option<Fault>)

  /** The retry loop from attempt `i` on, with `last` the cause of the previous failure. A
      failed attempt changes neither roles nor queue, so every attempt sees roles `r`. */
  function Retry(r: Roles, env: nat -> Attempt, retries: int, i: nat, last: Option<Fault>): (res: RetryResult)
    decreases retries - i
    ensures res.Succeeded? ==> i <= res.attempt < retries && res.via == AttemptAt(r, env, res.attempt)
                                && !res.via.WriteFailed?
    ensures res.Exhausted? ==> res.attempts == retries
  {
    if i >= retries then Exhausted(retries, last)
    else match AttemptAt(r, env, i)
      case WriteFailed(c) => Retry(r, env, retries, i + 1, Some(c))
      case w => Succeeded(i, w)
  }

  /** The whole `setBlob` loop. */
  function SetBlobPlan(r: Roles, env: nat -> Attempt, retries: int): (res: RetryResult)
    ensures res.Succeeded? ==> res.attempt < retries && res.via == AttemptAt(r, env, res.attempt)
    ensures res.Exhausted? ==> res.attempts == retries
    ensures retries <= 0 ==> res == Exhausted(retries, None)
  {
    Retry(r, env, retries, 0, None)
  }

  /** The number of `_setBlob` calls the loop makes. */
  function Calls(res: RetryResult): (n: nat)
    ensures res.Succeeded? ==> n == res.attempt + 1
    ensures n == 0 <==> res.Exhausted? && res.attempts <= 0
  {
    match res
    case Succeeded(k, _) => k + 1
    case Exhausted(n, _) => if n < 0 then 0 else n
  }

  /** What `setBlob` returns. */
  function SetBlobResult(res: RetryResult): (r: Result<(), HAError>)
    ensures r.Ok? <==> res.Succeeded?
    ensures r.Err? ==> r.error == ExhaustedRetries(res.attempts, res.last)
  {
    match res
    case Succeeded(_, _) => Ok(())
    case Exhausted(n, last) => Err(ExhaustedRetries(n, last))
  }

  /** Every attempt before the one that ends the loop failed. */
  lemma {:induction false} RetryPrefixFailed(r: Roles, env: nat -> Attempt, retries: int, i: nat, last: Option<Fault>, j: nat)
    requires i <= j
    requires Retry(r, env, retries, i, last).Succeeded? ==> j < Retry(r, env, retries, i, last).attempt
    requires Retry(r, env, retries, i, last).Exhausted? ==> j < retries
    ensures AttemptAt(r, env, j).WriteFailed?
    decreases j - i
  {
    if i < j {
      assert i < retries;
      assert AttemptAt(r, env, i).WriteFailed?;
      RetryPrefixFailed(r, env, retries, i + 1, Some(AttemptAt(r, env, i).cause), j);
    }
  }

  /** The loop returns right after the first attempt that succeeds, and only then. */
  lemma {:induction false} RetryStopsAtFirstSuccess(r: Roles, env: nat -> Attempt, retries: int, k: nat)
    requires k < retries
    requires !AttemptAt(r, env, k).WriteFailed?
    requires forall j: nat :: j < k ==> AttemptAt(r, env, j).WriteFailed?
    ensures SetBlobPlan(r, env, retries) == Succeeded(k, AttemptAt(r, env, k))
    ensures Calls(SetBlobPlan(r, env, retries)) == k + 1
  {
    var res := SetBlobPlan(r, env, retries);
    if res.Exhausted? {
      RetryPrefixFailed(r, env, retries, 0, None, k);
    } else if res.attempt < k {
    } else if res.attempt > k {
      RetryPrefixFailed(r, env, retries, 0, None, k);
    }
  }

  /** When every attempt fails, the loop makes exactly `retries` attempts (none when
      `retries <= 0`) and reports `retries` and the cause of the last failure. */
  lemma {:induction false} RetryExhaustsOnlyWhenAllFail(r: Roles, env: nat -> Attempt, retries: int)
    ensures SetBlobPlan(r, env, retries).Exhausted? <==>
            forall j: nat :: j < retries ==> AttemptAt(r, env, j).WriteFailed?
    ensures SetBlobPlan(r, env, retries).Exhausted? ==>
            SetBlobPlan(r, env, retries) ==
              Exhausted(retries, if retries <= 0 then None else Some(AttemptAt(r, env, retries - 1).cause))
  {
    var res := SetBlobPlan(r, env, retries);
    if res.Exhausted? {
      forall j: nat | j < retries ensures AttemptAt(r, env, j).WriteFailed? {
        RetryPrefixFailed(r, env, retries, 0, None, j);
      }
      if retries > 0 {
        RetryLastCause(r, env, retries, 0, None);
      }
    }
  }

  /** An exhausted loop that made at least one attempt from `i` reports that last cause. */
  lemma {:induction false} RetryLastCause(r: Roles, env: nat -> Attempt, retries: int, i: nat, last: Option<Fault>)
    requires i < retries
    requires Retry(r, env, retries, i, last).Exhausted?
    ensures AttemptAt(r, env, retries - 1).WriteFailed?
    ensures Retry(r, env, retries, i, last).last == Some(AttemptAt(r, env, retries - 1).cause)
    decreases retries - i
  {
    var c := AttemptAt(r, env, i).cause;
    if i + 1 < retries {
      RetryLastCause(r, env, retries, i + 1, Some(c));
    }
  }

  /** The loop never makes more than `retries` attempts, and none when `retries <= 0`. */
  lemma RetryCallsBounded(r: Roles, env: nat -> Attempt, retries: int)
    ensures Calls(SetBlobPlan(r, env, retries)) <= (if retries < 0 then 0 else retries)
    ensures retries <= 0 ==> SetBlobPlan(r, env, retries) == Exhausted(retries, None)
  {
  }

  // ---------------------------------------------------------------- reads

  /** The environment's outcomes for the up to three backend reads `getBlob` may make: the
      primary, the secondary after a miss, and the secondary again after an exception. */
  datatype ReadFaults = ReadFaults(onPrimary: Outcome, onSecondary: Outcome, onSecondaryAgain: Outcome)

  /** The role, at the start of the call, of the backend the bytes came from. */
  datatype Slot = PrimarySlot | SecondarySlot

  /** The exceptions the HA store raises to its caller. */
  datatype HAError =
    | ExhaustedRetries(attempts: int, last: Option<Fault>)
    | SecondaryLookupFailed(cause: Fault)
    | HashCheckFailed(hash: Digest, size: nat, from: Slot)

  /** The end of the lookup part of `getBlob`, before validation. */
  datatype Fetched = Fetched(data: Option<Bytes>, from: Slot, swapped: bool) | LookupFailed(cause: Fault)

  /** The exception handler of `getBlob`: read the secondary; on success the roles are swapped. */
  function Fallback(again: Read): (f: Fetched)
    ensures f.Fetched? <==> again.Value?
    ensures f.Fetched? ==> f == Fetched(again.data, SecondarySlot, true)
    ensures f.LookupFailed? ==> f.cause == again.cause
  {
    match again
    case Value(d) => Fetched(d, SecondarySlot, true)
    case Threw(c) => LookupFailed(c)
  }

  /** The lookup part of `getBlob`. `primary` is the primary's read, `onMiss` the secondary's
      read after a miss, and `again` the secondary's read inside the exception handler. An
      exception from `onMiss` is raised inside the same try block as the primary's, so it
      too reaches the handler. */
  function Fetch(primary: Read, onMiss: Read, again: Read, trySecondary: bool, hasSecondary: bool): (f: Fetched)
    ensures primary.Value? && primary.data.Some? ==> f == Fetched(primary.data, PrimarySlot, false)
    ensures f.Fetched? && f.from == PrimarySlot ==> primary == Value(f.data) && !f.swapped
    ensures f.Fetched? && f.from == SecondarySlot && !f.swapped ==>
              primary == Value(None) && trySecondary && hasSecondary && onMiss == Value(f.data)
    ensures f.Fetched? && f.swapped ==> again == Value(f.data)
    ensures f.LookupFailed? ==> again == Threw(f.cause)
  {
    match primary
    case Threw(_) => Fallback(again)
    case Value(Some(d)) => Fetched(Some(d), PrimarySlot, false)
    case Value(None) =>
      if !(trySecondary && hasSecondary) then Fetched(None, PrimarySlot, false)
      else match onMiss
        case Value(d) => Fetched(d, SecondarySlot, false)
        case Threw(_) => Fallback(again)
  }

  /** What `getBlob` returns, and whether it swapped the roles. */
  datatype ReadPlan = ReadPlan(result: Result<Option<Bytes>, HAError>, swapped: bool)

  /** `getBlob`: the lookup, then, when `validate` is on and bytes were found, the hash check
      `verify`. A failed check is raised after any swap the lookup made. */
  function PlanRead(hash: Digest, primary: Read, onMiss: Read, again: Read,
                    trySecondary: bool, hasSecondary: bool, validate: bool,
                    verify: (Bytes, Digest) -> bool): (plan: ReadPlan)
    ensures var f := Fetch(primary, onMiss, again, trySecondary, hasSecondary);
            plan.swapped <==> f.Fetched? && f.swapped
    ensures var f := Fetch(primary, onMiss, again, trySecondary, hasSecondary);
            plan.result.Ok? ==> f.Fetched? && plan.result.value == f.data
    ensures var f := Fetch(primary, onMiss, again, trySecondary, hasSecondary);
            plan.result.Err? && f.Fetched? ==>
              validate && f.data.Some? && !verify(f.data.value, hash) &&
              plan.result.error == HashCheckFailed(hash, |f.data.value|, f.from)
  {
    match Fetch(primary, onMiss, again, trySecondary, hasSecondary)
    case LookupFailed(c) => ReadPlan(Err(SecondaryLookupFailed(c)), false)
    case Fetched(d, from, swapped) =>
      if validate && d.Some? && !verify(d.value, hash)
      then ReadPlan(Err(HashCheckFailed(hash, |d.value|, from)), swapped)
      else ReadPlan(Ok(d), swapped)
  }

  /** A primary that finds the blob answers alone. */
  lemma PrimaryHit(hash: Digest, d: Bytes, onMiss: Read, again: Read, trySecondary: bool, hasSecondary: bool,
                   validate: bool, verify: (Bytes, Digest) -> bool)
    requires !validate || verify(d, hash)
    ensures PlanRead(hash, Value(Some(d)), onMiss, again, trySecondary, hasSecondary, validate, verify)
            == ReadPlan(Ok(Some(d)), false)
  {
  }

  /** A miss on the primary falls through to the secondary, whose answer (possibly `null`)
      is returned with no role swap; a miss is not a failure. */
  lemma MissFallsThroughWithoutSwap(hash: Digest, onMiss: Option<Bytes>, again: Read,
                                    validate: bool, verify: (Bytes, Digest) -> bool)
    requires !validate || onMiss.None? || verify(onMiss.value, hash)
    ensures PlanRead(hash, Value(None), Value(onMiss), again, true, true, validate, verify)
            == ReadPlan(Ok(onMiss), false)
  {
  }

  /** Without `trySecondaryWhenNotFound`, or without a secondary, a miss is returned as `null`. */
  lemma MissWithoutFallthrough(hash: Digest, onMiss: Read, again: Read, trySecondary: bool, hasSecondary: bool,
                               validate: bool, verify: (Bytes, Digest) -> bool)
    requires !(trySecondary && hasSecondary)
    ensures PlanRead(hash, Value(None), onMiss, again, trySecondary, hasSecondary, validate, verify)
            == ReadPlan(Ok(None), false)
  {
  }

  /** A primary that throws is replaced: the secondary's answer is returned and the roles
      are swapped. */
  lemma PrimaryFaultFailsOver(hash: Digest, pf: Fault, onMiss: Read, d: Option<Bytes>, trySecondary: bool,
                              hasSecondary: bool, validate: bool, verify: (Bytes, Digest) -> bool)
    requires !validate || d.None? || verify(d.value, hash)
    ensures PlanRead(hash, Threw(pf), onMiss, Value(d), trySecondary, hasSecondary, validate, verify)
            == ReadPlan(Ok(d), true)
  {
  }

  /** When the secondary throws in the handler too, the call fails and nothing is swapped. */
  lemma BothFaultsFail(hash: Digest, primary: Read, onMiss: Read, sf: Fault, trySecondary: bool,
                       hasSecondary: bool, validate: bool, verify: (Bytes, Digest) -> bool)
    requires primary.Threw? || (primary == Value(None) && trySecondary && hasSecondary && onMiss.Threw?)
    ensures PlanRead(hash, primary, onMiss, Threw(sf), trySecondary, hasSecondary, validate, verify)
            == ReadPlan(Err(SecondaryLookupFailed(sf)), false)
  {
  }

  /** Roles are swapped exactly when an exception reached the handler and the secondary
      then answered. */
  lemma SwapOnlyAfterException(hash: Digest, primary: Read, onMiss: Read, again: Read, trySecondary: bool,
                               hasSecondary: bool, validate: bool, verify: (Bytes, Digest) -> bool)
    ensures PlanRead(hash, primary, onMiss, again, trySecondary, hasSecondary, validate, verify).swapped <==>
            again.Value? &&
            (primary.Threw? || (primary == Value(None) && trySecondary && hasSecondary && onMiss.Threw?))
  {
  }

  /** The code as written: when the primary misses and the secondary throws on the
      fall-through read, the handler meant for a failing primary reads the secondary again
      and, if that succeeds, demotes the primary although the primary did not fail. */
  lemma MissThenSecondaryFaultDemotesPrimary(hash: Digest, sf: Fault, d: Option<Bytes>,
                                             validate: bool, verify: (Bytes, Digest) -> bool)
    ensures PlanRead(hash, Value(None), Threw(sf), Value(d), true, true, validate, verify).swapped
  {
  }

  /** With validation on, bytes that fail the hash check are never returned: the call raises
      a hash-check error naming the digest, the size and the slot the bytes came from. */
  lemma ValidationGuardsResult(hash: Digest, primary: Read, onMiss: Read, again: Read, trySecondary: bool,
                               hasSecondary: bool, verify: (Bytes, Digest) -> bool)
    ensures var plan := PlanRead(hash, primary, onMiss, again, trySecondary, hasSecondary, true, verify);
            plan.result.Ok? && plan.result.value.Some? ==> verify(plan.result.value.value, hash)
    ensures var f := Fetch(primary, onMiss, again, trySecondary, hasSecondary);
            f.Fetched? && f.data.Some? && !verify(f.data.value, hash) ==>
              PlanRead(hash, primary, onMiss, again, trySecondary, hasSecondary, true, verify).result
              == Err(HashCheckFailed(hash, |f.data.value|, f.from))
  {
  }

  /** With validation off, the hash check never runs and the result is the lookup's. */
  lemma NoValidationNoCheck(hash: Digest, primary: Read, onMiss: Read, again: Read, trySecondary: bool,
                            hasSecondary: bool, verify: (Bytes, Digest) -> bool)
    ensures var f := Fetch(primary, onMiss, again, trySecondary, hasSecondary);
            PlanRead(hash, primary, onMiss, again, trySecondary, hasSecondary, false, verify).result
            == (if f.Fetched? then Ok(f.data) else Err(SecondaryLookupFailed(f.cause)))
  {
  }

  /** `hasBlob`: the blob exists when `getBlob` returns non-null; exceptions propagate. */
  function Exists(r: Result<Option<Bytes>, HAError>): (e: Result<bool, HAError>)
    ensures e.Ok? <==> r.Ok?
    ensures e.Ok? ==> (e.value <==> r.value != None)
    ensures e.Err? ==> e.error == r.error
  {
    match r
    case Ok(d) => Ok(d.Some?)
    case Err(x) => Err(x)
  }
}
