/** HABlobStore: one blob store over two backends. Writes go to the current primary and are
    replicated in the background to the other; a failing backend is demoted by exchanging
    the roles; reads can fall through to the secondary and be checked against their digest. */
module HAStore {
  import opened Blobs
  import opened Backends
  import opened Failover

  /** A replication task handed to the executor: write `bytes` under `hash` to `target`. */
  datatype Task = Task(hash: Digest, bytes: Bytes, target: Backend?)

  class HABlobStore {
    const primary: Backend?
    const secondary: Backend?
    /** HashCalc.verifyHash: whether `bytes` hash to the digest. */
    const verifyHash: (Bytes, Digest) -> bool

    var trySecondaryWhenNotFound: bool
    var validate: bool
    var retries: int

    var curPrimary: Backend?
    var curSecondary: Backend?

    /** Tasks submitted to the executor and not yet run. */
    var queue: seq<Task>

    /** The role slots hold the two configured backends, possibly exchanged. */
    ghost predicate Valid()
      reads this
    {
      Bound(Roles(curPrimary, curSecondary), primary, secondary)
    }

    constructor (primary: Backend?, secondary: Backend?, verifyHash: (Bytes, Digest) -> bool)
      ensures Valid()
      ensures this.primary == primary && this.secondary == secondary && this.verifyHash == verifyHash
      ensures curPrimary == primary && curSecondary == secondary
      ensures trySecondaryWhenNotFound && !validate && retries == 3
      ensures queue == []
    {
      this.primary := primary;
      this.secondary := secondary;
      this.verifyHash := verifyHash;
      trySecondaryWhenNotFound := true;
      validate := false;
      retries := 3;
      curPrimary := primary;
      curSecondary := secondary;
      queue := [];
    }

    /** The current role slots. */
    function CurrentRoles(): (r: Roles)
      reads this
    {
      Roles(curPrimary, curSecondary)
    }

    /** Roles, queue and backend contents are as they were. */
    twostate predicate Untouched()
      reads this, primary, secondary
    {
      curPrimary == old(curPrimary) && curSecondary == old(curSecondary) && queue == old(queue) &&
      (primary != null ==> primary.blobs == old(primary.blobs)) &&
      (secondary != null ==> secondary.blobs == old(secondary.blobs))
    }

    /** The state change of one `_setBlob` attempt that ended as `w`. */
    twostate predicate WriteEffect(hash: Digest, bytes: Bytes, w: WriteResult)
      requires old(Valid())
      reads this, primary, secondary
    {
      var p, s := old(curPrimary), old(curSecondary);
      match w
      case WrotePrimary =>
        // written to the primary, replicated toward the secondary, roles kept
        p != null && curPrimary == p && curSecondary == s && queue == old(queue) + [Task(hash, bytes, s)] &&
        p.blobs == old(p.Stored(hash, bytes)) && (s != null && s != p ==> s.blobs == old(s.blobs))
      case WroteSecondary =>
        // written to the secondary, replicated toward the old primary, roles exchanged
        s != null && curPrimary == s && curSecondary == p && queue == old(queue) + [Task(hash, bytes, p)] &&
        s.blobs == old(s.Stored(hash, bytes)) && (p != null && p != s ==> p.blobs == old(p.blobs))
      case WriteFailed(_) =>
        Untouched()
    }

    /** The role slots after a read that did or did not swap them. */
    twostate predicate RolesAfterRead(swapped: bool)
      reads this
    {
      if swapped then curPrimary == old(curSecondary) && curSecondary == old(curPrimary)
      else curPrimary == old(curPrimary) && curSecondary == old(curSecondary)
    }

    /** setBlob: up to `retries` attempts, returning after the first one that succeeds. */
    method SetBlob(hash: Digest, bytes: Bytes, env: nat -> Attempt) returns (r: Result<(), HAError>, ghost calls: nat)
      requires Valid()
      modifies this`curPrimary, this`curSecondary, this`queue, primary, secondary
      ensures Valid()
      ensures var plan := SetBlobPlan(old(CurrentRoles()), env, retries);
              r == SetBlobResult(plan) && calls == Calls(plan) &&
              (if plan.Succeeded? then WriteEffect(hash, bytes, plan.via) else Untouched())
    // read-your-write: after a success the (possibly new) primary holds the blob
    ensures r.Ok? ==> curPrimary != null && (!curPrimary.isNull ==> curPrimary.Lookup(hash, Succeed) == Value(Some(bytes)))
    {
      ghost var plan := SetBlobPlan(CurrentRoles(), env, retries);
      var last: Option<Fault> := None;
      var i := 0;
      calls := 0;
      while i < retries
        invariant i == 0 || i <= retries
        invariant calls == i
        invariant Retry(old(CurrentRoles()), env, retries, i, last) == plan
        invariant Valid() && Untouched()
      {
        var w := WriteOnce(hash, bytes, env(i));
        calls := calls + 1;
        if !w.WriteFailed? {
          r := Ok(());
          return;
        }
        last := Some(w.cause);
        i := i + 1;
      }
      r := Err(ExhaustedRetries(retries, last));
    }

    /** _setBlob: one attempt, primary first, then the secondary with a role swap. */
    method WriteOnce(hash: Digest, bytes: Bytes, a: Attempt) returns (w: WriteResult)
      requires Valid()
      modifies this`curPrimary, this`curSecondary, this`queue, primary, secondary
      ensures Valid()
      ensures w == WriteAttempt(SetFaultOf(old(curPrimary), a.onPrimary), SetFaultOf(old(curSecondary), a.onSecondary))
      ensures WriteEffect(hash, bytes, w)
    {
      var p, s := curPrimary, curSecondary;
      var pf: Option<Fault>;
      if p == null {
        pf := Some(NullReference);
      } else {
        pf := p.SetBlob(hash, bytes, a.onPrimary);
      }
      if pf.None? {
        Enqueue(hash, bytes, s);
        return WrotePrimary;
      }
      if s == null {
        return WriteFailed(NullReference);
      }
      var sf := s.SetBlob(hash, bytes, a.onSecondary);
      if sf.Some? {
        return WriteFailed(sf.value);
      }
      Enqueue(hash, bytes, p);
      SwitchStores(p, s);
      return WroteSecondary;
    }

    /** enqueue: submit a replication task to the executor. */
    method Enqueue(hash: Digest, bytes: Bytes, target: Backend?)
      modifies this`queue
      ensures queue == old(queue) + [Task(hash, bytes, target)]
    {
      queue := queue + [Task(hash, bytes, target)];
    }

    /** InsertBlobRunnable.run for the task at `k`, which an executor thread picked: write to
        the target and swallow any exception, including a null target. */
    method RunTask(k: nat, o: Outcome)
      requires k < |queue|
      modifies this`queue, queue[k].target
      ensures queue == old(queue[..k] + queue[k + 1..])
      ensures var t := old(queue[k]);
              t.target != null ==>
                t.target.blobs == if t.target.SetFault(o).None? then old(t.target.Stored(t.hash, t.bytes))
                                  else old(t.target.blobs)
    {
      var t := queue[k];
      queue := queue[..k] + queue[k + 1..];
      if t.target != null {
        var _ := t.target.SetBlob(t.hash, t.bytes, o);
      }
    }

    /** hasBlob: whether `getBlob` returns non-null; its exceptions propagate. */
    method HasBlob(hash: Digest, o: ReadFaults) returns (r: Result<bool, HAError>)
      requires Valid()
      modifies this`curPrimary, this`curSecondary
      ensures Valid()
      ensures var plan := old(Plan(hash, o));
              r == Exists(plan.result) && RolesAfterRead(plan.swapped)
    {
      var bytes := GetBlob(hash, o);
      r := match bytes
        case Ok(d) => Ok(d != None)
        case Err(e) => Err(e);
    }

    /** What `getBlob` does from the current state under the environment's outcomes `o`. */
    function Plan(hash: Digest, o: ReadFaults): (plan: ReadPlan)
      reads this, curPrimary, curSecondary
      ensures plan.swapped ==> curSecondary != null
      ensures validate && plan.result.Ok? && plan.result.value.Some? ==> verifyHash(plan.result.value.value, hash)
      ensures curPrimary != null && curPrimary.isNull && !trySecondaryWhenNotFound ==> plan == ReadPlan(Ok(None), false)
    {
      PlanRead(hash, ReadOf(curPrimary, hash, o.onPrimary), ReadOf(curSecondary, hash, o.onSecondary),
               ReadOf(curSecondary, hash, o.onSecondaryAgain), trySecondaryWhenNotFound,
               curSecondary != null, validate, verifyHash)
    }

    /** getBlob: read the primary; on a miss maybe the secondary; on an exception the
        secondary with a role swap; then the optional hash check. */
    method GetBlob(hash: Digest, o: ReadFaults) returns (r: Result<Option<Bytes>, HAError>)
      requires Valid()
      modifies this`curPrimary, this`curSecondary
      ensures Valid()
      ensures var plan := old(Plan(hash, o));
              r == plan.result && RolesAfterRead(plan.swapped)
    {
      var p, s := curPrimary, curSecondary;
      var from := PrimarySlot;
      var arr: Option<Bytes> := None;
      var thrown := false;
      var pr: Read;
      if p == null {
        pr := Threw(NullReference);
      } else {
        pr := p.GetBlob(hash, o.onPrimary);
      }
      if pr.Threw? {
        thrown := true;
      } else {
        arr := pr.data;
        if arr == None && trySecondaryWhenNotFound && curSecondary != null {
          from := SecondarySlot;
          var sr := s.GetBlob(hash, o.onSecondary);
          if sr.Threw? {
            thrown := true;
          } else {
            arr := sr.data;
          }
        }
      }
      if thrown {
        from := SecondarySlot;
        var sr: Read;
        if s == null {
          sr := Threw(NullReference);
        } else {
          sr := s.GetBlob(hash, o.onSecondaryAgain);
        }
        if sr.Threw? {
          return Err(SecondaryLookupFailed(sr.cause));
        }
        arr := sr.data;
        SwitchStores(p, s);
      }
      if validate && arr != None && !verifyHash(arr.value, hash) {
        return Err(HashCheckFailed(hash, |arr.value|, from));
      }
      return Ok(arr);
    }

    /** switchStores(p, s), called with the roles read at the start of the operation:
        exchange them, or do nothing when there is no secondary. */
    method SwitchStores(p: Backend?, s: Backend?)
      requires Valid() && p == curPrimary && s == curSecondary
      modifies this`curPrimary, this`curSecondary
      ensures Valid()
      ensures CurrentRoles() == Switched(Roles(p, s))
    {
      if s == null {
        return;
      }
      curPrimary := s;
      curSecondary := p;
    }

    method SetTrySecondaryWhenNotFound(b: bool)
      modifies this`trySecondaryWhenNotFound
      ensures trySecondaryWhenNotFound == b
    {
      trySecondaryWhenNotFound := b;
    }

    method SetValidate(b: bool)
      modifies this`validate
      ensures validate == b
    {
      validate := b;
    }

    method SetRetries(n: int)
      modifies this`retries
      ensures retries == n
    {
      retries := n;
    }
  }
}
