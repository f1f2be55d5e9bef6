/** A BlobStore backend as the HA store uses it: a mutable map from digest to bytes whose
    calls end as the environment decides. A backend built as a null store behaves as
    NullBlobStore: its reads answer through NullBlobStore's getBlob, its writes keep nothing,
    and it never throws. */
module Backends {
  import opened Blobs
  import NullStore

  class Backend {
    const isNull: bool
    var blobs: map<Digest, Bytes>

    constructor (isNull: bool)
      ensures this.isNull == isNull && blobs == map[]
    {
      this.isNull := isNull;
      blobs := map[];
    }

    /** The blobs held after a write of `bytes` under `hash` that returns normally. */
    function Stored(hash: Digest, bytes: Bytes): (m: map<Digest, Bytes>)
      reads this
      ensures isNull ==> m == blobs
      ensures !isNull ==> hash in m && m[hash] == bytes && m - {hash} == blobs - {hash}
    {
      if isNull then blobs else blobs[hash := bytes]
    }

    /** The exception, if any, that a write raises under outcome `o`. */
    function SetFault(o: Outcome): (f: Option<Fault>)
      ensures f.Some? <==> !isNull && o.Throw?
      ensures f.Some? ==> f.value == Raised(o.code)
    {
      if isNull || o.Succeed? then None else Some(Raised(o.code))
    }

    /** What a read of `hash` returns under outcome `o`. */
    function Lookup(hash: Digest, o: Outcome): (r: Read)
      reads this
      ensures r.Threw? <==> !isNull && o.Throw?
      ensures r.Threw? ==> r.cause == Raised(o.code)
      ensures r.Value? ==> r.data == (if !isNull && hash in blobs then Some(blobs[hash]) else None)
    {
      if isNull then Value(NullStore.NullBlobStore.Null.GetBlob(hash))
      else if o.Throw? then Threw(Raised(o.code))
      else Value(if hash in blobs then Some(blobs[hash]) else None)
    }

    method SetBlob(hash: Digest, bytes: Bytes, o: Outcome) returns (f: Option<Fault>)
      modifies this
      ensures f == SetFault(o)
      ensures blobs == if f.None? then old(Stored(hash, bytes)) else old(blobs)
    {
      f := SetFault(o);
      if f.None? && !isNull {
        blobs := blobs[hash := bytes];
      }
    }

    method GetBlob(hash: Digest, o: Outcome) returns (r: Read)
      ensures r.Threw? <==> !isNull && o.Throw?
      ensures r.Value? ==> r.data == (if !isNull && hash in blobs then Some(blobs[hash]) else None)
      ensures r == Lookup(hash, o)
    {
      if isNull {
        r := Value(NullStore.NullBlobStore.Null.GetBlob(hash));
      } else if o.Throw? {
        r := Threw(Raised(o.code));
      } else if hash in blobs {
        r := Value(Some(blobs[hash]));
      } else {
        r := Value(None);
      }
    }
  }

  /** The exception a write through a possibly-null slot raises. */
  function SetFaultOf(b: Backend?, o: Outcome): (f: Option<Fault>)
    ensures b == null ==> f == Some(NullReference)
  {
    if b == null then Some(NullReference) else b.SetFault(o)
  }

  /** What a read through a possibly-null slot returns. */
  function ReadOf(b: Backend?, hash: Digest, o: Outcome): (r: Read)
    reads b
    ensures b == null ==> r == Threw(NullReference)
  {
    if b == null then Threw(NullReference) else b.Lookup(hash, o)
  }
}
