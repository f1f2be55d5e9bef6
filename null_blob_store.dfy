/** NullBlobStore: the backend that stores nothing. It has no fields, so its state is a
    single value, and every operation is a constant. */
module NullStore {
  import opened Blobs

  datatype NullBlobStore = Null {

    /** setBlob accepts any blob and keeps nothing: the state after is the state before. */
    function SetBlob(hash: Digest, bytes: Bytes): (after: NullBlobStore)
      ensures after == this
    {
      this
    }

    /** getBlob answers `null` for every digest. */
    function GetBlob(hash: Digest): (r: Option<Bytes>)
      ensures r == None
    {
      None
    }

    /** hasBlob answers false for every digest. */
    function HasBlob(hash: Digest): (r: bool)
      ensures !r
    {
      false
    }
  }

  /** A write is invisible to every later read, of its own digest or any other. */
  lemma SetBlobUnobservable(st: NullBlobStore, hash: Digest, bytes: Bytes, probe: Digest)
    ensures st.SetBlob(hash, bytes).GetBlob(probe) == None
    ensures !st.SetBlob(hash, bytes).HasBlob(probe)
    ensures st.SetBlob(hash, bytes).GetBlob(probe) == st.GetBlob(probe)
  {
  }

  /** Existence agrees with reading, the same definition the HA store uses. */
  lemma HasBlobIsGetBlobNonNull(st: NullBlobStore, hash: Digest)
    ensures st.HasBlob(hash) <==> st.GetBlob(hash).Some?
  {
  }
}
