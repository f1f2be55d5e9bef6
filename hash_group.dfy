/** HashGroup: a persisted node of the hash-group index. `name` is its primary key,
    `contentHash` the cached hash of its children and `status` whether that hash can be
    trusted. */
module Groups {
  import opened Blobs

  /** The documented status values: the hash is missing or stale, or the hash is current.
      The field itself holds any string, or `null`. */
  const INVALID: string := "INVALID"
  const VALID: string := "VALID"

  class HashGroup {
    // The three fields are Java strings, so each may be null (`None`).

    /** The primary key; there is no setter, so it is fixed at construction. */
    const name: Option<string>
    /** The cached content hash. */
    var contentHash: Option<string>
    var status: Option<string>

    constructor (name: Option<string>, contentHash: Option<string>, status: Option<string>)
      ensures this.name == name && this.contentHash == contentHash && this.status == status
    {
      this.name := name;
      this.contentHash := contentHash;
      this.status := status;
    }

    method SetContentHash(c: Option<string>)
      modifies this`contentHash
      ensures contentHash == c
      ensures status == old(status)
    {
      contentHash := c;
    }

    /** setStatus; repeating it with the value already held changes nothing. */
    method SetStatus(st: Option<string>)
      modifies this`status
      ensures status == st
      ensures contentHash == old(contentHash)
      ensures old(status) == st ==> unchanged(this)
    {
      status := st;
    }
  }
}
