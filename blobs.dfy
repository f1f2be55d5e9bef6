/** Values shared by every blob store: digests, blob bytes, and the ways a backend
    call can end. */
module Blobs {

  /** A content digest: the hex string that names a blob. */
  type Digest = string

  /** The contents of a blob. */
  type Bytes = seq<bv8>

  /** A value that may be absent; `None` stands for a Java `null`. */
  datatype Option<+T> = None | Some(value: T)

  /** A normal return, or the exception a call raised. */
  datatype Result<+T, +E> = Ok(value: T) | Err(error: E)

  /** What the environment makes one backend call do: return normally, or throw an
      exception identified by `code`. */
  datatype Outcome = Succeed | Throw(code: int)

  /** An exception seen by the caller of a backend: one the backend raised, or the
      `NullPointerException` of calling a backend slot that holds `null`. */
  datatype Fault = Raised(code: int) | NullReference

  /** The end of one `getBlob` call on a backend: the blob or `null`, or an exception. */
  datatype Read = Value(data: Option<Bytes>) | Threw(cause: Fault)
}
