/** The small vocabulary every module of this project shares. */
module Basics {

  datatype Option<+T> = None | Some(value: T)

  datatype Result<+T, +E> = Ok(value: T) | Err(error: E)

  /** A moment, in milliseconds of one monotone clock. */
  type Instant = nat

  type TenantID = nat
  type UserID = nat

  /** An opaque credential. A mint counts upwards, so a minted token is new by
      construction, and a number the mint has not reached yet is a guess. */
  type Token = nat

  /** The SHA-256 digest of one token. It is injective on the tokens in use, and
      a constructor is exactly that. */
  datatype Digest = Digest(of: Token)

  /** What became of one write that runs in a transaction: it committed, the
      audit row that closes the transaction failed, or the row itself was refused. */
  datatype Fate = Committed | AuditFailed | WriteFailed

  /** A subset of a finite set is no larger than it. */
  lemma SubsetSize<T>(small: set<T>, large: set<T>)
    requires small <= large
    ensures |small| <= |large|
    ensures |small| == |large| ==> small == large
  {
    assert large == small + (large - small);
  }
}
