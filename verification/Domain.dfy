/** Entities and error values shared by every layer of the lock service. */
module Domain {

  datatype Option<+T> = None | Some(value: T)

  const MIN_INT64: int := -0x8000_0000_0000_0000
  const MAX_INT64: int := 0x7FFF_FFFF_FFFF_FFFF

  /** A signed 64-bit value: Unix nanoseconds, or a duration in nanoseconds. */
  type int64 = x: int | MIN_INT64 <= x <= MAX_INT64

  const SECOND: int := 1_000_000_000
  const MILLISECOND: int := 1_000_000

  datatype Error =
    | ErrLeaseNotFound
    | ErrLeaseExpired
    | ErrInvalidLeaseTTL
    | ErrInvalidTimestamp
    | ErrLockNotFound
    | ErrLockAlreadyHeld
    | ErrNotLockOwner
    | ErrInvalidClusterNode
    | ErrUnknownCommand

  /** `expiresAt` is the creation time plus the TTL, in the creating leader's clock. */
  datatype Lease = Lease(leaseID: nat, ownerID: string, expiresAt: int64, ttl: int64)

  datatype Lock = Lock(name: string, ownerID: string, fencingToken: nat, leaseID: nat)
}
