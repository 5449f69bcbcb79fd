/** Arming the QUIC timer: verifier_quic_flush's timeout (src/verifier_quic.h) and its
    conversion to a timespec in verifier_flush_egress (src/verifier.c). */
module Expiry {
  import opened Requests

  const U64: int := 0x1_0000_0000_0000_0000
  const S63: int := 0x8000_0000_0000_0000
  const SECOND: int := 1_000_000_000
  const MAX_TIMEOUT: int := 2000

  type Uint64 = n: int | 0 <= n < U64
  datatype Timespec = Timespec(sec: int, nsec: int)

  /** Returned through an unsigned type: a failed flush is the largest value. */
  function FlushResult(flushed: bool, expiry: Uint64, now: Uint64): Uint64 {
    if !flushed then U64 - 1
    else if expiry < now then MAX_TIMEOUT
    else expiry - now
  }

  function ToSigned(n: Uint64): int {
    if n < S63 then n else n - U64
  }

  /** The processor exits exactly when the flush failed or the timeout does not fit a signed
      64-bit number; otherwise the timespec is normalised and denotes that timeout. */
  method Arm(flushed: bool, expiry: Uint64, now: Uint64) returns (armed: Option<Timespec>)
    ensures armed.None? <==> !flushed || expiry - now >= S63
    ensures armed.Some? ==>
              && 0 <= armed.value.nsec < SECOND && 0 <= armed.value.sec
              && armed.value.sec * SECOND + armed.value.nsec == if expiry < now then MAX_TIMEOUT else expiry - now
  {
    var nsec := ToSigned(FlushResult(flushed, expiry, now));
    if nsec < 0 {
      return None;
    }
    var sec := nsec / SECOND;
    nsec := nsec - sec * SECOND;
    armed := Some(Timespec(sec, nsec));
  }
}
