/** The millisecond tick counter (GetTickCount64) and the unsigned
    arithmetic the controller does on it. */
module Ticks {

  /** ULONGLONG is 64 bits wide. */
  const TickModulus: int := 0x1_0000_0000_0000_0000

  /** `now - since` computed on ULONGLONG: it wraps around when `since` lies
      ahead of `now`, so a timestamp from the future reads as very old. */
  function Elapsed(now: nat, since: nat): (e: nat)
    ensures e < TickModulus
    ensures since <= now < since + TickModulus ==> e == now - since
    ensures now < since && since - now <= TickModulus ==> e == TickModulus - (since - now)
  {
    (now - since) % TickModulus
  }

  /** A timestamp taken at or before `now` on the same counter. */
  predicate NotAfter(since: nat, now: nat) {
    since <= now < since + TickModulus
  }
}
