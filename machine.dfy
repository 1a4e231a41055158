/** Vocabulary shared by every component: an Option type and the fixed-width
    unsigned words (`usize` on a 64-bit target, `u32`) that the atomics hold,
    with the wrapping arithmetic of `fetch_add` / `fetch_sub`. */
module Machine {

  datatype Option<T> = None | Some(value: T)

  /** How one operation of a primitive ended in the sequential model: it
      returned, aborted the process, panicked, would block the calling thread
      on a futex wait or a park until another thread acts, or would spin for
      ever for the same reason. */
  datatype Status = Ok | Aborted | Panicked(message: string) | Blocked | Spinning

  /** The outcome of one operation: how it ended, what it returned, and the
      state it leaves behind. */
  datatype Step<R, S> = Step(status: Status, reply: R, next: S)

  /** `usize::MAX` on a 64-bit target. */
  const USIZE_MAX: nat := 0xFFFF_FFFF_FFFF_FFFF
  /** `usize::MAX / 2`: the reference counts abort or panic above it. */
  const USIZE_HALF: nat := USIZE_MAX / 2
  /** `u32::MAX`. */
  const U32_MAX: nat := 0xFFFF_FFFF

  /** The new value of a `usize` atomic after `fetch_add(d)`: wraps modulo 2^64. */
  function UsizeAdd(x: nat, d: nat): (r: nat)
    ensures r <= USIZE_MAX
    ensures x + d <= USIZE_MAX ==> r == x + d
  {
    (x + d) % (USIZE_MAX + 1)
  }

  /** The new value of a `usize` atomic after `fetch_sub(1)`: 0 wraps to `usize::MAX`. */
  function UsizeDec(x: nat): (r: nat)
    requires x <= USIZE_MAX
    ensures r <= USIZE_MAX
    ensures x > 0 ==> r == x - 1
    ensures x == 0 ==> r == USIZE_MAX
  {
    if x == 0 then USIZE_MAX else x - 1
  }

  /** The new value of a `u32` atomic after `fetch_sub(d)`: wraps modulo 2^32. */
  function U32Sub(x: nat, d: nat): (r: nat)
    requires x <= U32_MAX && d <= U32_MAX
    ensures r <= U32_MAX
    ensures d <= x ==> r == x - d
    ensures x < d ==> r == x + (U32_MAX + 1) - d
  {
    if d <= x then x - d else x + (U32_MAX + 1) - d
  }
}
