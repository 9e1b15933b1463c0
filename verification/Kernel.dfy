/** The kernel side of XSI semaphores (IEEE Std 1003.1-2008, System Interfaces,
    section 2.7 and the semop page), reduced to what the library relies on. */
module Kernel {
  import opened Arrays

  /** One `semop` on a semaphore holding `value`: the new value, or None while the caller
      has to wait (or gets EAGAIN under IPC_NOWAIT). */
  function SemOp(value: int, op: int): (r: Option<int>) {
    if op > 0 then Some(value + op)
    else if op < 0 then (if value >= -op then Some(value + op) else None)
    else (if value == 0 then Some(0) else None)
  }
}
