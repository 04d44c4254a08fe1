/** Build constants of the kernel (proc.h, conf.h, clock.h, queue.h). */
module Config {
  const NPROC: nat := 50
  const NCORES: nat := 4
  const QUANTUM: nat := 3
  const NQENT: nat := NPROC + 24 + NPROC + NPROC
  const NQUEUE: nat := NPROC + 3 * NCORES   // one message queue a process, three ready queues a core
  const EMPTY: int := -2
}
