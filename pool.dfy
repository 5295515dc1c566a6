/**
 * The admission pool (pkg/procrunner/pool.go): a running count bounded by
 * a maximum fixed at construction.
 */
module Pools {
  import opened Wrappers
  import opened Procs

  /** Why the pool handed out no runner. */
  datatype PoolError = MaxReached | SpawnFailed(msg: string) {
    /** The error text: the pool's own, or the spawn error as returned by the child's start. */
    function Message(): string {
      match this
      case MaxReached => "max reached"
      case SpawnFailed(m) => m
    }
  }

  class ProcRunnerPool {
    var running: int
    const max: int
    /** The runners handed out and not yet given back: each gives its slot back once. */
    ghost var live: set<ProcRunner>

    ghost predicate Valid()
      reads this
    {
      running == |live| && (running == 0 || running <= max)
    }

    constructor (maxConcurrent: int)
      ensures Valid() && running == 0 && max == maxConcurrent && live == {}
    {
      running := 0;
      max := maxConcurrent;
      live := {};
    }

    method Running() returns (n: int)
      ensures n == running
    {
      n := running;
    }

    method Max() returns (m: int)
      ensures m == max
    {
      m := max;
    }

    /** With a non-negative maximum, the running count stays within [0, max]. */
    lemma WithinBounds()
      requires Valid() && max >= 0
      ensures 0 <= running <= max
    {
    }

    /**
     * Hand out a new runner unless the maximum is reached; `spawnErr` is what
     * starting the child reports. Only a successful start takes a slot.
     */
    method NewRunner(fileName: string, maxHeapSizeMB: nat, spawnErr: Option<string>)
      returns (r: ProcRunner?, err: Option<PoolError>)
      requires Valid()
      modifies this
      ensures Valid()
      ensures (r == null) == err.Some?
      ensures old(running) >= max ==> err == Some(MaxReached) && running == old(running) && live == old(live)
      ensures old(running) < max && spawnErr.Some? ==>
        err == Some(SpawnFailed(spawnErr.value)) && running == old(running) && live == old(live)
      ensures old(running) < max && spawnErr.None? ==>
        && r != null && fresh(r) && running == old(running) + 1 && live == old(live) + {r}
        && r.Valid() && !r.closed && r.seqNo == 0 && r.fileName == fileName && r.maxHeapSizeMB == maxHeapSizeMB
    {
      if running >= max {
        return null, Some(MaxReached);
      }
      var spawned, e := NewProcRunner(fileName, maxHeapSizeMB, spawnErr);
      if spawned == null {
        return null, Some(SpawnFailed(e.value));
      }
      r := spawned;
      live := live + {r};
      running := running + 1;
      err := None;
    }

    /** The post-close step of a runner the pool handed out: give its slot back. */
    method Release(r: ProcRunner)
      requires Valid() && r in live && r.closed
      modifies this
      ensures Valid()
      ensures running == old(running) - 1 && live == old(live) - {r}
    {
      live := live - {r};
      running := running - 1;
    }
  }

  /**
   * With a maximum of two: two runners are handed out, a third is refused,
   * closing the first frees a slot for a fourth, and closing the remaining
   * two brings the count back to zero.
   */
  method ConcurrencyScenario() returns (refused: Option<PoolError>, finalRunning: int)
    ensures refused == Some(MaxReached) && finalRunning == 0
  {
    var pool := new ProcRunnerPool(2);
    var r1, _ := pool.NewRunner("test.js", 32, None);
    var r2, _ := pool.NewRunner("test.js", 32, None);
    var r3, e3 := pool.NewRunner("test.js", 32, None);
    refused := e3;
    var _ := r1.Close(None);
    pool.Release(r1);
    var r4, _ := pool.NewRunner("test.js", 32, None);
    var _ := r2.Close(None);
    pool.Release(r2);
    var _ := r4.Close(None);
    pool.Release(r4);
    finalRunning := pool.Running();
  }
}
