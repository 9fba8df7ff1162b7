/**
 The lazily filled table of per-node locks.
 */
module Mutex {
  import opened Nas

  class Lock {
    constructor () {}
  }

  class PerNodeMutex {
    var submutex: map<NodeName, Lock>

    /** No two nodes share a lock. */
    ghost predicate Valid()
      reads this
    {
      forall n, n' :: n in submutex && n' in submutex && submutex[n] == submutex[n'] ==> n == n'
    }

    constructor ()
      ensures Valid() && submutex == map[]
    {
      submutex := map[];
    }

    /** Every call for a node returns the same lock, and calls for other nodes return others. */
    method Get(node: NodeName) returns (m: Lock)
      requires Valid()
      modifies this`submutex
      ensures Valid()
      ensures node in submutex && m == submutex[node]
      ensures node in old(submutex) ==> submutex == old(submutex)
      ensures node !in old(submutex) ==> fresh(m) && submutex == old(submutex)[node := m]
      ensures forall n <- submutex :: n != node ==> submutex[n] != m
    {
      if node !in submutex {
        var lock := new Lock();
        submutex := submutex[node := lock];
      }
      m := submutex[node];
    }
  }
}
