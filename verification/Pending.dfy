/**
 The controller's in-memory store of reservations (`PerNodeAllocatedClaims`): for each
 claim the cpuset reserved on each node, and beside it the shadow utilisation of each
 node.  Every method runs under the store's lock.
 */
module Pending {
  import opened Nas
  import opened Cluster

  ghost function Restrict(m: map<NodeName, AllocatedCpuset>, done: set<NodeName>): map<NodeName, AllocatedCpuset> {
    map n | n in m && n in done :: m[n]
  }

  lemma RestrictAll(m: map<NodeName, AllocatedCpuset>)
    ensures Restrict(m, m.Keys) == m
    ensures Restrict(m, {}) == map[]
  {
  }

  lemma ForgetNothing(util: map<NodeName, UtilMap>, keep: set<NodeName>)
    ensures ForgetUtil(util, map[], keep) == util
  {
  }

  /** Subtracting from one more node's entry. */
  lemma ForgetNext(
      util: map<NodeName, UtilMap>, m: map<NodeName, AllocatedCpuset>, done: set<NodeName>, keep: set<NodeName>,
      n: NodeName)
    requires n in m && n !in done
    ensures var before := ForgetUtil(util, Restrict(m, done), keep);
            && before.Keys == util.Keys
            && (n in util ==> before[n] == util[n])
            && ForgetUtil(util, Restrict(m, done + {n}), keep)
               == if n in util && n !in keep then before[n := Discharge(util[n], m[n].Cpus())] else before
  {
  }

  class PerNodeAllocatedClaims {
    var allocations: Allocations
    var utilisation: map<NodeName, UtilMap>

    constructor ()
      ensures allocations == map[] && utilisation == map[]
    {
      allocations := map[];
      utilisation := map[];
    }

    method Exists(uid: Uid, node: NodeName) returns (exists_: bool)
      ensures exists_ <==> uid in PendingOn(allocations, node)
    {
      if uid !in allocations {
        return false;
      }
      return node in allocations[uid];
    }

    /** The reserved cpuset, or the zero value if there is none. */
    method Get(uid: Uid, node: NodeName) returns (a: AllocatedCpuset)
      ensures a == if uid in PendingOn(allocations, node) then PendingOn(allocations, node)[uid] else NoRtCpu
    {
      var present := Exists(uid, node);
      if !present {
        return NoRtCpu;
      }
      return allocations[uid][node];
    }

    /** Records a reservation; the zero value is ignored. */
    method Set(uid: Uid, node: NodeName, devices: AllocatedCpuset)
      modifies this`allocations
      ensures allocations
              == if devices.NoRtCpu? then old(allocations) else Reserve(old(allocations), node, map[uid := devices])
    {
      if devices.NoRtCpu? {
        return;
      }
      if uid !in allocations {
        allocations := allocations[uid := map[]];
      }
      allocations := allocations[uid := allocations[uid][node := devices]];
    }

    method SetUtil(node: NodeName, devices: UtilMap)
      modifies this`utilisation
      ensures utilisation == old(utilisation)[node := devices]
    {
      if node !in utilisation {
        utilisation := utilisation[node := map[]];
      }
      utilisation := utilisation[node := devices];
    }

    /** Drops one node's reservation and leaves every other one alone. */
    method RemoveNode(uid: Uid, node: NodeName)
      modifies this`allocations
      ensures PendingOn(allocations, node) == PendingOn(old(allocations), node) - {uid}
      ensures forall n :: n != node ==> PendingOn(allocations, n) == PendingOn(old(allocations), n)
    {
      if uid !in allocations {
        return;
      }
      allocations := allocations[uid := allocations[uid] - {node}];
    }

    /** Drops a claim's reservations on all nodes. */
    method Remove(uid: Uid)
      modifies this`allocations
      ensures allocations == old(allocations) - {uid}
    {
      allocations := allocations - {uid};
    }

    /** One node's utilisation less the entries of a reservation, each clamped at zero. */
    method Subtract(util: UtilMap, cpuset: seq<AllocatedCpu>) returns (r: UtilMap)
      requires forall i :: 0 <= i < |cpuset| ==> cpuset[i].period != 0
      ensures r == Discharge(util, cpuset)
    {
      r := util;
      for i := 0 to |cpuset|
        invariant r == Discharge(util, cpuset[..i])
      {
        assert cpuset[..i + 1][..i] == cpuset[..i];
        var cpu := cpuset[i];
        var newUtil := Lookup(r, cpu.id) - Share(cpu.runtime, cpu.period);
        if newUtil < 0 {
          newUtil := 0;
        }
        r := r[cpu.id := newUtil];
      }
      assert cpuset[..|cpuset|] == cpuset;
    }

    /** Every reservation of the claim is non-nil and divides by a period. */
    ghost predicate Usable(uid: Uid)
      reads this`allocations
    {
      forall n <- EntriesOf(allocations, uid) ::
        EntriesOf(allocations, uid)[n].RtCpu? && forall c <- EntriesOf(allocations, uid)[n].cpuset :: c.period != 0
    }

    /** Takes a claim's reservations off the shadow utilisation of every node but `keep`. */
    method RemoveUtilExcept(uid: Uid, keep: set<NodeName>)
      requires Usable(uid)
      modifies this`utilisation
      ensures utilisation == ForgetUtil(old(utilisation), EntriesOf(allocations, uid), keep)
    {
      hide ForgetUtil, Restrict;
      var entries := EntriesOf(allocations, uid);
      var todo, done := entries.Keys, {};
      RestrictAll(entries);
      ForgetNothing(utilisation, keep);
      while todo != {}
        invariant todo + done == entries.Keys && todo !! done
        invariant utilisation == ForgetUtil(old(utilisation), Restrict(entries, done), keep)
        decreases |todo|
      {
        var node := NextKey(todo);
        ForgetNext(old(utilisation), entries, done, keep, node);
        if node in utilisation && node !in keep {
          var util := Subtract(utilisation[node], entries[node].cpuset);
          utilisation := utilisation[node := util];
        }
        todo, done := todo - {node}, done + {node};
      }
      assert done == entries.Keys;
    }

    method RemoveUtil(uid: Uid)
      requires Usable(uid)
      modifies this`utilisation
      ensures utilisation == ForgetUtil(old(utilisation), EntriesOf(allocations, uid), {})
    {
      RemoveUtilExcept(uid, {});
    }

    method RemoveUtilOtherNodes(uid: Uid, currentNode: NodeName)
      requires Usable(uid)
      modifies this`utilisation
      ensures utilisation == ForgetUtil(old(utilisation), EntriesOf(allocations, uid), {currentNode})
    {
      RemoveUtilExcept(uid, {currentNode});
    }
  }
}
