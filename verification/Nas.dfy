/**
 The stored per-node object (`NodeAllocationState`) and the arithmetic on its
 per-CPU ledger.

 CPU identifiers are integers.  The ledger's JSON keys are their decimal strings;
 module `Decimal` shows that translation to be lossless.  A nil ledger and an
 empty one are the same value here, because the field is marshalled with
 `omitempty`.
 */
module Nas {

  type CpuId = int
  type Uid = string
  type NodeName = string
  type UtilMap = map<CpuId, int>

  /** The admission threshold, in per mille of one CPU. */
  const THRESHOLD := 950

  datatype Option<+T> = None | Some(value: T)

  datatype AllocatableCpu = AllocatableCpu(id: CpuId, util: int)

  datatype AllocatedCpu = AllocatedCpu(id: CpuId, runtime: int, period: int)

  /** `NoRtCpu` is the zero value, whose `RtCpu` pointer is nil. */
  datatype AllocatedCpuset =
    | NoRtCpu
    | RtCpu(cpuset: seq<AllocatedCpu>, cgroupUID: string)
  {
    function Cpus(): seq<AllocatedCpu> {
      if RtCpu? then cpuset else []
    }
  }

  datatype PreparedCpu = PreparedCpu(id: CpuId, util: int)

  datatype PreparedCpuset =
    | NoPrepared
    | PreparedRtCpu(cpuset: seq<PreparedCpu>)

  type Claims = map<Uid, AllocatedCpuset>

  datatype NodeSpec = NodeSpec(
    allocatable: seq<AllocatableCpu>,
    claims: Claims,
    prepared: map<Uid, PreparedCpuset>,
    util: UtilMap)

  /** The next key of a map iteration, whose order is unspecified. */
  method NextKey<K>(todo: set<K>) returns (k: K)
    requires todo != {}
    ensures k in todo
  {
    k :| k in todo;
  }

  // ----- Shares -----

  /** Go's integer division, which truncates toward zero. */
  function GoDiv(a: int, b: int): int
    requires b != 0
  {
    var q := (if a < 0 then -a else a) / (if b < 0 then -b else b);
    if (a < 0) != (b < 0) then -q else q
  }

  /** The bandwidth of one reservation, in per mille, truncated. */
  function Share(runtime: int, period: int): int
    requires period != 0
  {
    GoDiv(runtime * 1000, period)
  }

  /** What one CPU entry adds to the ledger; entries without a period are skipped. */
  function CpuShare(cpu: AllocatedCpu): int {
    if cpu.period == 0 then 0 else Share(cpu.runtime, cpu.period)
  }

  predicate GoodCpu(cpu: AllocatedCpu) {
    cpu.runtime >= 0 && cpu.period > 0
  }

  lemma ShareNonNegative(runtime: int, period: int)
    requires runtime >= 0 && period > 0
    ensures Share(runtime, period) == runtime * 1000 / period
    ensures Share(runtime, period) >= 0
  {
  }

  /** The share that a list of entries places on CPU `k`. */
  function ShareOn(cpus: seq<AllocatedCpu>, k: CpuId): int {
    if cpus == [] then 0
    else
      var last := cpus[|cpus| - 1];
      ShareOn(cpus[..|cpus| - 1], k) + if last.id == k then CpuShare(last) else 0
  }

  lemma {:induction false} ShareOnNonNegative(cpus: seq<AllocatedCpu>, k: CpuId)
    requires forall c <- cpus :: GoodCpu(c)
    ensures ShareOn(cpus, k) >= 0
  {
    if cpus != [] {
      var last := cpus[|cpus| - 1];
      assert last in cpus;
      ShareOnNonNegative(cpus[..|cpus| - 1], k);
      ShareNonNegative(last.runtime, last.period);
    }
  }

  function Ids(cpus: seq<AllocatedCpu>): set<CpuId> {
    set c <- cpus :: c.id
  }

  // ----- The ledger -----

  /** Go's map read: an absent CPU reads as zero. */
  function Lookup(u: UtilMap, k: CpuId): int {
    if k in u then u[k] else 0
  }

  /** The ledger a node starts with; of several entries for one CPU the last counts. */
  function InitUtil(allocatable: seq<AllocatableCpu>): UtilMap {
    if allocatable == [] then map[]
    else
      var last := allocatable[|allocatable| - 1];
      InitUtil(allocatable[..|allocatable| - 1])[last.id := last.util]
  }

  /** The ledger an operation works on: the stored one, or the initial one if none is stored. */
  function Ledger(spec: NodeSpec): UtilMap {
    if spec.util == map[] then InitUtil(spec.allocatable) else spec.util
  }

  /** The ledger after the entries of one claim were added, first to last. */
  function Charge(u: UtilMap, cpus: seq<AllocatedCpu>): UtilMap {
    if cpus == [] then u
    else
      var last := cpus[|cpus| - 1];
      var u' := Charge(u, cpus[..|cpus| - 1]);
      if last.period == 0 then u' else u'[last.id := Lookup(u', last.id) + CpuShare(last)]
  }

  function Clamped(x: int): int {
    if x < 0 then 0 else x
  }

  /** The utilisation after the entries of one claim were subtracted, each clamped at zero. */
  function Discharge(u: UtilMap, cpus: seq<AllocatedCpu>): UtilMap {
    if cpus == [] then u
    else
      var last := cpus[|cpus| - 1];
      var u' := Discharge(u, cpus[..|cpus| - 1]);
      u'[last.id := Clamped(Lookup(u', last.id) - CpuShare(last))]
  }

  /** Release's variant of `Discharge`: CPUs without a ledger entry are skipped. */
  function DischargeListed(u: UtilMap, cpus: seq<AllocatedCpu>): UtilMap {
    if cpus == [] then u
    else
      var last := cpus[|cpus| - 1];
      var u' := DischargeListed(u, cpus[..|cpus| - 1]);
      if last.id in u' then u'[last.id := Clamped(u'[last.id] - CpuShare(last))] else u'
  }

  /** Charging adds exactly the claim's share to each CPU. */
  lemma {:induction false} ChargeAdds(u: UtilMap, cpus: seq<AllocatedCpu>)
    requires forall c <- cpus :: GoodCpu(c)
    requires Ids(cpus) <= u.Keys
    ensures Charge(u, cpus) == map k | k in u :: u[k] + ShareOn(cpus, k)
  {
    if cpus != [] {
      var front := cpus[..|cpus| - 1];
      assert cpus[|cpus| - 1] in cpus;
      assert forall c <- front :: c in cpus;
      ChargeAdds(u, front);
    }
  }

  /**
   Subtracting a claim from a ledger that covers it takes away exactly its share:
   neither clamp fires, no entry is missing, and both variants agree.
   */
  lemma {:induction false} DischargeSubtracts(u: UtilMap, cpus: seq<AllocatedCpu>)
    requires forall c <- cpus :: GoodCpu(c)
    requires Ids(cpus) <= u.Keys
    requires forall k <- u :: u[k] >= ShareOn(cpus, k)
    ensures Discharge(u, cpus).Keys == u.Keys
    ensures forall k <- u :: Discharge(u, cpus)[k] == u[k] - ShareOn(cpus, k)
    ensures DischargeListed(u, cpus) == Discharge(u, cpus)
  {
    if cpus != [] {
      var front := cpus[..|cpus| - 1];
      var last := cpus[|cpus| - 1];
      assert last in cpus;
      assert forall c <- front :: c in cpus;
      var share := CpuShare(last);
      assert share >= 0 by {
        ShareNonNegative(last.runtime, last.period);
      }
      assert forall k <- u :: ShareOn(cpus, k) == ShareOn(front, k) + if last.id == k then share else 0;
      DischargeSubtracts(u, front);
    }
  }

  // ----- The object -----

  class NodeAllocationState {
    var spec: NodeSpec
    var ready: bool

    constructor (spec: NodeSpec, ready: bool)
      ensures this.spec == spec && this.ready == ready
    {
      this.spec := spec;
      this.ready := ready;
    }

    /** Adds the shares of the claim recorded under `uid` to the ledger. */
    method SetUtilisation(uid: Uid)
      modifies this`spec
      ensures spec == old(spec).(util :=
                if uid in old(spec).claims then Charge(old(spec).util, old(spec).claims[uid].Cpus())
                else old(spec).util)
    {
      if uid !in spec.claims || spec.claims[uid].NoRtCpu? {
        return;
      }
      var cpus := spec.claims[uid].cpuset;
      for i := 0 to |cpus|
        invariant spec == old(spec).(util := Charge(old(spec).util, cpus[..i]))
      {
        var cpu := cpus[i];
        assert cpus[..i + 1][..i] == cpus[..i];
        if cpu.period == 0 {
          continue;
        }
        var claimUtil := Share(cpu.runtime, cpu.period);
        spec := spec.(util := spec.util[cpu.id := claimUtil + Lookup(spec.util, cpu.id)]);
      }
      assert cpus[..|cpus|] == cpus;
    }

    /** The nil checks every operation makes after fetching the object. */
    method InitialiseLedger()
      modifies this`spec
      ensures spec == old(spec).(util := Ledger(old(spec)))
    {
      if spec.util == map[] {
        var utils: UtilMap := map[];
        for i := 0 to |spec.allocatable|
          invariant utils == InitUtil(spec.allocatable[..i])
          invariant spec == old(spec)
        {
          var cpu := spec.allocatable[i];
          assert spec.allocatable[..i + 1][..i] == spec.allocatable[..i];
          utils := utils[cpu.id := cpu.util];
        }
        assert spec.allocatable[..|spec.allocatable|] == spec.allocatable;
        spec := spec.(util := utils);
      }
    }
  }
}
