/**
 The kubelet plugin's device state: preparing and unpreparing allocated claims, and
 exchanging its view with the node's stored object.
 */
module Plugin {
  import opened Nas
  import opened Demand

  datatype RtCpuInfo = RtCpuInfo(id: CpuId, util: int)

  datatype PreparedRtCpuInfo = PreparedRtCpuInfo(id: CpuId, util: int, runtime: int, period: int)

  datatype PreparedDevices =
    | UnknownDevices
    | RtCpus(cpuset: seq<PreparedRtCpuInfo>)

  type PreparedClaims = map<Uid, PreparedDevices>

  /** The plugin's CPUs, by the index under which they were enumerated. */
  type Allocatable = map<int, RtCpuInfo>

  // ----- What is prepared for an allocation -----

  /** One prepared entry; the period is not carried over. */
  function PreparedCpuOf(cpu: AllocatedCpu): PreparedRtCpuInfo
    requires cpu.period != 0
  {
    PreparedRtCpuInfo(cpu.id, Share(cpu.runtime, cpu.period), cpu.runtime, 0)
  }

  function PreparedOf(cpus: seq<AllocatedCpu>): (p: seq<PreparedRtCpuInfo>)
    requires forall i :: 0 <= i < |cpus| ==> cpus[i].period != 0
    ensures |p| == |cpus| && forall i :: 0 <= i < |p| ==> p[i] == PreparedCpuOf(cpus[i])
  {
    seq(|cpus|, i requires 0 <= i < |cpus| => PreparedCpuOf(cpus[i]))
  }

  // ----- The stored form -----

  function StoredCpus(cpus: seq<PreparedRtCpuInfo>): (p: seq<PreparedCpu>)
    ensures |p| == |cpus| && forall i :: 0 <= i < |p| ==> p[i] == PreparedCpu(cpus[i].id, cpus[i].util)
  {
    seq(|cpus|, i requires 0 <= i < |cpus| => PreparedCpu(cpus[i].id, cpus[i].util))
  }

  function Stored(m: PreparedClaims): map<Uid, PreparedCpuset> {
    map u | u in m :: if m[u].RtCpus? then PreparedRtCpu(StoredCpus(m[u].cpuset)) else NoPrepared
  }

  /** The stored form of the claims in `done`, all of which have their devices. */
  ghost predicate StoredSoFar(out: map<Uid, PreparedCpuset>, m: PreparedClaims, done: set<Uid>) {
    && out.Keys == done && done <= m.Keys
    && forall u <- done :: m[u].RtCpus? && out[u] == PreparedRtCpu(StoredCpus(m[u].cpuset))
  }

  lemma StoredStart(m: PreparedClaims)
    ensures StoredSoFar(map[], m, {})
  {
  }

  lemma StoredNext(out: map<Uid, PreparedCpuset>, m: PreparedClaims, done: set<Uid>, u: Uid)
    requires StoredSoFar(out, m, done) && u in m && m[u].RtCpus?
    ensures StoredSoFar(out[u := PreparedRtCpu(StoredCpus(m[u].cpuset))], m, done + {u})
  {
  }

  lemma StoredEnd(out: map<Uid, PreparedCpuset>, m: PreparedClaims)
    requires StoredSoFar(out, m, m.Keys)
    ensures out == Stored(m)
    ensures !exists u :: u in m && m[u].UnknownDevices?
  {
  }

  /** Rebuilding looks every stored CPU up by its identifier. */
  function RebuiltCpus(cpus: Allocatable, stored: seq<PreparedCpu>): (p: seq<PreparedRtCpuInfo>)
    requires forall i :: 0 <= i < |stored| ==> stored[i].id in cpus
    ensures |p| == |stored|
    ensures forall i :: 0 <= i < |p| ==> p[i] == PreparedRtCpuInfo(cpus[stored[i].id].id, cpus[stored[i].id].util, 0, 0)
  {
    seq(|stored|, i requires 0 <= i < |stored| =>
      PreparedRtCpuInfo(cpus[stored[i].id].id, cpus[stored[i].id].util, 0, 0))
  }

  predicate KnownDevices(cpus: Allocatable, d: PreparedCpuset) {
    d.PreparedRtCpu? && forall i :: 0 <= i < |d.cpuset| ==> d.cpuset[i].id in cpus
  }

  predicate Known(cpus: Allocatable, m: map<Uid, PreparedCpuset>) {
    forall u <- m :: KnownDevices(cpus, m[u])
  }

  function Rebuilt(cpus: Allocatable, m: map<Uid, PreparedCpuset>): PreparedClaims
    requires Known(cpus, m)
  {
    map u | u in m :: RtCpus(RebuiltCpus(cpus, m[u].cpuset))
  }

  ghost predicate RebuiltSoFar(out: PreparedClaims, cpus: Allocatable, m: map<Uid, PreparedCpuset>, done: set<Uid>) {
    && out.Keys == done && done <= m.Keys
    && forall u <- done :: KnownDevices(cpus, m[u]) && out[u] == RtCpus(RebuiltCpus(cpus, m[u].cpuset))
  }

  lemma RebuiltStart(cpus: Allocatable, m: map<Uid, PreparedCpuset>)
    ensures RebuiltSoFar(map[], cpus, m, {})
  {
  }

  lemma RebuiltNext(out: PreparedClaims, cpus: Allocatable, m: map<Uid, PreparedCpuset>, done: set<Uid>, u: Uid)
    requires RebuiltSoFar(out, cpus, m, done) && u in m && KnownDevices(cpus, m[u])
    ensures RebuiltSoFar(out[u := RtCpus(RebuiltCpus(cpus, m[u].cpuset))], cpus, m, done + {u})
  {
  }

  lemma RebuiltEnd(out: PreparedClaims, cpus: Allocatable, m: map<Uid, PreparedCpuset>)
    requires RebuiltSoFar(out, cpus, m, m.Keys)
    ensures Known(cpus, m) && out == Rebuilt(cpus, m)
  {
  }

  /** The identifiers a claim was prepared on, in order. */
  function PreparedIds(d: PreparedDevices): (ids: seq<CpuId>)
    ensures d.RtCpus? ==> |ids| == |d.cpuset| && forall i :: 0 <= i < |ids| ==> ids[i] == d.cpuset[i].id
  {
    if d.RtCpus? then seq(|d.cpuset|, i requires 0 <= i < |d.cpuset| => d.cpuset[i].id) else []
  }

  /** Every CPU in use is enumerated under its own identifier. */
  predicate OwnIds(cpus: Allocatable, m: PreparedClaims) {
    forall u <- m, i | m[u].RtCpus? && 0 <= i < |m[u].cpuset| ::
      m[u].cpuset[i].id in cpus && cpus[m[u].cpuset[i].id].id == m[u].cpuset[i].id
  }

  /**
   A restart can rebuild what was written exactly if every claim has its devices and the
   identifier of every CPU in use is some CPU's index; otherwise it ends with an error or
   a nil dereference.
   */
  lemma RestartKnows(cpus: Allocatable, m: PreparedClaims)
    ensures Known(cpus, Stored(m))
       <==> forall u <- m :: m[u].RtCpus? && forall i :: 0 <= i < |m[u].cpuset| ==> m[u].cpuset[i].id in cpus
  {
    if Known(cpus, Stored(m)) {
      forall u | u in m
        ensures m[u].RtCpus? && forall i :: 0 <= i < |m[u].cpuset| ==> m[u].cpuset[i].id in cpus
      {
        assert KnownDevices(cpus, Stored(m)[u]);
        assert forall i :: 0 <= i < |m[u].cpuset| ==> Stored(m)[u].cpuset[i].id == m[u].cpuset[i].id;
      }
    }
  }

  /**
   If it can, it keeps the set of claims; it keeps each claim's CPUs and their order exactly
   if every CPU in use is enumerated under its own identifier.
   */
  lemma RestartRoundTrip(cpus: Allocatable, m: PreparedClaims)
    requires Known(cpus, Stored(m))
    ensures Rebuilt(cpus, Stored(m)).Keys == m.Keys
    ensures (forall u <- m :: PreparedIds(Rebuilt(cpus, Stored(m))[u]) == PreparedIds(m[u])) <==> OwnIds(cpus, m)
  {
    var r := Rebuilt(cpus, Stored(m));
    forall u | u in m
      ensures m[u].RtCpus? && r[u].RtCpus? && |r[u].cpuset| == |m[u].cpuset|
      ensures forall i :: 0 <= i < |m[u].cpuset| ==>
                m[u].cpuset[i].id in cpus && r[u].cpuset[i].id == cpus[m[u].cpuset[i].id].id
    {
      assert KnownDevices(cpus, Stored(m)[u]);
      assert forall i :: 0 <= i < |m[u].cpuset| ==> Stored(m)[u].cpuset[i].id == m[u].cpuset[i].id;
    }
    if OwnIds(cpus, m) {
      forall u | u in m
        ensures PreparedIds(r[u]) == PreparedIds(m[u])
      {
      }
    }
    if forall u <- m :: PreparedIds(r[u]) == PreparedIds(m[u]) {
      forall u, i | u in m && 0 <= i < |m[u].cpuset|
        ensures cpus[m[u].cpuset[i].id].id == m[u].cpuset[i].id
      {
        assert PreparedIds(r[u])[i] == PreparedIds(m[u])[i];
      }
    }
  }

  // ----- The enumerated CPUs -----

  /** `b` has exactly the enumerated identifiers, each with the utilisation of a CPU enumerated under it. */
  ghost predicate Enumerates(b: UtilMap, cpus: Allocatable) {
    && (forall i <- cpus :: cpus[i].id in b)
    && (forall k <- b :: exists i :: i in cpus && cpus[i] == RtCpuInfo(k, b[k]))
  }

  ghost predicate ById(m: map<CpuId, AllocatableCpu>, cpus: Allocatable, done: set<int>) {
    && (forall i <- done :: i in cpus && cpus[i].id in m)
    && (forall k <- m :: m[k].id == k && exists i :: i in done && i in cpus && cpus[i] == RtCpuInfo(k, m[k].util))
  }

  lemma ByIdStarts(cpus: Allocatable)
    ensures ById(map[], cpus, {})
  {
  }

  lemma ByIdNext(m: map<CpuId, AllocatableCpu>, cpus: Allocatable, done: set<int>, i: int)
    requires ById(m, cpus, done) && i in cpus
    ensures ById(m[cpus[i].id := AllocatableCpu(cpus[i].id, cpus[i].util)], cpus, done + {i})
  {
  }

  ghost function UtilsOf(m: map<CpuId, AllocatableCpu>, taken: set<CpuId>): UtilMap {
    map k | k in m && k in taken :: m[k].util
  }

  lemma ListNext(list: seq<AllocatableCpu>, m: map<CpuId, AllocatableCpu>, taken: set<CpuId>, id: CpuId)
    requires InitUtil(list) == UtilsOf(m, taken) && id in m && m[id].id == id
    ensures InitUtil(list + [m[id]]) == UtilsOf(m, taken + {id})
  {
  }

  lemma ByIdEnumerates(m: map<CpuId, AllocatableCpu>, cpus: Allocatable)
    requires ById(m, cpus, cpus.Keys)
    ensures Enumerates(UtilsOf(m, m.Keys), cpus)
  {
  }

  /** The enumeration gives every CPU utilisation zero, so the base it leads to does not depend on the order. */
  lemma EnumeratedBase(b: UtilMap, b': UtilMap, cpus: Allocatable)
    requires Enumerates(b, cpus) && Enumerates(b', cpus)
    requires forall i <- cpus :: cpus[i].util == 0
    ensures b == b' && GoodBase(b)
  {
    forall k
      ensures k in b <==> k in b'
      ensures k in b ==> b[k] == 0
      ensures k in b' ==> b'[k] == 0
    {
      if k in b {
        var i :| i in cpus && cpus[i] == RtCpuInfo(k, b[k]);
      }
      if k in b' {
        var i :| i in cpus && cpus[i] == RtCpuInfo(k, b'[k]);
      }
    }
  }

  /** Any CPUs can be listed. */
  lemma {:induction false} SomeListing(cpus: Allocatable) returns (list: seq<AllocatableCpu>)
    ensures Enumerates(InitUtil(list), cpus)
    decreases |cpus|
  {
    list := [];
    if i :| i in cpus {
      var rest := SomeListing(cpus - {i});
      list := rest + [AllocatableCpu(cpus[i].id, cpus[i].util)];
      ListedOneMore(InitUtil(rest), cpus, i);
    }
  }

  lemma ListedOneMore(b: UtilMap, cpus: Allocatable, i: int)
    requires i in cpus && Enumerates(b, cpus - {i})
    ensures Enumerates(b[cpus[i].id := cpus[i].util], cpus)
  {
    var b' := b[cpus[i].id := cpus[i].util];
    forall j | j in cpus
      ensures cpus[j].id in b'
    {
      assert j != i ==> (cpus - {i})[j] == cpus[j];
    }
    forall k | k in b'
      ensures exists j :: j in cpus && cpus[j] == RtCpuInfo(k, b'[k])
    {
      if k == cpus[i].id {
        assert cpus[i] == RtCpuInfo(k, b'[k]);
      } else {
        var j :| j in cpus - {i} && (cpus - {i})[j] == RtCpuInfo(k, b[k]);
        assert cpus[j] == RtCpuInfo(k, b'[k]);
      }
    }
  }

  // ----- The device state -----

  datatype SyncResult = Synced | UnknownDeviceType | NilDereference

  class DeviceState {
    var allocatable: Allocatable
    var prepared: PreparedClaims

    constructor (allocatable: Allocatable)
      ensures this.allocatable == allocatable && prepared == map[]
    {
      this.allocatable := allocatable;
      prepared := map[];
    }

    method PrepareRtCpus(cpuset: seq<AllocatedCpu>) returns (p: seq<PreparedRtCpuInfo>)
      requires forall i :: 0 <= i < |cpuset| ==> cpuset[i].period != 0
      ensures p == PreparedOf(cpuset)
      ensures |p| == |cpuset| && forall i :: 0 <= i < |p| ==>
                && p[i].id == cpuset[i].id && p[i].util == Share(cpuset[i].runtime, cpuset[i].period)
                && p[i].runtime == cpuset[i].runtime && p[i].period == 0
    {
      p := [];
      for i := 0 to |cpuset|
        invariant |p| == i && forall j :: 0 <= j < i ==> p[j] == PreparedCpuOf(cpuset[j])
      {
        p := p + [PreparedRtCpuInfo(cpuset[i].id, Share(cpuset[i].runtime, cpuset[i].period), cpuset[i].runtime, 0)];
      }
    }

    /**
     Prepares an allocation; `filed` tells whether its spec file can be written.  The claim is
     recorded once it is, even if the device names to report turn out to be missing; a claim
     prepared before is left as it is.
     */
    method Prepare(uid: Uid, allocation: AllocatedCpuset, rtCDIDevices: Option<(string, string)>, filed: bool)
      returns (devices: Option<(string, string)>)
      requires allocation.RtCpu? ==> forall i :: 0 <= i < |allocation.cpuset| ==> allocation.cpuset[i].period != 0
      modifies this`prepared
      ensures uid in old(prepared) ==>
                && prepared == old(prepared)
                && devices == if prepared[uid].RtCpus? then rtCDIDevices else None
      ensures uid !in old(prepared) ==>
                if allocation.RtCpu? && filed
                then prepared == old(prepared)[uid := RtCpus(PreparedOf(allocation.cpuset))] && devices == rtCDIDevices
                else prepared == old(prepared) && devices.None?
    {
      if uid in prepared {
        if prepared[uid].UnknownDevices? {
          return None;
        }
        return rtCDIDevices;
      }
      if allocation.NoRtCpu? {
        return None;
      }
      var cpus := PrepareRtCpus(allocation.cpuset);
      if !filed {
        return None;
      }
      prepared := prepared[uid := RtCpus(cpus)];
      devices := rtCDIDevices;
    }

    /** Unprepares a claim; `deleted` tells whether its spec file can be deleted. */
    method Unprepare(uid: Uid, deleted: bool) returns (ok: bool)
      modifies this`prepared
      ensures ok <==> uid !in old(prepared) || (old(prepared)[uid].RtCpus? && deleted)
      ensures prepared == if ok then old(prepared) - {uid} else old(prepared)
    {
      if uid !in prepared {
        assert prepared - {uid} == prepared;
        return true;
      }
      if prepared[uid].UnknownDevices? {
        return false;
      }
      if !deleted {
        return false;
      }
      prepared := prepared - {uid};
      ok := true;
    }

    /** The CPUs by identifier; of several with one identifier an arbitrary one is kept. */
    method CpusById() returns (cpus: map<CpuId, AllocatableCpu>)
      ensures ById(cpus, allocatable, allocatable.Keys)
    {
      hide ById;
      cpus := map[];
      ByIdStarts(allocatable);
      var todo, done := allocatable.Keys, {};
      while todo != {}
        invariant todo + done == allocatable.Keys && todo !! done
        invariant ById(cpus, allocatable, done)
        decreases |todo|
      {
        var i := NextKey(todo);
        var device := allocatable[i];
        ByIdNext(cpus, allocatable, done, i);
        cpus := cpus[device.id := AllocatableCpu(device.id, device.util)];
        todo, done := todo - {i}, done + {i};
      }
      assert done == allocatable.Keys;
    }

    /** The stored list of CPUs, in an arbitrary order. */
    method ListAllocatable() returns (list: seq<AllocatableCpu>)
      ensures Enumerates(InitUtil(list), allocatable)
    {
      var cpus := CpusById();
      list := [];
      var left, taken := cpus.Keys, {};
      while left != {}
        invariant left + taken == cpus.Keys && left !! taken
        invariant InitUtil(list) == UtilsOf(cpus, taken)
        decreases |left|
      {
        var id := NextKey(left);
        ListNext(list, cpus, taken, id);
        list := list + [cpus[id]];
        left, taken := left - {id}, taken + {id};
      }
      assert taken == cpus.Keys;
      ByIdEnumerates(cpus, allocatable);
    }

    method StoreCpus(cpuset: seq<PreparedRtCpuInfo>) returns (p: seq<PreparedCpu>)
      ensures p == StoredCpus(cpuset)
    {
      p := [];
      for i := 0 to |cpuset|
        invariant |p| == i && forall j :: 0 <= j < i ==> p[j] == PreparedCpu(cpuset[j].id, cpuset[j].util)
      {
        p := p + [PreparedCpu(cpuset[i].id, cpuset[i].util)];
      }
    }

    /** The spec to write back: the plugin's fields are its own, the controller's fields are those read. */
    method GetUpdatedSpec(inspec: NodeSpec) returns (outspec: Option<NodeSpec>)
      ensures outspec.None? <==> exists u :: u in prepared && prepared[u].UnknownDevices?
      ensures outspec.Some? ==>
                && outspec.value.claims == inspec.claims && outspec.value.util == inspec.util
                && outspec.value.prepared == Stored(prepared)
                && Enumerates(InitUtil(outspec.value.allocatable), allocatable)
    {
      var list := ListAllocatable();
      var outcas := StoreClaims();
      if outcas.None? {
        return None;
      }
      outspec := Some(inspec.(allocatable := list, prepared := outcas.value));
    }

    /** The stored form of the prepared claims; a claim without devices is an error. */
    method StoreClaims() returns (out: Option<map<Uid, PreparedCpuset>>)
      ensures out.None? <==> exists u :: u in prepared && prepared[u].UnknownDevices?
      ensures out.Some? ==> out.value == Stored(prepared)
    {
      hide StoredSoFar;
      hide Stored;
      var outcas: map<Uid, PreparedCpuset> := map[];
      var todo, done := prepared.Keys, {};
      StoredStart(prepared);
      while todo != {}
        invariant todo + done == prepared.Keys && todo !! done
        invariant StoredSoFar(outcas, prepared, done)
        decreases |todo|
      {
        var uid := NextKey(todo);
        if prepared[uid].UnknownDevices? {
          return None;
        }
        var cpuset := StoreCpus(prepared[uid].cpuset);
        StoredNext(outcas, prepared, done, uid);
        outcas := outcas[uid := PreparedRtCpu(cpuset)];
        todo, done := todo - {uid}, done + {uid};
      }
      assert done == prepared.Keys;
      StoredEnd(outcas, prepared);
      out := Some(outcas);
    }

    /** Some stored CPU is not enumerated. */
    ghost predicate Unlisted(stored: seq<PreparedCpu>)
      reads this`allocatable
    {
      exists i :: 0 <= i < |stored| && stored[i].id !in allocatable
    }

    /** Looks the stored CPUs up; an identifier that is not enumerated is a nil dereference. */
    method RebuildCpus(stored: seq<PreparedCpu>) returns (cpuset: Option<seq<PreparedRtCpuInfo>>)
      ensures cpuset.Some? <==> forall i :: 0 <= i < |stored| ==> stored[i].id in allocatable
      ensures cpuset.Some? ==> cpuset.value == RebuiltCpus(allocatable, stored)
    {
      var p: seq<PreparedRtCpuInfo> := [];
      for i := 0 to |stored|
        invariant |p| == i && forall j :: 0 <= j < i ==> stored[j].id in allocatable
        invariant forall j :: 0 <= j < i ==>
                    p[j] == PreparedRtCpuInfo(allocatable[stored[j].id].id, allocatable[stored[j].id].util, 0, 0)
      {
        if stored[i].id !in allocatable {
          return None;
        }
        p := p + [PreparedRtCpuInfo(allocatable[stored[i].id].id, allocatable[stored[i].id].util, 0, 0)];
      }
      cpuset := Some(p);
    }

    /** Rebuilds the prepared claims from the stored object, as at start-up. */
    method SyncPreparedFromSpec(spec: NodeSpec) returns (r: SyncResult)
      modifies this`prepared
      ensures r.Synced? <==> Known(allocatable, spec.prepared)
      ensures r.Synced? ==> Known(allocatable, spec.prepared) && prepared == Rebuilt(allocatable, spec.prepared)
      ensures !r.Synced? ==> prepared == old(prepared)
      ensures r.UnknownDeviceType? ==> exists u :: u in spec.prepared && spec.prepared[u].NoPrepared?
      ensures r.NilDereference? ==>
                exists u :: u in spec.prepared && spec.prepared[u].PreparedRtCpu? && Unlisted(spec.prepared[u].cpuset)
    {
      var rebuilt;
      r, rebuilt := RebuildClaims(spec.prepared);
      if r.Synced? {
        prepared := rebuilt;
      }
    }

    method RebuildClaims(stored: map<Uid, PreparedCpuset>) returns (r: SyncResult, rebuilt: PreparedClaims)
      ensures r.Synced? <==> Known(allocatable, stored)
      ensures r.Synced? ==> Known(allocatable, stored) && rebuilt == Rebuilt(allocatable, stored)
      ensures r.UnknownDeviceType? ==> exists u :: u in stored && stored[u].NoPrepared?
      ensures r.NilDereference? ==>
                exists u :: u in stored && stored[u].PreparedRtCpu? && Unlisted(stored[u].cpuset)
    {
      hide RebuiltSoFar;
      hide Rebuilt;
      rebuilt := map[];
      var todo, done := stored.Keys, {};
      RebuiltStart(allocatable, stored);
      while todo != {}
        invariant todo + done == stored.Keys && todo !! done
        invariant RebuiltSoFar(rebuilt, allocatable, stored, done)
        decreases |todo|
      {
        var uid := NextKey(todo);
        var devices := stored[uid];
        if devices.NoPrepared? {
          assert !KnownDevices(allocatable, devices);
          return UnknownDeviceType, map[];
        }
        var cpuset := RebuildCpus(devices.cpuset);
        if cpuset.None? {
          assert !KnownDevices(allocatable, devices);
          return NilDereference, map[];
        }
        RebuiltNext(rebuilt, allocatable, stored, done, uid);
        rebuilt := rebuilt[uid := RtCpus(cpuset.value)];
        todo, done := todo - {uid}, done + {uid};
      }
      assert done == stored.Keys;
      RebuiltEnd(rebuilt, allocatable, stored);
      r := Synced;
    }
  }
}
