/**
 The controller and the node plugins together, sharing each node's stored object: who
 writes which fields, and how the prepared load relates to the committed ledger.

 A read-modify-write of the object by one process is one step here.
 */
module Ownership {
  import opened Nas
  import opened Demand
  import opened Packing
  import opened Reservation
  import opened Cluster
  import opened Plugin

  /** `memory` holds the prepared claims of every running plugin. */
  datatype Joint = Joint(cluster: State, memory: map<NodeName, PreparedClaims>)

  datatype Step =
    | Control(action: Action)
    | Create(node: NodeName, write: WriteOutcome)
    | Start(node: NodeName, list: seq<AllocatableCpu>, write: WriteOutcome)
    | Stop(node: NodeName)
    | Status(node: NodeName, ready: bool)
    | Prepare(node: NodeName, uid: Uid, faults: Faults, list: seq<AllocatableCpu>, write: WriteOutcome)
    | Unprepare(node: NodeName, uid: Uid, deleted: bool, list: seq<AllocatableCpu>, write: WriteOutcome)

  /** What can go wrong around a prepare: no device names, spec file not written, spec file not deleted. */
  datatype Faults = Faults(named: bool, filed: bool, deleted: bool)

  // ----- The plugin's operations on one node -----

  function SpecFrom(spec: NodeSpec, list: seq<AllocatableCpu>, m: PreparedClaims): NodeSpec {
    spec.(allocatable := list, prepared := Stored(m))
  }

  function AfterWrite(obj: NodeObject, list: seq<AllocatableCpu>, m: PreparedClaims, write: WriteOutcome): NodeObject
  {
    if write.Rejected? then obj else obj.(spec := SpecFrom(obj.spec, list, m))
  }

  predicate Dividable(claims: Claims, uid: Uid) {
    CommittedWithCpus(claims, uid) ==>
      forall i :: 0 <= i < |claims[uid].cpuset| ==> claims[uid].cpuset[i].period != 0
  }

  predicate CommittedWithCpus(claims: Claims, uid: Uid) {
    uid in claims && claims[uid].RtCpu?
  }

  function WithPrepared(m: PreparedClaims, claims: Claims, uid: Uid, filed: bool): PreparedClaims
    requires Dividable(claims, uid)
  {
    if uid !in m && CommittedWithCpus(claims, uid) && filed
    then m[uid := RtCpus(PreparedOf(claims[uid].cpuset))]
    else m
  }

  function WithoutPrepared(m: PreparedClaims, uid: Uid, deleted: bool): PreparedClaims {
    if uid in m && m[uid].RtCpus? && deleted then m - {uid} else m
  }

  predicate AllHaveDevices(m: PreparedClaims) {
    forall u <- m :: m[u].RtCpus?
  }

  /** Preparing: a claim whose write back fails is unprepared again, even one prepared earlier. */
  function Prepared(
      m: PreparedClaims, obj: NodeObject, uid: Uid, faults: Faults, list: seq<AllocatableCpu>,
      write: WriteOutcome): (PreparedClaims, NodeObject)
    requires Dividable(obj.spec.claims, uid)
  {
    var m' := WithPrepared(m, obj.spec.claims, uid, faults.filed);
    if !faults.named || uid !in m' || !AllHaveDevices(m') then (m', obj)
    else (if write.Applied? then m' else WithoutPrepared(m', uid, faults.deleted), AfterWrite(obj, list, m', write))
  }

  /** Unpreparing: a claim that could not be removed ends the operation; a failed write back does not restore it. */
  function Unprepared(
      m: PreparedClaims, obj: NodeObject, uid: Uid, deleted: bool, list: seq<AllocatableCpu>,
      write: WriteOutcome): (PreparedClaims, NodeObject)
  {
    var m' := WithoutPrepared(m, uid, deleted);
    if uid in m' || !AllHaveDevices(m') then (m', obj)
    else (m', AfterWrite(obj, list, m', write))
  }

  /** Starting: the prepared claims are rebuilt from the stored object, which is then written back. */
  function Started(
      cpus: Allocatable, obj: NodeObject, list: seq<AllocatableCpu>,
      write: WriteOutcome): (Option<PreparedClaims>, NodeObject)
  {
    if !Known(cpus, obj.spec.prepared) then (None, obj)
    else
      var m := Rebuilt(cpus, obj.spec.prepared);
      (if write.Applied? then Some(m) else None, AfterWrite(obj, list, m, write))
  }

  /** The writes of a plugin's start: creating the object, declaring it not ready, its spec, and declaring it ready. */
  datatype StartWrites = StartWrites(
    create: WriteOutcome, notReady: WriteOutcome, spec: WriteOutcome, ready: WriteOutcome)

  function AfterStatus(obj: NodeObject, ready: bool, write: WriteOutcome): NodeObject {
    if write.Rejected? then obj else obj.(ready := ready)
  }

  /**
   A whole start: the object is fetched or created, and every write may end it.  Without claims the
   start has failed.
   */
  function StartedUp(
      cpus: Allocatable, api: Option<NodeObject>, list: seq<AllocatableCpu>,
      w: StartWrites): (Option<PreparedClaims>, Option<NodeObject>)
  {
    if api.None? && !w.create.Applied? then (None, if w.create.Rejected? then None else Some(BLANK))
    else
      var obj := AfterStatus(if api.Some? then api.value else BLANK, false, w.notReady);
      if !w.notReady.Applied? then (None, Some(obj))
      else
        var (m, obj') := Started(cpus, obj, list, w.spec);
        if m.None? then (None, Some(obj'))
        else (if w.ready.Applied? then m else None, Some(AfterStatus(obj', true, w.ready)))
  }

  /** A node's object as its plugin first creates it. */
  const BLANK := NodeObject(NodeSpec([], map[], map[], map[]), false)

  // ----- The joint state machine -----

  /** `uid` is prepared on `n`, according to the plugin or to the stored object. */
  predicate PreparedOn(s: Joint, n: NodeName, uid: Uid) {
    || (n in s.memory && uid in s.memory[n])
    || (n in s.cluster.store && uid in s.cluster.store[n].spec.prepared)
  }

  function With(s: Joint, n: NodeName, m: PreparedClaims, obj: NodeObject): Joint {
    Joint(s.cluster.(store := s.cluster.store[n := obj]), s.memory[n := m])
  }

  /** One step of either process; claims are released only once they are no longer prepared. */
  ghost predicate NextJoint(cpus: map<NodeName, Allocatable>, s: Joint, a: Step, s': Joint) {
    match a
    case Control(action) =>
      && (action.Probe? || action.Commit? || action.Release?)
      && Next(s.cluster, action, s'.cluster)
      && s'.memory == s.memory
      && (action.Release? ==> !PreparedOn(s, action.node, action.uid))
    case Create(n, write) =>
      && n in cpus && n !in s.cluster.store
      && s' == if write.Rejected? then s else s.(cluster := s.cluster.(store := s.cluster.store[n := BLANK]))
    case Start(n, list, write) =>
      && n in cpus && (write.Rejected? || Enumerates(InitUtil(list), cpus[n]))
      && n in s.cluster.store
      && var (m, obj) := Started(cpus[n], s.cluster.store[n], list, write);
         s' == Joint(
                 s.cluster.(store := s.cluster.store[n := obj]),
                 if m.Some? then s.memory[n := m.value] else s.memory - {n})
    case Stop(n) =>
      s' == s.(memory := s.memory - {n})
    case Status(n, ready) =>
      // A plugin declares its node ready only once it runs.
      && n in s.cluster.store && (ready ==> n in s.memory)
      && var store := s.cluster.store;
         s' == s.(cluster := s.cluster.(store := store[n := store[n].(ready := ready)]))
    case Prepare(n, uid, faults, list, write) =>
      && n in cpus && (write.Rejected? || Enumerates(InitUtil(list), cpus[n]))
      && n in s.memory && n in s.cluster.store && Dividable(s.cluster.store[n].spec.claims, uid)
      && var (m, obj) := Prepared(s.memory[n], s.cluster.store[n], uid, faults, list, write);
         s' == With(s, n, m, obj)
    case Unprepare(n, uid, deleted, list, write) =>
      && n in cpus && (write.Rejected? || Enumerates(InitUtil(list), cpus[n]))
      && n in s.memory && n in s.cluster.store
      && var (m, obj) := Unprepared(s.memory[n], s.cluster.store[n], uid, deleted, list, write);
         s' == With(s, n, m, obj)
  }

  ghost predicate JointRun(cpus: map<NodeName, Allocatable>, states: seq<Joint>, steps: seq<Step>) {
    && |states| == |steps| + 1
    && states[0] == Joint(EMPTY, map[])
    && forall i :: 0 <= i < |steps| ==> NextJoint(cpus, states[i], steps[i], states[i + 1])
  }

  /** Consecutive steps of both processes, from any state. */
  ghost predicate JointSegment(cpus: map<NodeName, Allocatable>, states: seq<Joint>, steps: seq<Step>) {
    && |states| == |steps| + 1
    && forall i :: 0 <= i < |steps| ==> NextJoint(cpus, states[i], steps[i], states[i + 1])
  }

  function ObjectOf(s: Joint, n: NodeName): Option<NodeObject> {
    if n in s.cluster.store then Some(s.cluster.store[n]) else None
  }

  lemma JointStep(cpus: map<NodeName, Allocatable>, states: seq<Joint>, steps: seq<Step>, a: Step, s: Joint)
    requires JointSegment(cpus, states, steps) && NextJoint(cpus, states[|steps|], a, s)
    ensures JointSegment(cpus, states + [s], steps + [a])
  {
    hide NextJoint;
  }

  /** Creating the object if there is none, and declaring it not ready. */
  lemma StartingSteps(cpus: map<NodeName, Allocatable>, s: Joint, n: NodeName, w: StartWrites)
    returns (states: seq<Joint>, steps: seq<Step>)
    requires n in cpus && n !in s.memory
    ensures JointSegment(cpus, states, steps) && states[0] == s
    ensures var s' := states[|steps|];
            && s'.memory == s.memory
            && ObjectOf(s', n)
               == if ObjectOf(s, n).None? && !w.create.Applied? then (if w.create.Rejected? then None else Some(BLANK))
                  else Some(AfterStatus(
                              if ObjectOf(s, n).Some? then ObjectOf(s, n).value else BLANK, false, w.notReady))
  {
    hide Next, Enumerates;
    states, steps := [s], [];
    var s1 := s;
    if n !in s.cluster.store {
      s1 := if w.create.Rejected? then s else s.(cluster := s.cluster.(store := s.cluster.store[n := BLANK]));
      JointStep(cpus, states, steps, Create(n, w.create), s1);
      states, steps := states + [s1], steps + [Create(n, w.create)];
    }
    if n in s.cluster.store || w.create.Applied? {
      if !w.notReady.Rejected? {
        var s2 := s1.(cluster := s1.cluster.(store := s1.cluster.store[n := s1.cluster.store[n].(ready := false)]));
        JointStep(cpus, states, steps, Status(n, false), s2);
        states, steps := states + [s2], steps + [Status(n, false)];
      }
    }
  }

  /** A whole start is a sequence of steps of the joint machine. */
  lemma StartUpIsSteps(
      cpus: map<NodeName, Allocatable>, s: Joint, n: NodeName, list: seq<AllocatableCpu>, w: StartWrites)
    returns (states: seq<Joint>, steps: seq<Step>)
    requires n in cpus && n !in s.memory && (w.spec.Rejected? || Enumerates(InitUtil(list), cpus[n]))
    ensures JointSegment(cpus, states, steps) && states[0] == s
    ensures var (m, obj) := StartedUp(cpus[n], ObjectOf(s, n), list, w);
            && ObjectOf(states[|steps|], n) == obj
            && states[|steps|].memory == if m.Some? then s.memory[n := m.value] else s.memory
  {
    hide Next, Enumerates, Started;
    states, steps := StartingSteps(cpus, s, n, w);
    var s1 := states[|steps|];
    if (n in s.cluster.store || w.create.Applied?) && w.notReady.Applied? {
      var (m, obj) := Started(cpus[n], s1.cluster.store[n], list, w.spec);
      var s2 := Joint(
        s1.cluster.(store := s1.cluster.store[n := obj]),
        if m.Some? then s1.memory[n := m.value] else s1.memory - {n});
      JointStep(cpus, states, steps, Start(n, list, w.spec), s2);
      states, steps := states + [s2], steps + [Start(n, list, w.spec)];
      if m.Some? {
        var s3 := s2;
        if !w.ready.Rejected? {
          s3 := s2.(cluster := s2.cluster.(store := s2.cluster.store[n := obj.(ready := true)]));
          JointStep(cpus, states, steps, Status(n, true), s3);
          states, steps := states + [s3], steps + [Status(n, true)];
        }
        if !w.ready.Applied? {
          var s4 := s3.(memory := s3.memory - {n});
          JointStep(cpus, states, steps, Stop(n), s4);
          states, steps := states + [s4], steps + [Stop(n)];
          assert s.memory[n := m.value] - {n} == s.memory;
        }
      } else {
        assert s.memory - {n} == s.memory;
      }
    }
  }

  /** Enumeration starts every CPU at zero. */
  predicate ZeroUtil(cpus: Allocatable) {
    forall i <- cpus :: cpus[i].util == 0
  }

  /** Every CPU has its own identifier for its index; enumeration numbers CPUs by position, and so need not do this. */
  predicate OwnIndex(cpus: Allocatable) {
    forall i <- cpus :: cpus[i].id == i
  }

  /** What is known of the enumerated CPUs; `own` adds that they are indexed by their identifiers. */
  ghost predicate Enumerated(cpus: map<NodeName, Allocatable>, own: bool) {
    forall n <- cpus :: ZeroUtil(cpus[n]) && (own ==> OwnIndex(cpus[n]))
  }

  // ----- Prepared claims are backed by committed ones -----

  function PreparedShareOn(cpus: seq<PreparedCpu>, k: CpuId): int {
    if cpus == [] then 0
    else
      var last := cpus[|cpus| - 1];
      PreparedShareOn(cpus[..|cpus| - 1], k) + if last.id == k then last.util else 0
  }

  predicate SameIds(d: seq<PreparedCpu>, a: seq<AllocatedCpu>) {
    |d| == |a| && forall i :: 0 <= i < |d| ==> d[i].id == a[i].id
  }

  /**
   The prepared share of each CPU is covered by the allocated one; with `own`, the CPUs are the
   allocated ones, in order.
   */
  ghost predicate BackedBy(d: PreparedCpuset, a: AllocatedCpuset, own: bool) {
    && d.PreparedRtCpu? && a.RtCpu?
    && (forall k :: PreparedShareOn(d.cpuset, k) <= ShareOn(a.cpuset, k))
    && (own ==> SameIds(d.cpuset, a.cpuset))
  }

  /** Every prepared claim is committed and backed. */
  ghost predicate Backed(p: map<Uid, PreparedCpuset>, claims: Claims, own: bool) {
    forall u <- p :: u in claims && BackedBy(p[u], claims[u], own)
  }

  ghost predicate NodeBacked(cpus: Allocatable, spec: NodeSpec, own: bool) {
    Enumerates(Base(spec), cpus) && Backed(spec.prepared, spec.claims, own)
  }

  /** The node's object is as its plugin created it. */
  ghost predicate Blank(s: State, n: NodeName)
    requires n in s.store
  {
    s.store[n].spec.allocatable == [] && s.store[n].spec.prepared == map[] && Untouched(s, n)
  }

  ghost predicate JointInv(cpus: map<NodeName, Allocatable>, s: Joint, own: bool) {
    && Inv(s.cluster)
    && (forall n <- s.cluster.store ::
          n in cpus && (NodeBacked(cpus[n], s.cluster.store[n].spec, own) || Blank(s.cluster, n)))
    && (forall n <- s.memory ::
          && n in s.cluster.store && n in cpus && NodeBacked(cpus[n], s.cluster.store[n].spec, own)
          && Backed(Stored(s.memory[n]), s.cluster.store[n].spec.claims, own))
  }

  lemma BackedByMore(p: map<Uid, PreparedCpuset>, claims: Claims, claims': Claims, own: bool)
    requires Backed(p, claims, own) && SubMap(claims, claims')
    ensures Backed(p, claims', own)
  {
  }

  /** Dropping a committed claim leaves the prepared ones backed exactly if it was not prepared. */
  lemma ReleaseNeedsUnprepare(p: map<Uid, PreparedCpuset>, claims: Claims, uid: Uid, own: bool)
    requires Backed(p, claims, own)
    ensures Backed(p, claims - {uid}, own) <==> uid !in p
  {
  }

  lemma {:induction false} PreparedShare(cpus: seq<AllocatedCpu>, k: CpuId)
    requires forall i :: 0 <= i < |cpus| ==> cpus[i].period != 0
    ensures PreparedShareOn(StoredCpus(PreparedOf(cpus)), k) == ShareOn(cpus, k)
  {
    if cpus != [] {
      var front := cpus[..|cpus| - 1];
      PreparedShare(front, k);
      assert StoredCpus(PreparedOf(cpus))[..|front|] == StoredCpus(PreparedOf(front));
    }
  }

  lemma NewlyBacked(cpus: seq<AllocatedCpu>, cgroup: string, own: bool)
    requires forall i :: 0 <= i < |cpus| ==> cpus[i].period != 0
    ensures BackedBy(PreparedRtCpu(StoredCpus(PreparedOf(cpus))), RtCpu(cpus, cgroup), own)
  {
    forall k
      ensures PreparedShareOn(StoredCpus(PreparedOf(cpus)), k) == ShareOn(cpus, k)
    {
      PreparedShare(cpus, k);
    }
  }

  lemma StoredAt(m: PreparedClaims, uid: Uid, cpus: seq<PreparedRtCpuInfo>, u: Uid)
    requires u in m[uid := RtCpus(cpus)]
    ensures Stored(m[uid := RtCpus(cpus)])[u] == if u == uid then PreparedRtCpu(StoredCpus(cpus)) else Stored(m)[u]
  {
  }

  lemma PrepareBacked(m: PreparedClaims, claims: Claims, uid: Uid, filed: bool, own: bool)
    requires Backed(Stored(m), claims, own) && Dividable(claims, uid)
    ensures Backed(Stored(WithPrepared(m, claims, uid, filed)), claims, own)
  {
    hide BackedBy, Stored;
    var m' := WithPrepared(m, claims, uid, filed);
    if m' != m {
      var cpus := claims[uid].cpuset;
      NewlyBacked(cpus, claims[uid].cgroupUID, own);
      forall u | u in Stored(m')
        ensures u in claims && BackedBy(Stored(m')[u], claims[u], own)
      {
        StoredKeys(m');
        StoredKeys(m);
        StoredAt(m, uid, PreparedOf(cpus), u);
      }
    }
  }

  lemma StoredKeys(m: PreparedClaims)
    ensures Stored(m).Keys == m.Keys
  {
  }

  lemma UnprepareBacked(m: PreparedClaims, claims: Claims, uid: Uid, deleted: bool, own: bool)
    requires Backed(Stored(m), claims, own)
    ensures Backed(Stored(WithoutPrepared(m, uid, deleted)), claims, own)
  {
    hide BackedBy;
    var m' := WithoutPrepared(m, uid, deleted);
    forall u | u in Stored(m')
      ensures u in claims && BackedBy(Stored(m')[u], claims[u], own)
    {
      assert Stored(m')[u] == Stored(m)[u];
    }
  }

  /** Where CPUs are indexed by their identifiers, every stored CPU is known. */
  lemma BackedKnown(cpus: Allocatable, spec: NodeSpec)
    requires OwnIndex(cpus) && NodeBacked(cpus, spec, true) && GoodClaims(spec.claims, Base(spec).Keys)
    ensures Known(cpus, spec.prepared)
  {
    forall u | u in spec.prepared
      ensures KnownDevices(cpus, spec.prepared[u])
    {
      var d, a := spec.prepared[u], spec.claims[u];
      assert BackedBy(d, a, true) && GoodCpuset(a, Base(spec).Keys);
      forall i | 0 <= i < |d.cpuset|
        ensures d.cpuset[i].id in cpus
      {
        assert a.cpuset[i] in a.Cpus();
        assert d.cpuset[i].id in Ids(a.Cpus());
        assert d.cpuset[i].id in Base(spec);
      }
    }
  }

  lemma {:induction false} ZeroShare(d: seq<PreparedCpu>, k: CpuId)
    requires forall i :: 0 <= i < |d| ==> d[i].util == 0
    ensures PreparedShareOn(d, k) == 0
  {
    if d != [] {
      ZeroShare(d[..|d| - 1], k);
    }
  }

  lemma RebuiltBacked(cpus: Allocatable, d: PreparedCpuset, a: AllocatedCpuset, own: bool)
    requires ZeroUtil(cpus) && (own ==> OwnIndex(cpus)) && KnownDevices(cpus, d) && BackedBy(d, a, own)
    requires forall c <- a.Cpus() :: GoodCpu(c)
    ensures BackedBy(PreparedRtCpu(StoredCpus(RebuiltCpus(cpus, d.cpuset))), a, own)
  {
    var r := StoredCpus(RebuiltCpus(cpus, d.cpuset));
    forall k
      ensures PreparedShareOn(r, k) <= ShareOn(a.cpuset, k)
    {
      ZeroShare(r, k);
      ShareOnNonNegative(a.cpuset, k);
    }
  }

  /** A restart forgets the shares, so what it rebuilds is backed even where it gets the CPUs wrong. */
  lemma RestartBacked(cpus: Allocatable, p: map<Uid, PreparedCpuset>, claims: Claims, keys: set<CpuId>, own: bool)
    requires ZeroUtil(cpus) && (own ==> OwnIndex(cpus)) && Known(cpus, p) && Backed(p, claims, own)
    requires GoodClaims(claims, keys)
    ensures Backed(Stored(Rebuilt(cpus, p)), claims, own)
  {
    hide BackedBy, ZeroUtil, OwnIndex;
    var r := Rebuilt(cpus, p);
    forall u | u in Stored(r)
      ensures u in claims && BackedBy(Stored(r)[u], claims[u], own)
    {
      assert KnownDevices(cpus, p[u]) && GoodCpuset(claims[u], keys);
      RebuiltBacked(cpus, p[u], claims[u], own);
    }
  }

  // ----- Field ownership -----

  /** `s'` differs from `s` on node `n` at most in what the plugin owns. */
  ghost predicate PluginOnly(s: State, n: NodeName, s': State) {
    && s'.allocations == s.allocations && s'.utilisation == s.utilisation
    && s'.store.Keys == s.store.Keys + (s'.store.Keys * {n})
    && (forall m <- s.store :: m != n ==> s'.store[m] == s.store[m])
    && (n in s.store ==>
          && s'.store[n].spec.claims == s.store[n].spec.claims
          && s'.store[n].spec.util == s.store[n].spec.util)
    && (n !in s.store && n in s'.store ==>
          && s'.store[n].spec.claims == map[]
          && s'.store[n].spec.util == map[])
  }

  ghost predicate PluginFieldsKept(obj: NodeObject, obj': NodeObject) {
    && obj'.spec.prepared == obj.spec.prepared
    && obj'.spec.allocatable == obj.spec.allocatable
    && obj'.ready == obj.ready
  }

  ghost predicate ControllerOnly(s: Joint, s': Joint) {
    && s'.memory == s.memory
    && s'.cluster.store.Keys == s.cluster.store.Keys
    && forall n <- s.cluster.store :: PluginFieldsKept(s.cluster.store[n], s'.cluster.store[n])
  }

  ghost predicate ClaimsStep(claims: Claims, a: Action, n: NodeName, claims': Claims) {
    || SubMap(claims, claims')
    || (a.Release? && a.node == n && claims' == claims - {a.uid})
  }

  lemma ControllerWrites(s: State, a: Action, s': State)
    requires Next(s, a, s') && (a.Probe? || a.Commit? || a.Release?)
    ensures s'.store.Keys == s.store.Keys
    ensures forall n <- s.store :: PluginFieldsKept(s.store[n], s'.store[n])
    ensures forall n <- s.store :: ClaimsStep(s.store[n].spec.claims, a, n, s'.store[n].spec.claims)
  {
    hide Suitable, PackedBy, SubMap;
    match a
    case Probe(_, _, _, _, _) =>
      forall n | n in s.store ensures SubMap(s.store[n].spec.claims, s.store[n].spec.claims) {
        SubMapSelf(s.store[n].spec.claims);
      }
    case Commit(_, _, _, _) => CommitWritesOne(s, a, s');
    case Release(_, _, _, _) => ReleaseWritesOne(s, a, s');
  }

  lemma SubMapSelf(m: Claims)
    ensures SubMap(m, m)
  {
  }

  lemma CommitWritesOne(s: State, a: Action, s': State)
    requires Next(s, a, s') && a.Commit?
    ensures s'.store.Keys == s.store.Keys
    ensures forall n <- s.store ::
              PluginFieldsKept(s.store[n], s'.store[n]) && SubMap(s.store[n].spec.claims, s'.store[n].spec.claims)
  {
    hide SubMap, PluginFieldsKept, ForgetUtil;
    forall n | n in s.store
      ensures n in s'.store && PluginFieldsKept(s.store[n], s'.store[n])
      ensures SubMap(s.store[n].spec.claims, s'.store[n].spec.claims)
    {
      SubMapSelf(s.store[n].spec.claims);
      SameObject(s.store[n]);
      if CommitWrites(s, a.node, a.reachable, a.uid) && n == a.node {
        CommittedFields(s.store[n], a.uid, EntriesOf(s.allocations, a.uid)[n]);
      }
    }
  }

  lemma SameObject(obj: NodeObject)
    ensures PluginFieldsKept(obj, obj)
  {
  }

  lemma CommittedFields(obj: NodeObject, uid: Uid, a: AllocatedCpuset)
    requires uid !in obj.spec.claims
    ensures PluginFieldsKept(obj, obj.(spec := Committed(obj.spec, uid, a)))
    ensures SubMap(obj.spec.claims, Committed(obj.spec, uid, a).claims)
  {
  }

  lemma ReleaseWritesOne(s: State, a: Action, s': State)
    requires Next(s, a, s') && a.Release?
    ensures s'.store.Keys == s.store.Keys
    ensures forall n <- s.store ::
              && PluginFieldsKept(s.store[n], s'.store[n])
              && ClaimsStep(s.store[n].spec.claims, a, n, s'.store[n].spec.claims)
  {
  }

  /**
   No step of a plugin changes a committed claim, a ledger, a reservation or another
   node's object, and no step of the controller changes what is prepared.
   */
  lemma FieldOwnership(cpus: map<NodeName, Allocatable>, s: Joint, a: Step, s': Joint)
    requires NextJoint(cpus, s, a, s')
    ensures a.Control? ==> ControllerOnly(s, s')
    ensures !a.Control? ==> PluginOnly(s.cluster, a.node, s'.cluster)
    ensures !a.Control? ==> forall m <- s.memory :: m != a.node ==> m in s'.memory && s'.memory[m] == s.memory[m]
  {
    hide Next, Enumerates, PluginFieldsKept, Known, Rebuilt, Stored, AllHaveDevices, WithPrepared, WithoutPrepared;
    if a.Control? {
      ControllerWrites(s.cluster, a.action, s'.cluster);
    }
  }

  // ----- The invariant over runs -----

  /** What `NodeBacked` needs of a plugin's write. */
  lemma WriteBacked(
      cpus: Allocatable, obj: NodeObject, list: seq<AllocatableCpu>, m: PreparedClaims, write: WriteOutcome,
      own: bool)
    requires ZeroUtil(cpus) && NodeBacked(cpus, obj.spec, own) && (write.Rejected? || Enumerates(InitUtil(list), cpus))
    requires Backed(Stored(m), obj.spec.claims, own)
    ensures var obj' := AfterWrite(obj, list, m, write);
            NodeBacked(cpus, obj'.spec, own) && Base(obj'.spec) == Base(obj.spec)
  {
    hide Backed;
    if !write.Rejected? {
      EnumeratedBase(InitUtil(list), Base(obj.spec), cpus);
    }
  }

  lemma ClaimsGood(s: State, n: NodeName)
    requires Inv(s) && n in s.store
    ensures GoodClaims(s.store[n].spec.claims, Base(s.store[n].spec).Keys)
    ensures LedgerExact(s.store[n].spec) && GoodBase(Base(s.store[n].spec))
    ensures Fits(Base(s.store[n].spec), s.store[n].spec.claims)
  {
    var spec, pend := s.store[n].spec, PendingOn(s.allocations, n);
    InvAt(s, n);
    CommittedClaimsGood(spec, pend);
    assert SubMap(spec.claims, Everything(spec, pend));
    FitsMonotone(Base(spec), spec.claims, Everything(spec, pend));
  }

  lemma ControlKeepsBacked(cpus: map<NodeName, Allocatable>, s: Joint, a: Step, s': Joint, n: NodeName, own: bool)
    requires NextJoint(cpus, s, a, s') && a.Control?
    requires n in cpus && n in s.cluster.store && n in s'.cluster.store
    requires NodeBacked(cpus[n], s.cluster.store[n].spec, own)
    requires n in s.memory ==> Backed(Stored(s.memory[n]), s.cluster.store[n].spec.claims, own)
    ensures NodeBacked(cpus[n], s'.cluster.store[n].spec, own)
    ensures n in s.memory ==> Backed(Stored(s.memory[n]), s'.cluster.store[n].spec.claims, own)
  {
    hide Inv, Next, Enumerates, Backed;
    var spec, spec' := s.cluster.store[n].spec, s'.cluster.store[n].spec;
    ControllerWrites(s.cluster, a.action, s'.cluster);
    if SubMap(spec.claims, spec'.claims) {
      BackedByMore(spec.prepared, spec.claims, spec'.claims, own);
      if n in s.memory {
        BackedByMore(Stored(s.memory[n]), spec.claims, spec'.claims, own);
      }
    } else {
      assert a.action.Release? && a.action.node == n;
      var uid := a.action.uid;
      assert spec'.claims == spec.claims - {uid};
      ReleaseNeedsUnprepare(spec.prepared, spec.claims, uid, own);
      if n in s.memory {
        StoredKeys(s.memory[n]);
        ReleaseNeedsUnprepare(Stored(s.memory[n]), spec.claims, uid, own);
      }
    }
  }

  /** The controller leaves a node alone that is not ready and holds nothing. */
  lemma BlankStays(s: State, a: Action, s': State, n: NodeName)
    requires Next(s, a, s') && (a.Probe? || a.Commit? || a.Release?) && n in s.store && Blank(s, n)
    ensures n in s'.store && Blank(s', n)
  {
    hide Admit, PackedBy, Unplaced, ProbeUtil, Charge, DischargeListed, Discharge;
    match a
    case Probe(m, reachable, reqs, cgroup, choices) =>
      if Suitable(s, m, reachable, reqs) {
        ProbedPending(s, m, reqs, cgroup, choices, n);
      } else if Up(s, m, reachable) {
        PendingRemoved(s.allocations, Stale(s, m), n);
      }
    case Commit(_, _, u, _) =>
      PendingRemoved(s.allocations, {u}, n);
    case Release(_, _, u, _) =>
      PendingRemoved(s.allocations, {u}, n);
  }

  lemma ControlKeepsInv(cpus: map<NodeName, Allocatable>, s: Joint, a: Step, s': Joint, own: bool)
    requires JointInv(cpus, s, own) && NextJoint(cpus, s, a, s') && a.Control?
    ensures JointInv(cpus, s', own)
  {
    hide Inv, Enumerates, Next, NodeBacked, Backed, Stored, Blank;
    NextKeepsInv(s.cluster, a.action, s'.cluster);
    FieldOwnership(cpus, s, a, s');
    forall n | n in s'.cluster.store
      ensures n in cpus && (NodeBacked(cpus[n], s'.cluster.store[n].spec, own) || Blank(s'.cluster, n))
      ensures n in s'.memory ==>
                && NodeBacked(cpus[n], s'.cluster.store[n].spec, own)
                && Backed(Stored(s'.memory[n]), s'.cluster.store[n].spec.claims, own)
    {
      if NodeBacked(cpus[n], s.cluster.store[n].spec, own) {
        ControlKeepsBacked(cpus, s, a, s', n, own);
      } else {
        BlankStays(s.cluster, a.action, s'.cluster, n);
      }
    }
  }

  /** Writes on one node leave the others as they are. */
  lemma BlankElsewhere(s: State, n: NodeName, obj: NodeObject, m: NodeName)
    requires m in s.store && m != n
    ensures Blank(s.(store := s.store[n := obj]), m) <==> Blank(s, m)
  {
  }

  lemma PluginStepKeepsInv(
      cpus: map<NodeName, Allocatable>, s: Joint, n: NodeName, m: Option<PreparedClaims>, obj: NodeObject,
      s': Joint, own: bool)
    requires JointInv(cpus, s, own) && n in s.cluster.store
    requires obj.spec.claims == s.cluster.store[n].spec.claims && obj.spec.util == s.cluster.store[n].spec.util
    requires Base(obj.spec) == Base(s.cluster.store[n].spec) || (Untouched(s.cluster, n) && GoodBase(Base(obj.spec)))
    requires NodeBacked(cpus[n], obj.spec, own)
    requires m.Some? ==> Backed(Stored(m.value), obj.spec.claims, own)
    requires s'.cluster == s.cluster.(store := s.cluster.store[n := obj])
    requires s'.memory == if m.Some? then s.memory[n := m.value] else s.memory - {n}
    ensures JointInv(cpus, s', own)
  {
    hide Inv, NodeBacked, Backed, Blank, Untouched;
    PluginKeepsInv(s.cluster, n, obj);
    forall k | k in s'.cluster.store
      ensures k in cpus && (NodeBacked(cpus[k], s'.cluster.store[k].spec, own) || Blank(s'.cluster, k))
    {
      if k != n {
        BlankElsewhere(s.cluster, n, obj, k);
      }
    }
  }

  /** Filling a blank object with what the plugin has enumerated. */
  lemma BlankStarts(cpus: Allocatable, obj: NodeObject, list: seq<AllocatableCpu>, write: WriteOutcome, own: bool)
    requires ZeroUtil(cpus) && obj.spec.allocatable == [] && obj.spec.prepared == map[] && obj.spec.claims == map[]
    requires !write.Rejected? && Enumerates(InitUtil(list), cpus)
    ensures var (m, obj') := Started(cpus, obj, list, write);
            && NodeBacked(cpus, obj'.spec, own) && GoodBase(Base(obj'.spec))
            && obj'.spec.claims == obj.spec.claims && obj'.spec.util == obj.spec.util
            && (m.Some? ==> Backed(Stored(m.value), obj'.spec.claims, own))
  {
    hide Backed, Enumerates;
    EnumeratedBase(InitUtil(list), InitUtil(list), cpus);
    EmptyBacked(cpus, own);
  }

  lemma EmptyBacked(cpus: Allocatable, own: bool)
    ensures Known(cpus, map[]) && Backed(Stored(Rebuilt(cpus, map[])), map[], own)
  {
  }

  lemma StartKeepsInv(cpus: map<NodeName, Allocatable>, s: Joint, a: Step, s': Joint, own: bool)
    requires Enumerated(cpus, own)
    requires JointInv(cpus, s, own) && NextJoint(cpus, s, a, s') && a.Start?
    ensures JointInv(cpus, s', own)
  {
    hide Inv, Enumerates, Backed, ZeroUtil, OwnIndex, Untouched, Base, GoodBase, Known, Rebuilt, Stored;
    var n, obj := a.node, s.cluster.store[a.node];
    var (m, obj') := Started(cpus[n], obj, a.list, a.write);
    if NodeBacked(cpus[n], obj.spec, own) {
      if Known(cpus[n], obj.spec.prepared) {
        ClaimsGood(s.cluster, n);
        RestartBacked(cpus[n], obj.spec.prepared, obj.spec.claims, Base(obj.spec).Keys, own);
        WriteBacked(cpus[n], obj, a.list, Rebuilt(cpus[n], obj.spec.prepared), a.write, own);
      }
      PluginStepKeepsInv(cpus, s, n, m, obj', s', own);
    } else if a.write.Rejected? {
      assert s'.cluster == s.cluster;
    } else {
      BlankClaims(s.cluster, n);
      BlankStarts(cpus[n], obj, a.list, a.write, own);
      PluginStepKeepsInv(cpus, s, n, m, obj', s', own);
    }
  }

  lemma BlankClaims(s: State, n: NodeName)
    requires n in s.store && Blank(s, n)
    ensures Untouched(s, n) && s.store[n].spec.claims == map[]
  {
  }

  lemma CreateKeepsInv(cpus: map<NodeName, Allocatable>, s: Joint, a: Step, s': Joint, own: bool)
    requires JointInv(cpus, s, own) && NextJoint(cpus, s, a, s') && a.Create?
    requires a.node !in s.cluster.utilisation
    ensures JointInv(cpus, s', own)
  {
    hide Inv, NodeBacked, Backed;
    var n := a.node;
    if !a.write.Rejected? {
      InvAt(s.cluster, n);
      JoinKeepsInv(s.cluster, n, BLANK);
      forall k | k in s'.cluster.store
        ensures k in cpus && (NodeBacked(cpus[k], s'.cluster.store[k].spec, own) || Blank(s'.cluster, k))
      {
        if k != n {
          BlankElsewhere(s.cluster, n, BLANK, k);
        }
      }
    }
  }

  lemma StatusKeepsInv(cpus: map<NodeName, Allocatable>, s: Joint, a: Step, s': Joint, own: bool)
    requires JointInv(cpus, s, own) && NextJoint(cpus, s, a, s') && a.Status?
    ensures JointInv(cpus, s', own)
  {
    hide Inv, NodeBacked, Backed;
    var n, obj := a.node, s'.cluster.store[a.node];
    PluginKeepsInv(s.cluster, n, obj);
    assert obj.spec == s.cluster.store[n].spec;
    forall k | k in s'.cluster.store
      ensures k in cpus && (NodeBacked(cpus[k], s'.cluster.store[k].spec, own) || Blank(s'.cluster, k))
    {
      if k != n {
        BlankElsewhere(s.cluster, n, obj, k);
      }
    }
  }

  lemma NextKeepsJointInv(cpus: map<NodeName, Allocatable>, s: Joint, a: Step, s': Joint, own: bool)
    requires Enumerated(cpus, own)
    requires JointInv(cpus, s, own) && NextJoint(cpus, s, a, s') && ShadowKnown(s.cluster)
    ensures JointInv(cpus, s', own)
  {
    hide Inv, Enumerates, Next, NodeBacked, Backed, Stored, Blank, Untouched;
    match a
    case Control(_) => ControlKeepsInv(cpus, s, a, s', own);
    case Create(_, _) => CreateKeepsInv(cpus, s, a, s', own);
    case Start(_, _, _) => StartKeepsInv(cpus, s, a, s', own);
    case Stop(_) =>
    case Status(_, _) => StatusKeepsInv(cpus, s, a, s', own);
    case Prepare(n, uid, faults, list, write) =>
      var m, obj := s.memory[n], s.cluster.store[n];
      PreparedBacked(cpus[n], obj, m, uid, faults, list, write, own);
      var (m', obj') := Prepared(m, obj, uid, faults, list, write);
      PluginStepKeepsInv(cpus, s, n, Some(m'), obj', s', own);
    case Unprepare(n, uid, deleted, list, write) =>
      var m, obj := s.memory[n], s.cluster.store[n];
      UnprepareBacked(m, obj.spec.claims, uid, deleted, own);
      var (m', obj') := Unprepared(m, obj, uid, deleted, list, write);
      WriteBacked(cpus[n], obj, list, m', write, own);
      PluginStepKeepsInv(cpus, s, n, Some(m'), obj', s', own);
  }

  lemma PreparedBacked(
      cpus: Allocatable, obj: NodeObject, m: PreparedClaims, uid: Uid, faults: Faults, list: seq<AllocatableCpu>,
      write: WriteOutcome, own: bool)
    requires ZeroUtil(cpus) && NodeBacked(cpus, obj.spec, own)
    requires write.Rejected? || Enumerates(InitUtil(list), cpus)
    requires Backed(Stored(m), obj.spec.claims, own) && Dividable(obj.spec.claims, uid)
    ensures var (m', obj') := Prepared(m, obj, uid, faults, list, write);
            && Backed(Stored(m'), obj'.spec.claims, own) && NodeBacked(cpus, obj'.spec, own)
            && Base(obj'.spec) == Base(obj.spec)
            && obj'.spec.claims == obj.spec.claims && obj'.spec.util == obj.spec.util
  {
    hide Enumerates, Stored, NodeBacked, Backed;
    PrepareBacked(m, obj.spec.claims, uid, faults.filed, own);
    var m' := WithPrepared(m, obj.spec.claims, uid, faults.filed);
    UnprepareBacked(m', obj.spec.claims, uid, faults.deleted, own);
    WriteBacked(cpus, obj, list, m', write, own);
  }

  /** The controller keeps a shadow only for nodes that have an object. */
  ghost predicate ShadowKnown(s: State) {
    s.utilisation.Keys <= s.store.Keys
  }

  lemma NextKeepsShadowKnown(cpus: map<NodeName, Allocatable>, s: Joint, a: Step, s': Joint)
    requires ShadowKnown(s.cluster) && NextJoint(cpus, s, a, s')
    ensures ShadowKnown(s'.cluster)
  {
    hide Next, Enumerates;
    if a.Control? {
      ControllerWrites(s.cluster, a.action, s'.cluster);
      ControlKeepsShadowKnown(s.cluster, a.action, s'.cluster);
    } else {
      FieldOwnership(cpus, s, a, s');
    }
  }

  lemma ControlKeepsShadowKnown(s: State, a: Action, s': State)
    requires Next(s, a, s') && s'.store.Keys == s.store.Keys && ShadowKnown(s)
    ensures ShadowKnown(s')
  {
    hide Admit, PackedBy, Unplaced, ProbeUtil, Charge, DischargeListed, Discharge;
  }

  lemma {:induction false} JointRunKeepsInv(
      cpus: map<NodeName, Allocatable>, states: seq<Joint>, steps: seq<Step>, i: nat, own: bool)
    requires Enumerated(cpus, own)
    requires JointRun(cpus, states, steps) && i < |states|
    ensures JointInv(cpus, states[i], own) && ShadowKnown(states[i].cluster)
  {
    hide NextJoint, Enumerated;
    if i > 0 {
      JointRunKeepsInv(cpus, states, steps, i - 1, own);
      NextKeepsJointInv(cpus, states[i - 1], steps[i - 1], states[i], own);
      NextKeepsShadowKnown(cpus, states[i - 1], steps[i - 1], states[i]);
    }
  }

  // ----- The prepared load -----

  function PreparedCpus(d: PreparedCpuset): seq<PreparedCpu> {
    if d.PreparedRtCpu? then d.cpuset else []
  }

  /** The share of CPU `k` prepared for all claims of `p` together. */
  ghost function PreparedLoad(p: map<Uid, PreparedCpuset>, k: CpuId): int {
    if p == map[] then 0
    else
      var u := Pick(p);
      PreparedShareOn(PreparedCpus(p[u]), k) + PreparedLoad(p - {u}, k)
  }

  lemma {:induction false} BackedLoad(p: map<Uid, PreparedCpuset>, claims: Claims, keys: set<CpuId>, k: CpuId)
    requires Backed(p, claims, false) && GoodClaims(claims, keys)
    ensures PreparedLoad(p, k) <= Load(claims, k)
    decreases |p|
  {
    if p == map[] {
      LoadNonNegative(claims, keys, k);
    } else {
      var u := Pick(p);
      assert BackedBy(p[u], claims[u], false);
      LoadRemove(claims, u, k);
      BackedLoad(p - {u}, claims - {u}, keys, k);
    }
  }

  /**
   In every state of every joint run, on every CPU, the load prepared for use, according
   to the stored object and to the running plugin alike, is covered by the committed
   ledger, which stays below the threshold.  This needs no more of the enumeration than
   that it starts every CPU at zero.
   */
  lemma PreparedWithinLedger(
      cpus: map<NodeName, Allocatable>, states: seq<Joint>, steps: seq<Step>, i: nat, n: NodeName, k: CpuId)
    requires forall n <- cpus :: ZeroUtil(cpus[n])
    requires JointRun(cpus, states, steps) && i < |states|
    requires n in states[i].cluster.store && k in Base(states[i].cluster.store[n].spec)
    ensures var spec := states[i].cluster.store[n].spec;
            && k in Ledger(spec)
            && PreparedLoad(spec.prepared, k) <= Ledger(spec)[k] < THRESHOLD
            && (n in states[i].memory ==> PreparedLoad(Stored(states[i].memory[n]), k) <= Ledger(spec)[k])
  {
    var s := states[i];
    var spec := s.cluster.store[n].spec;
    JointRunKeepsInv(cpus, states, steps, i, false);
    ClaimsGood(s.cluster, n);
    BackedLoad(spec.prepared, spec.claims, Base(spec).Keys, k);
    if n in s.memory {
      BackedLoad(Stored(s.memory[n]), spec.claims, Base(spec).Keys, k);
    }
  }

  /**
   Where every CPU is indexed by its own identifier, a plugin can be restarted in every
   reachable state: each stored CPU is known, and every claim comes back on the CPUs it is
   committed on, in order.
   */
  lemma RestartNeverFails(cpus: map<NodeName, Allocatable>, states: seq<Joint>, steps: seq<Step>, i: nat, n: NodeName)
    requires forall n <- cpus :: ZeroUtil(cpus[n]) && OwnIndex(cpus[n])
    requires JointRun(cpus, states, steps) && i < |states| && n in states[i].cluster.store
    ensures var spec := states[i].cluster.store[n].spec;
            && n in cpus && Known(cpus[n], spec.prepared)
            && Rebuilt(cpus[n], spec.prepared).Keys == spec.prepared.Keys <= spec.claims.Keys
            && forall u <- spec.prepared ::
                 PreparedIds(Rebuilt(cpus[n], spec.prepared)[u]) == IdSeq(spec.claims[u].Cpus())
  {
    var s := states[i].cluster;
    var spec := s.store[n].spec;
    JointRunKeepsInv(cpus, states, steps, i, true);
    ClaimsGood(s, n);
    if NodeBacked(cpus[n], spec, true) {
      BackedKnown(cpus[n], spec);
    }
    forall u | u in spec.prepared
      ensures u in spec.claims
      ensures PreparedIds(Rebuilt(cpus[n], spec.prepared)[u]) == IdSeq(spec.claims[u].Cpus())
    {
      assert BackedBy(spec.prepared[u], spec.claims[u], true) && KnownDevices(cpus[n], spec.prepared[u]);
    }
  }

  // ----- Restarting where identifiers are indices, if not each its own -----

  function EnumeratedIds(cpus: Allocatable): set<CpuId> {
    set i <- cpus :: cpus[i].id
  }

  /** Every identifier is the index of some CPU. */
  predicate IdsAreIndices(cpus: Allocatable) {
    EnumeratedIds(cpus) <= cpus.Keys
  }

  ghost predicate Listed(p: map<Uid, PreparedCpuset>, ids: set<CpuId>) {
    forall u <- p :: ListedCpus(PreparedCpus(p[u]), ids)
  }

  predicate ListedCpus(cpus: seq<PreparedCpu>, ids: set<CpuId>) {
    forall i :: 0 <= i < |cpus| ==> cpus[i].id in ids
  }

  /** Whatever is prepared or stored as prepared is on enumerated CPUs. */
  ghost predicate ListedInv(cpus: map<NodeName, Allocatable>, s: Joint) {
    && (forall n <- s.cluster.store :: n in cpus && Listed(s.cluster.store[n].spec.prepared, EnumeratedIds(cpus[n])))
    && (forall n <- s.memory :: n in cpus && Listed(Stored(s.memory[n]), EnumeratedIds(cpus[n])))
  }

  lemma PrepareListed(cpus: Allocatable, m: PreparedClaims, spec: NodeSpec, uid: Uid, filed: bool)
    requires Listed(Stored(m), EnumeratedIds(cpus)) && Dividable(spec.claims, uid)
    requires Enumerates(Base(spec), cpus) && GoodClaims(spec.claims, Base(spec).Keys)
    ensures Listed(Stored(WithPrepared(m, spec.claims, uid, filed)), EnumeratedIds(cpus))
  {
    hide Stored, ListedCpus;
    var m' := WithPrepared(m, spec.claims, uid, filed);
    if m' != m {
      var devices := spec.claims[uid].cpuset;
      assert GoodCpuset(spec.claims[uid], Base(spec).Keys);
      AllocatedListed(cpus, Base(spec), devices);
      forall u | u in Stored(m')
        ensures ListedCpus(PreparedCpus(Stored(m')[u]), EnumeratedIds(cpus))
      {
        StoredKeys(m');
        StoredKeys(m);
        StoredAt(m, uid, PreparedOf(devices), u);
      }
    }
  }

  lemma AllocatedListed(cpus: Allocatable, b: UtilMap, devices: seq<AllocatedCpu>)
    requires Enumerates(b, cpus) && Ids(devices) <= b.Keys
    requires forall i :: 0 <= i < |devices| ==> devices[i].period != 0
    ensures ListedCpus(StoredCpus(PreparedOf(devices)), EnumeratedIds(cpus))
  {
    forall i | 0 <= i < |devices|
      ensures devices[i].id in EnumeratedIds(cpus)
    {
      assert devices[i] in devices && devices[i].id in Ids(devices);
    }
  }

  lemma RebuiltListed(cpus: Allocatable, p: map<Uid, PreparedCpuset>)
    requires Known(cpus, p)
    ensures Listed(Stored(Rebuilt(cpus, p)), EnumeratedIds(cpus))
  {
    var r := Rebuilt(cpus, p);
    forall u | u in Stored(r)
      ensures ListedCpus(PreparedCpus(Stored(r)[u]), EnumeratedIds(cpus))
    {
      assert KnownDevices(cpus, p[u]);
    }
  }

  lemma UnprepareListed(m: PreparedClaims, uid: Uid, deleted: bool, ids: set<CpuId>)
    requires Listed(Stored(m), ids)
    ensures Listed(Stored(WithoutPrepared(m, uid, deleted)), ids)
  {
    hide ListedCpus;
    var m' := WithoutPrepared(m, uid, deleted);
    forall u | u in Stored(m')
      ensures ListedCpus(PreparedCpus(Stored(m')[u]), ids)
    {
      assert Stored(m')[u] == Stored(m)[u];
    }
  }

  lemma NothingListed(ids: set<CpuId>)
    ensures Listed(map[], ids)
  {
  }

  /** What a prepare leaves in memory and in the object is on enumerated CPUs. */
  lemma PreparedListed(
      cpus: Allocatable, m: PreparedClaims, obj: NodeObject, uid: Uid, faults: Faults,
      list: seq<AllocatableCpu>, write: WriteOutcome)
    requires Listed(Stored(m), EnumeratedIds(cpus)) && Dividable(obj.spec.claims, uid)
    requires Listed(obj.spec.prepared, EnumeratedIds(cpus))
    requires Enumerates(Base(obj.spec), cpus) && GoodClaims(obj.spec.claims, Base(obj.spec).Keys)
    ensures var (m', obj') := Prepared(m, obj, uid, faults, list, write);
            Listed(Stored(m'), EnumeratedIds(cpus)) && Listed(obj'.spec.prepared, EnumeratedIds(cpus))
  {
    hide Enumerates, Stored, Listed, EnumeratedIds, WithPrepared, WithoutPrepared, AllHaveDevices, GoodClaims;
    PrepareListed(cpus, m, obj.spec, uid, faults.filed);
    UnprepareListed(
      WithPrepared(m, obj.spec.claims, uid, faults.filed), uid, faults.deleted, EnumeratedIds(cpus));
  }

  /** What an unprepare leaves in memory and in the object is on CPUs of `ids`. */
  lemma UnpreparedListed(
      m: PreparedClaims, obj: NodeObject, uid: Uid, deleted: bool, list: seq<AllocatableCpu>,
      write: WriteOutcome, ids: set<CpuId>)
    requires Listed(Stored(m), ids) && Listed(obj.spec.prepared, ids)
    ensures var (m', obj') := Unprepared(m, obj, uid, deleted, list, write);
            Listed(Stored(m'), ids) && Listed(obj'.spec.prepared, ids)
  {
    hide Stored, Listed, WithoutPrepared, AllHaveDevices;
    UnprepareListed(m, uid, deleted, ids);
  }

  lemma PluginStepKeepsListed(cpus: map<NodeName, Allocatable>, s: Joint, a: Step, s': Joint)
    requires JointInv(cpus, s, false) && ListedInv(cpus, s) && NextJoint(cpus, s, a, s')
    requires a.Prepare? || a.Unprepare?
    ensures ListedInv(cpus, s')
  {
    hide Inv, Enumerates, Backed, Stored, Listed, Blank, EnumeratedIds, Prepared, Unprepared;
    var n := a.node;
    var m, obj := s.memory[n], s.cluster.store[n];
    if a.Prepare? {
      ClaimsGood(s.cluster, n);
      PreparedListed(cpus[n], m, obj, a.uid, a.faults, a.list, a.write);
    } else {
      UnpreparedListed(m, obj, a.uid, a.deleted, a.list, a.write, EnumeratedIds(cpus[n]));
    }
  }

  lemma NextKeepsListed(cpus: map<NodeName, Allocatable>, s: Joint, a: Step, s': Joint)
    requires JointInv(cpus, s, false) && ListedInv(cpus, s) && NextJoint(cpus, s, a, s')
    ensures ListedInv(cpus, s')
  {
    hide JointInv, Next, Enumerates, Stored, Listed, EnumeratedIds, Known, Rebuilt;
    match a
    case Control(action) => ControllerWrites(s.cluster, action, s'.cluster);
    case Create(n, _) => NothingListed(EnumeratedIds(cpus[n]));
    case Start(n, _, _) =>
      if Known(cpus[n], s.cluster.store[n].spec.prepared) {
        RebuiltListed(cpus[n], s.cluster.store[n].spec.prepared);
      }
    case Stop(_) =>
    case Status(_, _) =>
    case Prepare(_, _, _, _, _) => PluginStepKeepsListed(cpus, s, a, s');
    case Unprepare(_, _, _, _, _) => PluginStepKeepsListed(cpus, s, a, s');
  }

  lemma {:induction false} JointRunKeepsListed(
      cpus: map<NodeName, Allocatable>, states: seq<Joint>, steps: seq<Step>, i: nat)
    requires forall n <- cpus :: ZeroUtil(cpus[n])
    requires JointRun(cpus, states, steps) && i < |states|
    ensures JointInv(cpus, states[i], false) && ListedInv(cpus, states[i])
  {
    hide NextJoint, JointInv;
    JointRunKeepsInv(cpus, states, steps, i, false);
    if i > 0 {
      JointRunKeepsListed(cpus, states, steps, i - 1);
      NextKeepsListed(cpus, states[i - 1], steps[i - 1], states[i]);
    }
  }

  /**
   Where every identifier is the index of some CPU, if not its own, a restart of the plugin
   still gets through in every reachable state: each stored CPU is known, and every claim comes
   back, though perhaps on other CPUs.
   */
  lemma RestartGetsThrough(
      cpus: map<NodeName, Allocatable>, states: seq<Joint>, steps: seq<Step>, i: nat, n: NodeName)
    requires forall n <- cpus :: ZeroUtil(cpus[n]) && IdsAreIndices(cpus[n])
    requires JointRun(cpus, states, steps) && i < |states| && n in states[i].cluster.store
    ensures var spec := states[i].cluster.store[n].spec;
            && n in cpus && Known(cpus[n], spec.prepared)
            && Rebuilt(cpus[n], spec.prepared).Keys == spec.prepared.Keys <= spec.claims.Keys
  {
    hide Inv, Enumerates;
    var spec := states[i].cluster.store[n].spec;
    JointRunKeepsListed(cpus, states, steps, i);
    forall u | u in spec.prepared
      ensures u in spec.claims && KnownDevices(cpus[n], spec.prepared[u])
    {
      assert NodeBacked(cpus[n], spec, false);
      assert BackedBy(spec.prepared[u], spec.claims[u], false);
      assert ListedCpus(PreparedCpus(spec.prepared[u]), EnumeratedIds(cpus[n]));
    }
  }

  // ----- What a prepare and an unprepare change -----

  /** Prepared on the CPUs of the cpuset, in order, with their shares. */
  ghost predicate PreparedOnCpus(d: PreparedDevices, cpuset: seq<AllocatedCpu>)
    requires forall i :: 0 <= i < |cpuset| ==> cpuset[i].period != 0
  {
    && d.RtCpus? && |d.cpuset| == |cpuset|
    && forall i :: 0 <= i < |cpuset| ==>
         d.cpuset[i].id == cpuset[i].id && d.cpuset[i].util == Share(cpuset[i].runtime, cpuset[i].period)
  }

  /** The stored form lists exactly the prepared claims, each with its CPUs and their shares in order. */
  ghost predicate Lists(p: map<Uid, PreparedCpuset>, m: PreparedClaims) {
    && p.Keys == m.Keys
    && forall u <- m ::
         && m[u].RtCpus? && p[u].PreparedRtCpu? && |p[u].cpuset| == |m[u].cpuset|
         && forall i :: 0 <= i < |m[u].cpuset| ==>
              p[u].cpuset[i].id == m[u].cpuset[i].id && p[u].cpuset[i].util == m[u].cpuset[i].util
  }

  lemma StoredLists(m: PreparedClaims)
    requires AllHaveDevices(m)
    ensures Lists(Stored(m), m)
  {
    forall u | u in m
      ensures Stored(m)[u] == PreparedRtCpu(StoredCpus(m[u].cpuset))
    {
    }
  }

  /** Only the plugin's own fields differ. */
  ghost predicate PluginFieldsOnly(obj: NodeObject, obj': NodeObject) {
    obj'.ready == obj.ready && obj'.spec.claims == obj.spec.claims && obj'.spec.util == obj.spec.util
  }

  /**
   A fetched prepare records the claim exactly if it is not prepared yet, is committed with
   CPUs, and its spec file can be written; then on the committed CPUs.  It goes on to write
   the object back exactly if there are names, the claim is prepared, and all claims have
   their devices.  The object written lists what is prepared then.  If the write fails, the
   claim is unprepared again, if its spec file can be deleted.  Nothing else changes.
   */
  lemma PrepareEffect(
      m: PreparedClaims, obj: NodeObject, uid: Uid, faults: Faults, list: seq<AllocatableCpu>, write: WriteOutcome)
    requires Dividable(obj.spec.claims, uid)
    ensures var (m', obj') := Prepared(m, obj, uid, faults, list, write);
            var recorded := uid !in m && uid in obj.spec.claims && obj.spec.claims[uid].RtCpu? && faults.filed;
            var writes := faults.named && (uid in m || recorded) && forall u <- m :: m[u].RtCpus?;
            var undone := writes && !write.Applied? && faults.deleted;
            && (forall u :: u != uid ==> (u in m' <==> u in m) && (u in m ==> m'[u] == m[u]))
            && (uid in m' <==> (uid in m || recorded) && !undone)
            && (uid in m' && uid in m ==> m'[uid] == m[uid])
            && (uid in m' && uid !in m ==> PreparedOnCpus(m'[uid], obj.spec.claims[uid].cpuset))
            && PluginFieldsOnly(obj, obj')
            && (if writes && !write.Rejected?
                then obj'.spec.allocatable == list && obj'.spec.prepared.Keys == m.Keys + {uid}
                     && (write.Applied? ==> Lists(obj'.spec.prepared, m'))
                else obj' == obj)
  {
    hide Stored, AllHaveDevices, Lists;
    var m1 := WithPrepared(m, obj.spec.claims, uid, faults.filed);
    DevicesAfterRecording(m, obj.spec.claims, uid, faults.filed);
    StoredKeys(m1);
    if AllHaveDevices(m1) {
      StoredLists(m1);
    }
  }

  lemma DevicesAfterRecording(m: PreparedClaims, claims: Claims, uid: Uid, filed: bool)
    requires Dividable(claims, uid)
    ensures AllHaveDevices(WithPrepared(m, claims, uid, filed)) <==> forall u <- m :: m[u].RtCpus?
    ensures AllHaveDevices(WithPrepared(m, claims, uid, filed)) && uid in m ==> m[uid].RtCpus?
  {
    var m' := WithPrepared(m, claims, uid, filed);
    assert forall u :: u in m ==> u in m' && m'[u] == m[u];
  }

  /**
   A fetched unprepare removes the claim exactly if it is prepared with devices and its spec
   file can be deleted.  It goes on to write the object back exactly if the claim is not
   prepared then and all others have their devices; the object written lists what is left.
   Nothing else changes.
   */
  lemma UnprepareEffect(
      m: PreparedClaims, obj: NodeObject, uid: Uid, deleted: bool, list: seq<AllocatableCpu>, write: WriteOutcome)
    ensures var (m', obj') := Unprepared(m, obj, uid, deleted, list, write);
            var writes := (uid in m ==> m[uid].RtCpus? && deleted) && forall u <- m :: u != uid ==> m[u].RtCpus?;
            && (forall u :: u != uid ==> (u in m' <==> u in m) && (u in m ==> m'[u] == m[u]))
            && (uid in m' <==> uid in m && !(m[uid].RtCpus? && deleted))
            && (uid in m' ==> m'[uid] == m[uid])
            && PluginFieldsOnly(obj, obj')
            && (if writes && !write.Rejected? then obj'.spec.allocatable == list && Lists(obj'.spec.prepared, m')
                else obj' == obj)
  {
    hide Stored, Lists;
    var m' := WithoutPrepared(m, uid, deleted);
    if AllHaveDevices(m') {
      StoredLists(m');
    }
  }

  // ----- A prepare whose write back fails -----

  /**
   Preparing a claim again that is prepared already takes it away from the plugin exactly
   if its names could be made, every prepared claim has its devices, the write back fails
   and the spec file can be deleted.  After a rejected write the object is as it was, and
   so still lists the claim if it did; after a lost reply it lists everything the plugin had,
   the claim included.
   */
  lemma FailedPrepareForgets(
      m: PreparedClaims, obj: NodeObject, uid: Uid, faults: Faults, list: seq<AllocatableCpu>,
      write: WriteOutcome)
    requires uid in m && Dividable(obj.spec.claims, uid)
    ensures uid !in Prepared(m, obj, uid, faults, list, write).0
       <==> faults.named && AllHaveDevices(m) && write != Applied && faults.deleted
    ensures write.Rejected? ==> Prepared(m, obj, uid, faults, list, write).1 == obj
    ensures write.LostReply? && uid !in Prepared(m, obj, uid, faults, list, write).0 ==>
              var obj' := Prepared(m, obj, uid, faults, list, write).1;
              obj'.spec.prepared == Stored(m) && uid in obj'.spec.prepared
  {
  }
}
