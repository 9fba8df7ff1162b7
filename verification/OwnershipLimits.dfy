/**
 Two runs of the controller with a plugin on a node whose second CPU has the identifier 2:
 a restart that fails, and a repeated prepare that takes the claim away from the plugin.
 */
module OwnershipLimits {
  import opened Nas
  import opened Partition
  import opened Packing
  import opened Reservation
  import opened Cluster
  import opened Plugin
  import opened Ownership

  /** CPU 1 is offline, so that position and identifier differ. */
  const CPUS: Allocatable := map[0 := RtCpuInfo(0, 0), 1 := RtCpuInfo(2, 0)]
  const PLUGINS: map<NodeName, Allocatable> := map["node" := CPUS]
  const LIST: seq<AllocatableCpu> := [AllocatableCpu(0, 0), AllocatableCpu(2, 0)]
  const IDLE: UtilMap := map[0 := 0, 2 := 0]
  const HALF := Request("claim", 1, 500, 1000)
  const ALLOCATED: seq<AllocatedCpu> := [AllocatedCpu(2, 500, 1000)]
  const PREPARED: PreparedClaims := map["claim" := RtCpus([PreparedRtCpuInfo(2, 500, 500, 0)])]
  const STORED: map<Uid, PreparedCpuset> := map["claim" := PreparedRtCpu([PreparedCpu(2, 500)])]
  const CLAIMS: Claims := map["claim" := RtCpu(ALLOCATED, "pod")]
  const CHARGED: UtilMap := map[0 := 0, 2 := 500]

  /** The node's object, listing `p` as prepared, before and after the commit. */
  function Filled(p: map<Uid, PreparedCpuset>, ready: bool): NodeObject {
    NodeObject(NodeSpec(LIST, map[], p, map[]), ready)
  }

  function Held(p: map<Uid, PreparedCpuset>): NodeObject {
    NodeObject(NodeSpec(LIST, CLAIMS, p, CHARGED), true)
  }

  lemma IdleList()
    ensures InitUtil(LIST) == IDLE
    ensures Enumerates(InitUtil(LIST), CPUS)
  {
    assert LIST[..1] == [AllocatableCpu(0, 0)];
    assert LIST[..1][..0] == [];
    assert InitUtil(LIST[..1][..0]) == map[];
    assert InitUtil(LIST[..1]) == map[][0 := 0];
    assert InitUtil(LIST) == map[][0 := 0][2 := 0];
    assert CPUS[0] == RtCpuInfo(0, IDLE[0]) && CPUS[1] == RtCpuInfo(2, IDLE[2]);
  }

  lemma Chosen()
    ensures WorstFit(IDLE, 500, 1, [2])
  {
    assert [2][0] in Fitting(IDLE, 500);
  }

  lemma Asked()
    ensures AskOf(HALF) == Ask(1, 500) && Asks([HALF]) == [Ask(1, 500)]
  {
    assert Share(500, 1000) == 500;
  }

  lemma Made()
    ensures Todo([HALF], map[]) == [HALF]
    ensures NewClaims([HALF], [[2]], "pod") == CLAIMS
  {
    assert [HALF][..0] == [];
    assert Todo([HALF][..0], map[]) == [];
    assert NewClaims([HALF][..0], [[2]][..0], "pod") == map[];
    assert Devices([2], HALF) == ALLOCATED;
  }

  lemma Placed()
    ensures PackedBy(IDLE, Asks([HALF]), [[2]])
    ensures Todo([HALF], map[]) == [HALF]
    ensures NewClaims([HALF], [[2]], "pod") == CLAIMS
  {
    hide WorstFit, Asks, NewClaims, Todo;
    Asked();
    Chosen();
    Made();
    assert PackedBy(IDLE, [], []) && After(IDLE, [], []) == IDLE;
    PackedByAppend(IDLE, [], [], Ask(1, 500), [2]);
    assert [] + [Ask(1, 500)] == [Ask(1, 500)] && [] + [[2]] == [[2]];
  }

  lemma Charged()
    ensures Charge(IDLE, ALLOCATED) == CHARGED
  {
    assert ALLOCATED[..0] == [];
    assert Charge(IDLE, ALLOCATED[..0]) == IDLE;
    assert Share(500, 1000) == 500;
  }

  lemma PreparedForms()
    ensures map["claim" := RtCpus(PreparedOf(ALLOCATED))] == PREPARED
    ensures Stored(PREPARED) == STORED
  {
    assert Share(500, 1000) == 500;
    assert PreparedOf(ALLOCATED) == [PreparedRtCpuInfo(2, 500, 500, 0)];
    assert StoredCpus(PreparedOf(ALLOCATED)) == [PreparedCpu(2, 500)];
  }

  function Ready(p: map<Uid, PreparedCpuset>): State {
    State(map["node" := Filled(p, true)], map[], map[])
  }

  lemma ProbeSucceeds(p: map<Uid, PreparedCpuset>) returns (s: State)
    ensures Next(Ready(p), Probe("node", true, [HALF], "pod", [[2]]), s)
    ensures s.store == Ready(p).store && PendingOn(s.allocations, "node") == CLAIMS
  {
    hide PackedBy, After, Admit, Profile, NewClaims, Todo, Asks;
    var spec := Filled(p, true).spec;
    IdleList();
    Placed();
    assert PendingOn(Ready(p).allocations, "node") == map[];
    assert Everything(spec, map[]) == map[];
    NothingOverlaid(spec);
    assert Unplaced(Ready(p), "node", [HALF]) == [HALF];
    PackingRefined(IDLE, Asks([HALF]), [[2]]);
    s := Probed(Ready(p), "node", [HALF], "pod", [[2]]);
    ProbedPending(Ready(p), "node", [HALF], "pod", [[2]], "node");
  }

  lemma NothingOverlaid(spec: NodeSpec)
    requires spec.util == map[] && InitUtil(spec.allocatable) == IDLE
    ensures OverlayUtil(spec, map[]) == IDLE
  {
  }

  lemma CommitSucceeds(p: map<Uid, PreparedCpuset>, s: State) returns (s': State)
    requires s.store == Ready(p).store && PendingOn(s.allocations, "node") == CLAIMS
    ensures Next(s, Commit("node", true, "claim", Applied), s')
    ensures s'.store == map["node" := Held(p)]
  {
    hide InitUtil, Charge;
    assert "claim" in PendingOn(s.allocations, "node");
    IdleList();
    Charged();
    s' := CommittedState(s, "node", "claim", Applied);
  }

  lemma Filling(m: PreparedClaims)
    requires Known(CPUS, map[]) && m == Rebuilt(CPUS, map[])
    ensures Started(CPUS, BLANK, LIST, Applied) == (Some(m), Filled(Stored(m), false))
    ensures m.Keys == {}
  {
  }

  lemma NoneKnown()
    ensures Known(CPUS, map[])
  {
  }

  lemma PrepareSucceeds(m: PreparedClaims, p: map<Uid, PreparedCpuset>)
    requires m.Keys == {}
    ensures Dividable(CLAIMS, "claim")
    ensures Prepared(m, Held(p), "claim", Faults(true, true, true), LIST, Applied) == (PREPARED, Held(STORED))
  {
    PreparedForms();
    assert m["claim" := RtCpus(PreparedOf(ALLOCATED))] == PREPARED;
  }

  function Created(): Joint {
    Joint(EMPTY.(store := map["node" := BLANK]), map[])
  }

  function Running(m: PreparedClaims, ready: bool): Joint {
    Joint(State(map["node" := Filled(Stored(m), ready)], map[], map[]), map["node" := m])
  }

  lemma PluginStarts(m: PreparedClaims)
    requires Known(CPUS, map[]) && m == Rebuilt(CPUS, map[])
    ensures NextJoint(PLUGINS, Joint(EMPTY, map[]), Create("node", Applied), Created())
    ensures NextJoint(PLUGINS, Created(), Start("node", LIST, Applied), Running(m, false))
    ensures NextJoint(PLUGINS, Running(m, false), Status("node", true), Running(m, true))
  {
    hide Next, Enumerates, Started, Stored, Rebuilt;
    IdleList();
    Filling(m);
  }

  lemma PluginPrepares(m: PreparedClaims, s: State)
    requires m.Keys == {} && s.store == map["node" := Held(Stored(m))]
    ensures NextJoint(
              PLUGINS, Joint(s, map["node" := m]), Prepare("node", "claim", Faults(true, true, true), LIST, Applied),
              Joint(s.(store := map["node" := Held(STORED)]), map["node" := PREPARED]))
  {
    hide Next, Enumerates, Prepared, Stored;
    IdleList();
    PrepareSucceeds(m, Stored(m));
  }

  /** A run after which the claim is prepared on CPU 2, in the plugin and in the object. */
  lemma PreparedRun() returns (states: seq<Joint>, steps: seq<Step>)
    ensures JointRun(PLUGINS, states, steps) && |steps| == 6
    ensures states[6].cluster.store == map["node" := Held(STORED)]
    ensures states[6].memory == map["node" := PREPARED]
  {
    hide Next, Enumerates, Stored, Rebuilt, PendingOn, Known;
    NoneKnown();
    var m := Rebuilt(CPUS, map[]);
    Filling(m);
    PluginStarts(m);
    var s := ProbeSucceeds(Stored(m));
    var s' := CommitSucceeds(Stored(m), s);
    PluginPrepares(m, s');
    var j4, j5 := Joint(s, map["node" := m]), Joint(s', map["node" := m]);
    var j6 := Joint(s'.(store := map["node" := Held(STORED)]), map["node" := PREPARED]);
    assert NextJoint(PLUGINS, Running(m, true), Control(Probe("node", true, [HALF], "pod", [[2]])), j4);
    assert NextJoint(PLUGINS, j4, Control(Commit("node", true, "claim", Applied)), j5);
    hide NextJoint;
    states := [Joint(EMPTY, map[]), Created(), Running(m, false), Running(m, true), j4, j5, j6];
    steps := [Create("node", Applied), Start("node", LIST, Applied), Status("node", true),
              Control(Probe("node", true, [HALF], "pod", [[2]])), Control(Commit("node", true, "claim", Applied)),
              Prepare("node", "claim", Faults(true, true, true), LIST, Applied)];
  }

  lemma OneMoreStep(states: seq<Joint>, steps: seq<Step>, a: Step, s: Joint)
    requires JointRun(PLUGINS, states, steps) && NextJoint(PLUGINS, states[|steps|], a, s)
    ensures JointRun(PLUGINS, states + [s], steps + [a])
  {
    hide NextJoint;
  }

  /**
   A run to a state in which no start of the plugin can succeed: the stored CPU 2 is no
   index of the enumeration, and looking it up is a nil dereference.
   */
  lemma RestartCanFail() returns (states: seq<Joint>, steps: seq<Step>)
    ensures JointRun(PLUGINS, states, steps) && |steps| == 7
    ensures steps[6] == Start("node", LIST, Applied) && "node" in states[6].memory && "node" !in states[7].memory
    ensures "node" in states[7].cluster.store
    ensures forall list, write ::
              Started(CPUS, states[7].cluster.store["node"], list, write) == (None, states[7].cluster.store["node"])
  {
    hide JointRun, Enumerates;
    IdleList();
    states, steps := PreparedRun();
    var obj := Held(STORED);
    assert !Known(CPUS, STORED) by {
      assert STORED["claim"].cpuset[0].id !in CPUS;
      assert !KnownDevices(CPUS, STORED["claim"]);
    }
    assert |states| == 7 by {
      RunLength(states, steps);
    }
    var s := Joint(states[6].cluster, map[]);
    assert states[6].cluster.store["node" := obj] == states[6].cluster.store;
    assert NextJoint(PLUGINS, states[6], Start("node", LIST, Applied), s);
    OneMoreStep(states, steps, Start("node", LIST, Applied), s);
    states, steps := states + [s], steps + [Start("node", LIST, Applied)];
  }

  lemma RunLength(states: seq<Joint>, steps: seq<Step>)
    requires JointRun(PLUGINS, states, steps)
    ensures |states| == |steps| + 1
  {
  }

  /**
   A run in which a repeated prepare whose write is rejected leaves the claim with the object but
   not with the plugin.
   */
  lemma RepeatedPrepareForgets() returns (states: seq<Joint>, steps: seq<Step>)
    ensures JointRun(PLUGINS, states, steps) && |steps| == 7
    ensures steps[6] == Prepare("node", "claim", Faults(true, true, true), LIST, Rejected)
    ensures "node" in states[6].memory && "claim" in states[6].memory["node"]
    ensures "node" in states[7].memory && "claim" !in states[7].memory["node"]
    ensures "node" in states[7].cluster.store && "claim" in states[7].cluster.store["node"].spec.prepared
  {
    hide JointRun, Enumerates;
    states, steps := PreparedRun();
    RunLength(states, steps);
    var obj := Held(STORED);
    PrepareSucceeds(map[], STORED);
    FailedPrepareForgets(PREPARED, obj, "claim", Faults(true, true, true), LIST, Rejected);
    var (m, obj') := Prepared(PREPARED, obj, "claim", Faults(true, true, true), LIST, Rejected);
    var s := With(states[6], "node", m, obj');
    OneMoreStep(states, steps, Prepare("node", "claim", Faults(true, true, true), LIST, Rejected), s);
    states, steps := states + [s], steps + [Prepare("node", "claim", Faults(true, true, true), LIST, Rejected)];
  }
}
