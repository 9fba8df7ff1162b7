/**
 The controller driver: fetch the node's object, run the per-node operation, write the
 object back.  Each operation runs under its node's lock and is proved to be one step of
 the cluster state machine, so everything shown about runs of that machine applies.
 */
module Driver {
  import opened Nas
  import opened Demand
  import opened Packing
  import opened Reservation
  import opened Cluster
  import opened Promise
  import opened Effects
  import opened RtController

  /** No cpuset of the controller's making is the zero value. */
  ghost predicate AllRt(s: State) {
    && (forall n <- s.store :: AllRtCpu(s.store[n].spec.claims))
    && (forall u <- s.allocations, n <- s.allocations[u] :: s.allocations[u][n].RtCpu?)
  }

  lemma ReserveKeepsRt(a: Allocations, n: NodeName, m: Claims)
    requires forall u <- a, n <- a[u] :: a[u][n].RtCpu?
    requires AllRtCpu(m)
    ensures forall u <- Reserve(a, n, m), n' <- Reserve(a, n, m)[u] :: Reserve(a, n, m)[u][n'].RtCpu?
  {
  }

  lemma NextKeepsRt(s: State, a: Action, s': State)
    requires AllRt(s) && Next(s, a, s')
    ensures AllRt(s')
  {
    hide PackedBy, Admit, Profile, NewClaims, Reserve, After, Charge, Ledger, Stale;
    match a
    case Probe(n, reachable, reqs, cgroup, choices) =>
      if Suitable(s, n, reachable, reqs) {
        MadeRtCpu(Unplaced(s, n, reqs), choices, cgroup);
        ReserveKeepsRt(s.allocations - Stale(s, n), n, NewClaims(Unplaced(s, n, reqs), choices, cgroup));
      }
    case Commit(_, _, _, _) =>
    case Release(_, _, _, _) =>
    case Join(_, _) =>
    case PluginWrite(_, _) =>
  }

  // ----- unique -----

  /** The first occurrence of every string, in order. */
  function Dedup(s: seq<string>): seq<string> {
    if s == [] then []
    else
      var last := s[|s| - 1];
      Dedup(s[..|s| - 1]) + if last in s[..|s| - 1] then [] else [last]
  }

  lemma {:induction false} DedupProperties(s: seq<string>)
    ensures Distinct(Dedup(s))
    ensures forall x :: x in Dedup(s) <==> x in s
  {
    if s != [] {
      DedupProperties(s[..|s| - 1]);
      assert s == s[..|s| - 1] + [s[|s| - 1]];
    }
  }

  /** The element of `d` at `i` stands for its first occurrence in `s`, at `p[i]`. */
  ghost predicate FirstAt(s: seq<string>, d: seq<string>, p: seq<nat>) {
    && |p| == |d|
    && (forall i :: 0 <= i < |p| ==> p[i] < |s| && s[p[i]] == d[i] && d[i] !in s[..p[i]])
    && (forall i, j :: 0 <= i < j < |p| ==> p[i] < p[j])
  }

  /** The elements kept stand in the order of their first occurrences. */
  lemma {:induction false} DedupKeepsOrder(s: seq<string>) returns (p: seq<nat>)
    ensures FirstAt(s, Dedup(s), p)
  {
    p := [];
    if s != [] {
      var n := |s| - 1;
      p := DedupKeepsOrder(s[..n]);
      assert forall i :: 0 <= i < |p| ==> s[..n][..p[i]] == s[..p[i]];
      if s[n] !in s[..n] {
        p := p + [n];
      }
    }
  }

  method Unique(s: seq<string>) returns (news: seq<string>)
    ensures news == Dedup(s)
    ensures Distinct(news) && (forall x :: x in news <==> x in s) && exists p :: FirstAt(s, news, p)
  {
    var set_: set<string> := {};
    news := [];
    for i := 0 to |s|
      invariant news == Dedup(s[..i])
      invariant forall x :: x in set_ <==> x in s[..i]
    {
      assert s[..i + 1][..i] == s[..i];
      if s[i] !in set_ {
        set_ := set_ + {s[i]};
        news := news + [s[i]];
      }
    }
    assert s[..|s|] == s;
    DedupProperties(s);
    ghost var _ := DedupKeepsOrder(s);
  }

  /** The claims of a pod have distinct UIDs, and usable parameters where they are of the known kind. */
  predicate GoodPod(cas: seq<ClaimAllocation>) {
    && DistinctUids(cas)
    && forall i :: 0 <= i < |cas| && cas[i].params.RtClaimParameters? ==> GoodRequest(RequestOf(cas[i]))
  }

  predicate AllKnown(cas: seq<ClaimAllocation>) {
    forall i :: 0 <= i < |cas| ==> cas[i].params.RtClaimParameters?
  }

  lemma KnownPod(cas: seq<ClaimAllocation>)
    requires GoodPod(cas) && AllKnown(cas)
    ensures GoodBatch(Reqs(cas))
  {
  }

  /** Initialising the ledger of a fetched object changes nothing else. */
  lemma FetchedSpec(stored: NodeSpec, pend: Claims)
    requires NodeOk(stored, pend)
    ensures var spec := stored.(util := Ledger(stored));
            && spec.util == Ledger(spec) == Ledger(stored)
            && GoodClaims(pend, Ledger(spec).Keys)
  {
  }

  /** A single claim that a node does not hold finds room there exactly if enough CPUs have room for its share. */
  lemma OneClaimMarked(s: State, ca: ClaimAllocation, n: NodeName, reachable: bool)
    requires Inv(s) && GoodRequest(RequestOf(ca)) && reachable && n in s.store && s.store[n].ready
    requires ca.uid !in EverythingOn(s, n)
    ensures var base, held := Base(s.store[n].spec), EverythingOn(s, n);
            var share := ca.params.runtime * 1000 / ca.params.period;
            Suitable(s, n, reachable, Reqs([ca]))
            <==> |WithRoom(base, held, share)| >= ca.params.count
  {
    hide Suitable, Inv;
    assert Reqs([ca]) == [RequestOf(ca)];
    OneClaimFits(s, n, reachable, RequestOf(ca));
  }

  /** The states and actions of one probe after the other of the given nodes. */
  ghost predicate ProbesAll(
      states: seq<State>, actions: seq<Action>, reqs: seq<Request>, cgroup: string, nodes: seq<NodeName>)
  {
    && Segment(states, actions) && |actions| == |nodes|
    && forall i :: 0 <= i < |nodes| ==>
         && actions[i].Probe? && actions[i].node == nodes[i]
         && actions[i].reqs == reqs && actions[i].cgroup == cgroup
  }

  /** The nodes whose probe found no room, in the order they were probed. */
  ghost function MarkedBy(states: seq<State>, actions: seq<Action>): seq<NodeName>
    requires |states| == |actions| + 1
  {
    if actions == [] then []
    else
      var i := |actions| - 1;
      var a := actions[i];
      MarkedBy(states[..i + 1], actions[..i])
      + if a.Probe? && !Suitable(states[i], a.node, a.reachable, a.reqs) then [a.node] else []
  }

  lemma SuitableIsUp(s: State, n: NodeName, reachable: bool, reqs: seq<Request>)
    ensures Suitable(s, n, reachable, reqs) ==> Up(s, n, reachable)
  {
  }

  lemma UpMeans(s: State, n: NodeName, reachable: bool)
    ensures Up(s, n, reachable) <==> reachable && n in s.store && s.store[n].ready
  {
  }

  /** Exactly the nodes of some probe without room are marked. */
  lemma {:induction false} MarkedExactly(states: seq<State>, actions: seq<Action>, x: NodeName)
    requires |states| == |actions| + 1
    ensures x in MarkedBy(states, actions)
       <==> exists i :: 0 <= i < |actions| && MarksAt(states, actions, i) && actions[i].node == x
  {
    hide Suitable;
    if actions != [] {
      var n := |actions| - 1;
      MarkedExactly(states[..n + 1], actions[..n], x);
      assert forall i :: 0 <= i < n ==> MarksAt(states[..n + 1], actions[..n], i) == MarksAt(states, actions, i);
      if MarksAt(states, actions, n) && actions[n].node == x {
        assert x in MarkedBy(states, actions);
      }
    }
  }

  ghost predicate MarksAt(states: seq<State>, actions: seq<Action>, i: nat)
    requires |states| == |actions| + 1 && i < |actions|
  {
    var a := actions[i];
    a.Probe? && !Suitable(states[i], a.node, a.reachable, a.reqs)
  }

  lemma MarkedInProbes(
      states: seq<State>, actions: seq<Action>, reqs: seq<Request>, cgroup: string, nodes: seq<NodeName>,
      reachable: seq<bool>, x: NodeName)
    requires ProbesAll(states, actions, reqs, cgroup, nodes) && |reachable| == |nodes|
    requires forall i :: 0 <= i < |nodes| ==> actions[i].reachable == reachable[i]
    ensures x in MarkedBy(states, actions)
       <==> exists i :: 0 <= i < |nodes| && nodes[i] == x && !Suitable(states[i], x, reachable[i], reqs)
  {
    hide Suitable, Next, MarkedBy;
    MarkedExactly(states, actions, x);
    if i :| 0 <= i < |nodes| && nodes[i] == x && !Suitable(states[i], x, reachable[i], reqs) {
      assert MarksAt(states, actions, i);
    }
    if i :| 0 <= i < |actions| && MarksAt(states, actions, i) && actions[i].node == x {
      assert nodes[i] == x;
    }
  }

  lemma NothingMarked(states: seq<State>)
    requires |states| == 1
    ensures MarkedBy(states, []) == []
  {
  }

  lemma MarksOneMore(states: seq<State>, actions: seq<Action>, a: Action, s: State)
    requires |states| == |actions| + 1 && a.Probe?
    ensures MarkedBy(states + [s], actions + [a])
         == MarkedBy(states, actions)
            + if Suitable(states[|actions|], a.node, a.reachable, a.reqs) then [] else [a.node]
  {
    hide Suitable;
    assert (states + [s])[..|actions| + 1] == states && (actions + [a])[..|actions|] == actions;
  }

  lemma ProbesOneMore(
      states: seq<State>, actions: seq<Action>, reqs: seq<Request>, cgroup: string, nodes: seq<NodeName>,
      a: Action, s: State)
    requires ProbesAll(states, actions, reqs, cgroup, nodes)
    requires a.Probe? && a.reqs == reqs && a.cgroup == cgroup && Next(states[|actions|], a, s)
    ensures ProbesAll(states + [s], actions + [a], reqs, cgroup, nodes + [a.node])
  {
    hide Next;
  }

  class Driver {
    /** The API server's objects. */
    var store: map<NodeName, NodeObject>
    const rtdriver: RtDriver

    ghost function StateOf(): State
      reads this, rtdriver.pendingAllocatedClaims
    {
      State(store, rtdriver.pendingAllocatedClaims.allocations, rtdriver.pendingAllocatedClaims.utilisation)
    }

    ghost predicate Valid()
      reads this, rtdriver.pendingAllocatedClaims
    {
      Inv(StateOf()) && AllRt(StateOf())
    }

    constructor ()
      ensures Valid() && StateOf() == EMPTY
    {
      store := map[];
      rtdriver := new RtDriver();
    }

    /** Fetches a node's object; `reachable` tells whether the request is answered. */
    method ClientGet(node: NodeName, reachable: bool) returns (crd: NodeAllocationState?)
      ensures crd != null <==> reachable && node in store
      ensures crd != null ==> fresh(crd) && crd.spec == store[node].spec && crd.ready == store[node].ready
    {
      crd := null;
      if reachable && node in store {
        crd := new NodeAllocationState(store[node].spec, store[node].ready);
      }
    }

    /** Overwrites a node's spec; `write` tells what becomes of it. */
    method ClientUpdate(node: NodeName, spec: NodeSpec, write: WriteOutcome) returns (ok: bool)
      requires node in store
      modifies this`store
      ensures ok == write.Applied?
      ensures store == if write.Rejected? then old(store) else old(store)[node := old(store)[node].(spec := spec)]
    {
      if write != Rejected {
        store := store[node := store[node].(spec := spec)];
      }
      ok := write.Applied?;
    }

    lemma EntriesUsable(uid: Uid)
      requires Valid()
      ensures rtdriver.pendingAllocatedClaims.Usable(uid)
    {
      var s := StateOf();
      forall n | n in EntriesOf(s.allocations, uid)
        ensures s.allocations[uid][n].RtCpu? && forall c <- s.allocations[uid][n].cpuset :: c.period != 0
      {
        InvAt(s, n);
        assert PendingOn(s.allocations, n)[uid] == s.allocations[uid][n];
        assert GoodCpuset(s.allocations[uid][n], Base(s.store[n].spec).Keys);
      }
    }

    /**
     Commits one claim on the selected node; `answer` tells what the API server does.  The
     call succeeds exactly if the node is ready and either has the claim already, or has it
     reserved and takes the write; then the claim is committed there.  Any other answer says
     what was in the way.
     */
    method AllocateOne(ca: ClaimAllocation, selectedNode: NodeName, answer: Answer)
      returns (result: Option<AllocationResult>, error: Option<AllocationError>)
      requires Valid()
      modifies this`store, rtdriver.pendingAllocatedClaims
      ensures Valid()
      ensures Next(old(StateOf()), CommitOf(ca, selectedNode, answer), StateOf())
      ensures result == if error.None? then Some(AllocationResult(selectedNode, true)) else None
      ensures error == Some(ImmediateAllocation) <==> selectedNode == ""
      ensures error == Some(CommitFailed(Unreachable))
         <==> selectedNode != "" && !(answer.reachable && selectedNode in old(store))
      ensures error == Some(CommitFailed(NotReady))
         <==> selectedNode != "" && answer.reachable && selectedNode in old(store) && !old(store)[selectedNode].ready
      ensures selectedNode != "" && answer.reachable && selectedNode in old(store) && old(store)[selectedNode].ready ==>
                var committed := ca.uid in old(store)[selectedNode].spec.claims;
                var known := ca.params.RtClaimParameters?;
                var pending := ca.uid in PendingOn(old(rtdriver.pendingAllocatedClaims.allocations), selectedNode);
                && (error == None <==> committed || (known && pending && answer.write.Applied?))
                && (error == Some(UnknownParametersKind) <==> !committed && !known)
                && (error == Some(CommitFailed(NoReservation)) <==> !committed && known && !pending)
                && (error == Some(CommitFailed(WriteFailed))
                    <==> !committed && known && pending && !answer.write.Applied?)
      ensures error == None ==> selectedNode in store && ca.uid in store[selectedNode].spec.claims
    {
      hide Inv, AllRt;
      ghost var s := StateOf();
      if selectedNode == "" {
        return None, Some(ImmediateAllocation);
      }
      var crd := ClientGet(selectedNode, answer.reachable);
      if crd == null {
        return None, Some(CommitFailed(Unreachable));
      }
      if !crd.ready {
        return None, Some(CommitFailed(NotReady));
      }
      crd.InitialiseLedger();
      if ca.uid in crd.spec.claims {
        return Some(AllocationResult(selectedNode, true)), None;
      }
      if ca.params.UnknownParameters? {
        return None, Some(UnknownParametersKind);
      }
      var r := rtdriver.Allocate(crd, ca.uid, selectedNode);
      if r == NothingReserved {
        return None, Some(CommitFailed(NoReservation));
      }
      assert CommitWrites(s, selectedNode, answer.reachable, ca.uid);
      EntriesUsable(ca.uid);
      var ok := ClientUpdate(selectedNode, crd.spec, answer.write);
      if !ok {
        result, error := None, Some(CommitFailed(WriteFailed));
      } else {
        rtdriver.OnSuccess(ca.uid, selectedNode);
        result, error := Some(AllocationResult(selectedNode, true)), None;
      }
      assert StateOf() == CommittedState(s, selectedNode, ca.uid, answer.write);
      NextKeepsInv(s, CommitOf(ca, selectedNode, answer), StateOf());
      NextKeepsRt(s, CommitOf(ca, selectedNode, answer), StateOf());
    }

    /**
     Commits a batch of claims on the selected node, one after the other.  The ghost
     results list the states in between, so that the call is a segment of a run.  A claim is
     answered without an error exactly if it could be committed in the state that its turn
     came in, and all claims so answered are committed on the node in the end.
     */
    method Allocate(cas: seq<ClaimAllocation>, selectedNode: NodeName, answers: seq<Answer>)
      returns (ghost states: seq<State>, ghost actions: seq<Action>)
      requires Valid() && DistinctUids(cas) && |answers| == |cas|
      modifies this`store, rtdriver.pendingAllocatedClaims, Elements(cas)`allocation, Elements(cas)`error
      ensures Valid()
      ensures Segment(states, actions) && |actions| == |cas|
      ensures states[0] == old(StateOf()) && states[|cas|] == StateOf()
      ensures forall i :: 0 <= i < |cas| ==>
                && actions[i] == CommitOf(cas[i], selectedNode, answers[i])
                && cas[i].allocation
                   == (if cas[i].error.None? then Some(AllocationResult(selectedNode, true)) else None)
      ensures forall i :: 0 <= i < |cas| ==> Answered(cas[i], selectedNode, states[i], answers[i])
      ensures forall i :: 0 <= i < |cas| && cas[i].error == None ==>
                selectedNode in store && cas[i].uid in store[selectedNode].spec.claims
    {
      hide Next, Inv, AllRt, PendingOn;
      states, actions := [StateOf()], [];
      for i := 0 to |cas|
        invariant Valid()
        invariant |actions| == i && Segment(states, actions)
        invariant states[0] == old(StateOf()) && states[i] == StateOf()
        invariant forall j :: 0 <= j < i ==>
                    && actions[j] == CommitOf(cas[j], selectedNode, answers[j])
                    && Answered(cas[j], selectedNode, states[j], answers[j])
                    && cas[j].allocation
                       == (if cas[j].error.None? then Some(AllocationResult(selectedNode, true)) else None)
                    && (cas[j].error == None ==> CommittedOn(StateOf(), selectedNode, cas[j].uid))
      {
        ghost var before := StateOf();
        var result, error := AllocateOne(cas[i], selectedNode, answers[i]);
        CommitKeepsCommitted(before, cas[i], selectedNode, answers[i], StateOf());
        cas[i].allocation, cas[i].error := result, error;
        states, actions := states + [StateOf()], actions + [CommitOf(cas[i], selectedNode, answers[i])];
      }
    }

    /**
     Releases a committed claim from the node it was allocated on.  It succeeds exactly if no
     node was selected, or the node's object is fetched and either does not have the claim, or
     is fetched again, has it with CPUs, and the write is applied; then the object is without
     the claim.  `found` and `latest` tell whether the two fetches are answered.
     */
    method Deallocate(uid: Uid, selectedNode: NodeName, found: bool, latest: bool, write: WriteOutcome)
      returns (ok: bool)
      requires Valid()
      modifies this`store, rtdriver.pendingAllocatedClaims
      ensures Valid()
      ensures Next(old(StateOf()),
                   Release(selectedNode, selectedNode != "" && found && latest, uid, write), StateOf())
      ensures ok
         <==> || selectedNode == ""
              || (&& found && selectedNode in old(store)
                  && (uid in old(store)[selectedNode].spec.claims ==>
                        latest && old(store)[selectedNode].spec.claims[uid].RtCpu? && write.Applied?))
      ensures ok && selectedNode != "" ==> selectedNode in store && uid !in store[selectedNode].spec.claims
    {
      hide Inv, AllRt;
      ghost var s := StateOf();
      if selectedNode == "" {
        return true;
      }
      var crd := ClientGet(selectedNode, found);
      if crd == null {
        return false;
      }
      if uid !in crd.spec.claims {
        return true;
      }
      // The object is fetched a second time before anything is changed.
      crd := ClientGet(selectedNode, latest);
      if crd == null {
        return false;
      }
      var devices := crd.spec.claims[uid];
      if devices.NoRtCpu? {
        return false;
      }
      EntriesUsable(uid);
      ReleasedClaim(uid, selectedNode);
      rtdriver.Deallocate(uid);
      var util := DischargeLedger(crd.spec.util, devices.cpuset);
      crd.spec := crd.spec.(claims := crd.spec.claims - {uid}, util := util);
      ok := ClientUpdate(selectedNode, crd.spec, write);
      assert StateOf() == ReleasedState(s, selectedNode, uid, write);
      NextKeepsInv(s, Release(selectedNode, true, uid, write), StateOf());
      NextKeepsRt(s, Release(selectedNode, true, uid, write), StateOf());
    }

    /**
     Probes one potential node for a pod's claims.  A node that is not fetched or not ready is
     marked, with no other effect.  On a node that is not marked, each claim not held there
     before has the CPUs that its parameters ask for; and a single such claim is marked
     exactly if fewer CPUs than it asks for have room for its share of 950 per mille.
     */
    method UnsuitableNode(cgroupUID: string, allcas: seq<ClaimAllocation>, potentialNode: NodeName, reachable: bool)
      returns (failed: bool, ghost choices: seq<seq<CpuId>>)
      requires Valid() && GoodPod(allcas)
      modifies rtdriver.pendingAllocatedClaims, Elements(allcas)`unsuitableNodes
      ensures Valid()
      ensures failed
         <==> reachable && potentialNode in store && store[potentialNode].ready && !AllKnown(allcas)
      ensures !AllKnown(allcas) ==> StateOf() == old(StateOf())
      ensures AllKnown(allcas) ==>
                Next(old(StateOf()), Probe(potentialNode, reachable, Reqs(allcas), cgroupUID, choices), StateOf())
      ensures var fits := Suitable(old(StateOf()), potentialNode, reachable, Reqs(allcas));
              forall ca <- allcas ::
                ca.unsuitableNodes == old(ca.unsuitableNodes) + if failed || fits then [] else [potentialNode]
      ensures !(reachable && potentialNode in store && store[potentialNode].ready) ==>
                && StateOf() == old(StateOf())
                && forall ca <- allcas :: ca.unsuitableNodes == old(ca.unsuitableNodes) + [potentialNode]
      ensures forall ca <- allcas ::
                !failed && ca.unsuitableNodes == old(ca.unsuitableNodes) ==>
                  && potentialNode in store
                  && var now := PendingOn(rtdriver.pendingAllocatedClaims.allocations, potentialNode);
                     || ca.uid in old(EverythingOn(StateOf(), potentialNode))
                     || (ca.uid in now && ReservedFor(now[ca.uid], ca.params, cgroupUID))
      ensures reachable && potentialNode in store && store[potentialNode].ready && AllKnown(allcas) && |allcas| == 1
              && allcas[0].uid !in old(EverythingOn(StateOf(), potentialNode)) ==>
                var ca, base := allcas[0], Base(store[potentialNode].spec);
                var held := old(EverythingOn(StateOf(), potentialNode));
                var share := ca.params.runtime * 1000 / ca.params.period;
                (ca.unsuitableNodes == old(ca.unsuitableNodes) + [potentialNode]
                 <==> |WithRoom(base, held, share)| < ca.params.count)
    {
      hide Inv, AllRt, GoodClaims, Everything, OverlayUtil, PackedBy, StaleIn, Stale, Admit, After, Todo;
      hide WithRoom, RoomyCpus, ReservedFor, Load, PendingOn, NewClaims, Reserve, Profile;
      ghost var s := StateOf();
      choices := [];
      var crd := ClientGet(potentialNode, reachable);
      if crd == null || !crd.ready {
        rtdriver.MarkAll(allcas, potentialNode);
        return false, choices;
      }
      crd.InitialiseLedger();
      var known := true;
      for i := 0 to |allcas|
        invariant known <==> forall j :: 0 <= j < i ==> allcas[j].params.RtClaimParameters?
        invariant unchanged(this) && unchanged(rtdriver.pendingAllocatedClaims)
        invariant forall ca <- allcas :: ca.unsuitableNodes == old(ca.unsuitableNodes)
        invariant crd.spec == s.store[potentialNode].spec.(util := Ledger(s.store[potentialNode].spec))
      {
        if allcas[i].params.UnknownParameters? {
          known := false;
        }
      }
      if !known {
        return true, choices;
      }
      KnownPod(allcas);
      FetchedNode(potentialNode, crd.spec);
      ghost var packedLoad;
      choices, packedLoad := rtdriver.UnsuitableNode(crd, cgroupUID, allcas, potentialNode);
      if |allcas| == 1 && allcas[0].uid !in EverythingOn(s, potentialNode) {
        assert allcas == [allcas[0]] && GoodRequest(Reqs(allcas)[0]);
        OneClaimMarked(s, allcas[0], potentialNode, reachable);
      }
      NextKeepsInv(s, Probe(potentialNode, reachable, Reqs(allcas), cgroupUID, choices), StateOf());
      NextKeepsRt(s, Probe(potentialNode, reachable, Reqs(allcas), cgroupUID, choices), StateOf());
      failed := false;
    }

    /** What the per-node probe may rely on about the object it is given. */
    lemma FetchedNode(n: NodeName, spec: NodeSpec)
      requires Valid() && n in store && spec == store[n].spec.(util := Ledger(store[n].spec))
      ensures spec.util == Ledger(spec)
      ensures var pend := PendingOn(rtdriver.pendingAllocatedClaims.allocations, n);
              && GoodClaims(pend, Ledger(spec).Keys)
              && (forall u <- Everything(spec, pend) :: Everything(spec, pend)[u].RtCpu?)
              && OverlayUtil(spec, pend) == ProbeUtil(StateOf(), n)
              && Everything(spec, pend) == Everything(store[n].spec, pend)
              && StaleIn(spec, pend) == Stale(StateOf(), n)
    {
      hide NodeOk, Inv;
      InvAt(StateOf(), n);
      var pend := PendingOn(rtdriver.pendingAllocatedClaims.allocations, n);
      FetchedSpec(store[n].spec, pend);
      forall u | u in Everything(spec, pend)
        ensures Everything(spec, pend)[u].RtCpu?
      {
        if u !in spec.claims {
          assert pend[u] == rtdriver.pendingAllocatedClaims.allocations[u][n];
        }
      }
    }

    method UniqueAll(cas: seq<ClaimAllocation>)
      requires DistinctUids(cas)
      modifies Elements(cas)`unsuitableNodes
      ensures forall ca <- cas :: ca.unsuitableNodes == Dedup(old(ca.unsuitableNodes))
    {
      for i := 0 to |cas|
        invariant forall j :: 0 <= j < i ==> cas[j].unsuitableNodes == Dedup(old(cas[j].unsuitableNodes))
        invariant forall j :: i <= j < |cas| ==> cas[j].unsuitableNodes == old(cas[j].unsuitableNodes)
      {
        var news := Unique(cas[i].unsuitableNodes);
        cas[i].unsuitableNodes := news;
      }
    }

    /**
     Probes every potential node.  Afterwards a claim's list of unsuitable nodes consists
     of what it held before and the nodes whose probe found no room, without repetition.  A
     claim with parameters of another kind ends it with an error at the first node that is
     up (after `passed` others), and leaves on the lists the nodes before.
     */
    method UnsuitableNodes(
        cgroupUID: string, cas: seq<ClaimAllocation>, potentialNodes: seq<NodeName>, reachable: seq<bool>)
      returns (failed: bool, ghost states: seq<State>, ghost actions: seq<Action>, ghost passed: nat)
      requires Valid() && GoodPod(cas) && |reachable| == |potentialNodes|
      modifies rtdriver.pendingAllocatedClaims, Elements(cas)`unsuitableNodes
      ensures Valid()
      ensures failed
         <==> && !AllKnown(cas)
              && exists i :: 0 <= i < |potentialNodes| && Up(old(StateOf()), potentialNodes[i], reachable[i])
      ensures !AllKnown(cas) ==>
                && StateOf() == old(StateOf()) && passed <= |potentialNodes|
                && (forall i :: 0 <= i < passed ==> !Up(old(StateOf()), potentialNodes[i], reachable[i]))
                && (if failed then passed < |potentialNodes|
                                   && Up(old(StateOf()), potentialNodes[passed], reachable[passed])
                    else passed == |potentialNodes|)
                && forall ca <- cas ::
                     ca.unsuitableNodes == if failed then old(ca.unsuitableNodes) + potentialNodes[..passed]
                                           else Dedup(old(ca.unsuitableNodes) + potentialNodes)
      ensures AllKnown(cas) ==>
                && ProbesAll(states, actions, Reqs(cas), cgroupUID, potentialNodes)
                && (forall i :: 0 <= i < |potentialNodes| ==> actions[i].reachable == reachable[i])
                && states[0] == old(StateOf()) && states[|potentialNodes|] == StateOf()
                && forall ca <- cas :: ca.unsuitableNodes == Dedup(old(ca.unsuitableNodes) + MarkedBy(states, actions))
      ensures AllKnown(cas) ==>
                forall ca <- cas, x ::
                  x in ca.unsuitableNodes
                  <==> || x in old(ca.unsuitableNodes)
                       || exists i :: 0 <= i < |potentialNodes| && potentialNodes[i] == x
                                      && !Suitable(states[i], x, reachable[i], Reqs(cas))
    {
      hide Next, Suitable, Dedup, AllRt, Inv, Up, MarkedBy;
      states, actions, passed := [StateOf()], [], 0;
      NothingMarked(states);
      for i := 0 to |potentialNodes|
        invariant Valid()
        invariant passed == i && |actions| == i && |states| == i + 1 && states[0] == old(StateOf())
        invariant states[i] == StateOf()
        invariant forall ca <- cas :: ca.unsuitableNodes == old(ca.unsuitableNodes) + MarkedBy(states, actions)
        invariant !AllKnown(cas) ==> StateOf() == old(StateOf()) && MarkedBy(states, actions) == potentialNodes[..i]
        invariant !AllKnown(cas) ==> forall j :: 0 <= j < i ==> !Up(old(StateOf()), potentialNodes[j], reachable[j])
        invariant AllKnown(cas) ==> ProbesAll(states, actions, Reqs(cas), cgroupUID, potentialNodes[..i])
        invariant forall j :: 0 <= j < i ==> actions[j].Probe? && actions[j].reachable == reachable[j]
      {
        ghost var before := StateOf();
        ghost var choices;
        var err;
        err, choices := UnsuitableNode(cgroupUID, cas, potentialNodes[i], reachable[i]);
        UpMeans(before, potentialNodes[i], reachable[i]);
        if err {
          return true, states, actions, passed;
        }
        ghost var a := Probe(potentialNodes[i], reachable[i], Reqs(cas), cgroupUID, choices);
        assert potentialNodes[..i + 1] == potentialNodes[..i] + [potentialNodes[i]];
        SuitableIsUp(before, potentialNodes[i], reachable[i], Reqs(cas));
        MarksOneMore(states, actions, a, StateOf());
        if AllKnown(cas) {
          ProbesOneMore(states, actions, Reqs(cas), cgroupUID, potentialNodes[..i], a, StateOf());
        }
        states, actions, passed := states + [StateOf()], actions + [a], i + 1;
      }
      assert potentialNodes[..|potentialNodes|] == potentialNodes;
      ghost var marked := MarkedBy(states, actions);
      UniqueAll(cas);
      failed := false;
      if AllKnown(cas) {
        forall ca, x | ca in cas
          ensures x in ca.unsuitableNodes
             <==> || x in old(ca.unsuitableNodes)
                  || exists i :: 0 <= i < |potentialNodes| && potentialNodes[i] == x
                                 && !Suitable(states[i], x, reachable[i], Reqs(cas))
        {
          DedupProperties(old(ca.unsuitableNodes) + marked);
          MarkedInProbes(states, actions, Reqs(cas), cgroupUID, potentialNodes, reachable, x);
        }
      }
    }

    /** A node with a committed claim has a stored ledger, and the claim's periods are not zero. */
    lemma ReleasedClaim(uid: Uid, n: NodeName)
      requires Valid() && n in store && uid in store[n].spec.claims
      ensures store[n].spec.util == Ledger(store[n].spec)
      ensures forall c <- store[n].spec.claims[uid].Cpus() :: c.period != 0
    {
    }
  }

  /** What the API server does during a commit: whether it answers the fetch, and what becomes of the write. */
  datatype Answer = Answer(reachable: bool, write: WriteOutcome)

  /** A commit of a claim with unknown parameters never gets as far as writing. */
  ghost function CommitOf(ca: ClaimAllocation, n: NodeName, answer: Answer): Action {
    Commit(n, n != "" && answer.reachable, ca.uid, if ca.params.RtClaimParameters? then answer.write else Rejected)
  }

  /** What a commit in state `s` reported back for one claim. */
  ghost predicate Answered(ca: ClaimAllocation, n: NodeName, s: State, answer: Answer)
    reads ca
  {
    if n == "" then ca.error == Some(ImmediateAllocation)
    else if !answer.reachable || n !in s.store then ca.error == Some(CommitFailed(Unreachable))
    else if !s.store[n].ready then ca.error == Some(CommitFailed(NotReady))
    else
      var committed := ca.uid in s.store[n].spec.claims;
      var pending := ca.uid in PendingOn(s.allocations, n);
      && (ca.error == None
          <==> committed || (ca.params.RtClaimParameters? && pending && answer.write.Applied?))
      && (ca.error == Some(UnknownParametersKind) <==> !committed && ca.params.UnknownParameters?)
      && (ca.error == Some(CommitFailed(NoReservation))
          <==> !committed && ca.params.RtClaimParameters? && !pending)
      && (ca.error == Some(CommitFailed(WriteFailed))
          <==> !committed && ca.params.RtClaimParameters? && pending && !answer.write.Applied?)
  }

  lemma CommitKeepsCommitted(s: State, ca: ClaimAllocation, n: NodeName, answer: Answer, s': State)
    requires Next(s, CommitOf(ca, n, answer), s')
    ensures forall u :: CommittedOn(s, n, u) ==> CommittedOn(s', n, u)
  {
    forall u | CommittedOn(s, n, u)
      ensures CommittedOn(s', n, u)
    {
      CommittedStable(s, CommitOf(ca, n, answer), s', n, u);
    }
  }

  /** Takes a claim's entries off the ledger, skipping CPUs it does not list. */
  method DischargeLedger(util: UtilMap, cpuset: seq<AllocatedCpu>) returns (r: UtilMap)
    requires forall i :: 0 <= i < |cpuset| ==> cpuset[i].period != 0
    ensures r == DischargeListed(util, cpuset)
  {
    r := util;
    for i := 0 to |cpuset|
      invariant r == DischargeListed(util, cpuset[..i])
    {
      assert cpuset[..i + 1][..i] == cpuset[..i];
      var cpu := cpuset[i];
      if cpu.id in r {
        var newUtil := r[cpu.id] - Share(cpu.runtime, cpu.period);
        if newUtil < 0 {
          newUtil := 0;
        }
        r := r[cpu.id := newUtil];
      }
    }
    assert cpuset[..|cpuset|] == cpuset;
  }
}
