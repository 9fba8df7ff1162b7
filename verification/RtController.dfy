/**
 The controller's per-node operations on reservations (`rtdriver`): packing a batch of
 claims, probing a node, and the commit and release halves that touch the reservations.
 Each method is proved to be the corresponding step of the cluster state machine.
 */
module RtController {
  import opened Nas
  import opened Demand
  import opened Partition
  import opened Packing
  import opened Reservation
  import opened Cluster
  import opened Pending

  datatype ClaimParameters =
    | RtClaimParameters(count: nat, runtime: int, period: int)
    | UnknownParameters

  datatype AllocationResult = AllocationResult(node: NodeName, shareable: bool)

  datatype AllocationError =
    | ImmediateAllocation
    | UnknownParametersKind
    | CommitFailed(verdict: CommitVerdict)

  /** The commit half's answer: an error, nothing to do, or an object to write and a callback to run after it. */
  datatype Committing = NothingReserved | AlreadyCommitted | WriteThenForget

  /** One claim of a pod, as the scheduler hands it to the controller. */
  class ClaimAllocation {
    const uid: Uid
    const params: ClaimParameters
    var unsuitableNodes: seq<NodeName>
    var allocation: Option<AllocationResult>
    var error: Option<AllocationError>

    constructor (uid: Uid, params: ClaimParameters)
      ensures this.uid == uid && this.params == params
      ensures unsuitableNodes == [] && allocation == None && error == None
    {
      this.uid, this.params := uid, params;
      unsuitableNodes, allocation, error := [], None, None;
    }
  }

  function RequestOf(ca: ClaimAllocation): (r: Request)
    ensures r.uid == ca.uid
    ensures ca.params.RtClaimParameters? ==>
              r.count == ca.params.count && r.runtime == ca.params.runtime && r.period == ca.params.period
  {
    match ca.params
    case RtClaimParameters(count, runtime, period) => Request(ca.uid, count, runtime, period)
    case UnknownParameters => Request(ca.uid, 0, 0, 0)
  }

  function Reqs(cas: seq<ClaimAllocation>): (reqs: seq<Request>)
    ensures |reqs| == |cas| && forall i :: 0 <= i < |reqs| ==> reqs[i] == RequestOf(cas[i])
  {
    seq(|cas|, i requires 0 <= i < |cas| => RequestOf(cas[i]))
  }

  // ----- Packing -----

  /** The state of packing after some requests: choices made and the ledger they lead to. */
  ghost predicate Packed(
      u: UtilMap, todo: seq<Request>, choices: seq<seq<CpuId>>, util: UtilMap,
      packed: map<Uid, seq<AllocatedCpu>>)
  {
    && PackedBy(u, Asks(todo), choices)
    && util == After(u, Asks(todo), choices)
    && forall i :: 0 <= i < |todo| ==> todo[i].uid in packed && packed[todo[i].uid] == Devices(choices[i], todo[i])
  }

  /** Every request has got as many CPUs as it asked for. */
  predicate Sized(packed: map<Uid, seq<AllocatedCpu>>, todo: seq<Request>) {
    forall r <- todo :: r.uid in packed && |packed[r.uid]| == r.count
  }

  /** The claim has the CPUs it holds already, or as many as its parameters ask for, with their runtime and period. */
  ghost predicate PackedFor(packed: map<Uid, seq<AllocatedCpu>>, ca: ClaimAllocation, known: Claims) {
    && ca.uid in packed
    && if ca.uid in known then packed[ca.uid] == known[ca.uid].Cpus()
       else
         && ca.params.RtClaimParameters? && |packed[ca.uid]| == ca.params.count
         && forall i :: 0 <= i < |packed[ca.uid]| ==>
              packed[ca.uid][i].runtime == ca.params.runtime && packed[ca.uid][i].period == ca.params.period
  }

  lemma PackedByNothing(u: UtilMap)
    ensures PackedBy(u, [], []) && After(u, [], []) == u
  {
  }

  lemma PackedAppend(
    u: UtilMap, todo: seq<Request>, choices: seq<seq<CpuId>>, util: UtilMap, packed: map<Uid, seq<AllocatedCpu>>,
    r: Request, c: seq<CpuId>)
    requires Packed(u, todo, choices, util, packed)
    requires WorstFit(util, AskOf(r).share, r.count, c)
    requires forall i :: 0 <= i < |todo| ==> todo[i].uid != r.uid
    ensures Packed(u, todo + [r], choices + [c], Place(util, c, AskOf(r).share), packed[r.uid := Devices(c, r)])
  {
    assert Asks(todo + [r]) == Asks(todo) + [AskOf(r)];
    PackedByAppend(u, Asks(todo), choices, AskOf(r), c);
  }

  /** `Todo` of a prefix of the batch is a prefix of `Todo` of the batch. */
  lemma {:induction false} TodoPrefix(reqs: seq<Request>, known: Claims, i: nat)
    requires i <= |reqs|
    ensures Todo(reqs[..i], known) <= Todo(reqs, known)
    decreases |reqs|
  {
    if i < |reqs| {
      assert reqs[..|reqs| - 1][..i] == reqs[..i];
      TodoPrefix(reqs[..|reqs| - 1], known, i);
    } else {
      assert reqs[..i] == reqs;
    }
  }

  lemma NothingTodo(reqs: seq<Request>, known: Claims)
    ensures Todo(reqs[..0], known) == []
  {
  }

  lemma TodoNext(reqs: seq<Request>, known: Claims, i: nat)
    requires i < |reqs|
    ensures Todo(reqs[..i + 1], known)
            == if reqs[i].uid in known then Todo(reqs[..i], known) else Todo(reqs[..i], known) + [reqs[i]]
  {
    assert reqs[..i + 1][..i] == reqs[..i];
  }

  /** Requests of a prefix are not the next one's. */
  lemma TodoDistinct(reqs: seq<Request>, known: Claims, i: nat)
    requires GoodBatch(reqs) && i < |reqs|
    ensures forall j :: 0 <= j < |Todo(reqs[..i], known)| ==> Todo(reqs[..i], known)[j].uid != reqs[i].uid
  {
    TodoProperties(reqs[..i], known);
    forall j | 0 <= j < |Todo(reqs[..i], known)|
      ensures Todo(reqs[..i], known)[j].uid != reqs[i].uid
    {
      assert Todo(reqs[..i], known)[j] in reqs[..i];
    }
  }

  /** If one request finds too few CPUs, the batch is not admitted. */
  lemma AdmitStuck(v: seq<int>, asks: seq<Ask>, a: Ask)
    requires Admit(v, asks).Some? && Step(Admit(v, asks).value, a).None?
    ensures Admit(v, asks + [a]).None?
  {
  }

  lemma StuckAt(u: UtilMap, reqs: seq<Request>, known: Claims, i: nat, choices: seq<seq<CpuId>>, util: UtilMap)
    requires i < |reqs| && reqs[i].uid !in known
    requires PackedBy(u, Asks(Todo(reqs[..i], known)), choices)
    requires util == After(u, Asks(Todo(reqs[..i], known)), choices)
    requires |Fitting(util, AskOf(reqs[i]).share)| < reqs[i].count
    ensures Admit(Profile(u), Asks(Todo(reqs, known))).None?
  {
    hide Todo, PackedBy, After, Profile, Fitting, Step, Admit;
    var before, upto := Todo(reqs[..i], known), Todo(reqs[..i + 1], known);
    TodoNext(reqs, known, i);
    PackingRefined(u, Asks(before), choices);
    StepStuck(util, AskOf(reqs[i]));
    assert upto == before + [reqs[i]];
    assert Asks(upto) == Asks(before) + [AskOf(reqs[i])];
    AdmitStuck(Profile(u), Asks(before), AskOf(reqs[i]));
    TodoPrefix(reqs, known, i + 1);
    assert Asks(Todo(reqs, known))[..|upto|] == Asks(upto);
    StuckStaysStuck(Profile(u), Asks(Todo(reqs, known)), |upto|);
  }

  /** The node's CPUs by identifier; the packing loop would drop one whose load exceeds the threshold. */
  function AvailableIds(allocatable: seq<AllocatableCpu>): set<CpuId> {
    set d <- allocatable :: d.id
  }

  /** Adds a claim's share to the utilisation of each chosen CPU. */
  method PlaceClaim(util0: UtilMap, r: Request, c: seq<CpuId>, available0: set<CpuId>)
    returns (util: UtilMap, devices: seq<AllocatedCpu>, available: set<CpuId>)
    requires GoodRequest(r) && Placement(util0, AskOf(r).share, r.count, c)
    ensures util == Place(util0, c, AskOf(r).share)
    ensures devices == Devices(c, r)
    ensures available == available0
  {
    var claimUtil := Share(r.runtime, r.period);
    util, devices, available := util0, [], available0;
    assert Place(util0, [], claimUtil) == util0;
    for i := 0 to r.count
      invariant util == Place(util0, c[..i], claimUtil)
      invariant devices == Devices(c[..i], r)
      invariant available == available0
    {
      var id := c[i];
      assert id in Fitting(util0, claimUtil) && id !in c[..i];
      assert c[..i + 1] == c[..i] + [id];
      util := util[id := util[id] + claimUtil];
      if util[id] > THRESHOLD {
        available := available - {id};
      }
      devices := devices + [AllocatedCpu(id, r.runtime, r.period)];
    }
    assert c[..r.count] == c;
  }

  /** Chooses CPUs for one claim and places it on them. */
  method PackOne(util0: UtilMap, r: Request, available0: set<CpuId>)
    returns (c: Option<seq<CpuId>>, util: UtilMap, devices: seq<AllocatedCpu>, available: set<CpuId>)
    requires GoodRequest(r)
    ensures c.None? <==> |Fitting(util0, AskOf(r).share)| < r.count
    ensures c.Some? ==>
              && WorstFit(util0, AskOf(r).share, r.count, c.value)
              && util == Place(util0, c.value, AskOf(r).share) && devices == Devices(c.value, r)
    ensures available == available0
  {
    hide Place, Fitting, Share;
    var claimUtil := Share(r.runtime, r.period);
    c := CpuPartitioning(util0, claimUtil, r.count, "worstFit");
    util, devices, available := util0, [], available0;
    if c.Some? {
      util, devices, available := PlaceClaim(util0, r, c.value, available0);
    }
  }

  /** One claim of the batch: held already, placed, or the end of the packing. */
  method PackNext(
      crd: NodeAllocationState, ca: ClaimAllocation, util0: UtilMap, packed0: map<Uid, seq<AllocatedCpu>>,
      available0: set<CpuId>, ghost u: UtilMap, ghost reqs: seq<Request>, ghost i: nat, ghost choices0: seq<seq<CpuId>>)
    returns (
      ok: bool, util: UtilMap, packed: map<Uid, seq<AllocatedCpu>>, available: set<CpuId>,
      ghost choices: seq<seq<CpuId>>)
    requires GoodBatch(reqs) && i < |reqs| && reqs[i] == RequestOf(ca)
    requires ca.uid in crd.spec.claims ==> crd.spec.claims[ca.uid].RtCpu?
    requires Packed(u, Todo(reqs[..i], crd.spec.claims), choices0, util0, packed0)
    ensures ok ==> Packed(u, Todo(reqs[..i + 1], crd.spec.claims), choices, util, packed)
    ensures ok ==> PackedFor(packed, ca, crd.spec.claims)
    ensures ok ==> forall u <- packed0 :: u != ca.uid ==> u in packed && packed[u] == packed0[u]
    ensures !ok ==> Admit(Profile(u), Asks(Todo(reqs, crd.spec.claims))).None?
    ensures available == available0
  {
    hide Todo, PackedBy, After, Profile, Admit, WorstFit, Fitting, Place, Share;
    ghost var known := crd.spec.claims;
    TodoNext(reqs, known, i);
    TodoDistinct(reqs, known, i);
    util, packed, choices, available, ok := util0, packed0, choices0, available0, true;
    if ca.uid in crd.spec.claims {
      packed := packed0[ca.uid := crd.spec.claims[ca.uid].cpuset];
      return;
    }
    var r := RequestOf(ca);
    var worstFitCpus, devices;
    worstFitCpus, util, devices, available := PackOne(util0, r, available0);
    if worstFitCpus.None? {
      StuckAt(u, reqs, known, i, choices0, util0);
      ok := false;
      return;
    }
    PackedAppend(u, Todo(reqs[..i], known), choices0, util0, packed0, r, worstFitCpus.value);
    choices := choices0 + [worstFitCpus.value];
    packed := packed0[ca.uid := devices];
    PlacedCount(worstFitCpus.value, util0, r);
  }

  lemma PlacedCount(c: seq<CpuId>, u: UtilMap, r: Request)
    requires WorstFit(u, AskOf(r).share, r.count, c)
    ensures |c| == r.count
  {
  }

  /**
   Packs the batch's claims that the node does not hold yet, one after the other.  The
   verdict is that of `Admit` on the sorted utilisations, whatever order the ledger is
   enumerated in; a failure yields empty results.
   */
  method Pack(crd: NodeAllocationState, cas: seq<ClaimAllocation>)
    returns (
      packed: map<Uid, seq<AllocatedCpu>>, util: UtilMap, ghost choices: seq<seq<CpuId>>, ghost available: set<CpuId>)
    requires GoodBatch(Reqs(cas))
    requires forall i :: 0 <= i < |cas| && cas[i].uid in crd.spec.claims ==> crd.spec.claims[cas[i].uid].RtCpu?
    ensures var todo := Todo(Reqs(cas), crd.spec.claims);
            var verdict := Admit(Profile(crd.spec.util), Asks(todo));
            if verdict.Some? then Profile(util) == verdict.value && Sized(packed, todo)
            else packed == map[] && util == map[]
    ensures var todo := Todo(Reqs(cas), crd.spec.claims);
            if Admit(Profile(crd.spec.util), Asks(todo)).Some? then Packed(crd.spec.util, todo, choices, util, packed)
            else packed == map[] && util == map[]
    ensures Admit(Profile(crd.spec.util), Asks(Todo(Reqs(cas), crd.spec.claims))).Some? ==>
              forall ca <- cas :: PackedFor(packed, ca, crd.spec.claims)
    ensures available == AvailableIds(crd.spec.allocatable)
  {
    hide Packed, PackedBy, PackedFor, WorstFit, Sized, Profile, After, Place, Todo, Admit, GoodBatch;
    GoodBatchDistinct(cas);
    ghost var reqs, u := Reqs(cas), crd.spec.util;
    var avail := AvailableIds(crd.spec.allocatable);
    PackedNothing(u, reqs, crd.spec.claims);
    util, packed, choices, available := crd.spec.util, map[], [], avail;
    for i := 0 to |cas|
      invariant avail == AvailableIds(crd.spec.allocatable)
      invariant Packed(u, Todo(reqs[..i], crd.spec.claims), choices, util, packed)
      invariant forall j :: 0 <= j < i ==> PackedFor(packed, cas[j], crd.spec.claims)
    {
      var ok;
      ghost var packed0 := packed;
      ok, util, packed, avail, choices := PackNext(crd, cas[i], util, packed, avail, u, reqs, i, choices);
      if !ok {
        packed, util := map[], map[];
        return;
      }
      OthersStayPacked(cas, i, packed0, packed, crd.spec.claims);
    }
    assert reqs[..|cas|] == reqs;
    PackedAll(u, Todo(reqs, crd.spec.claims), choices, util, packed);
  }

  lemma OthersStayPacked(
      cas: seq<ClaimAllocation>, i: nat, packed0: map<Uid, seq<AllocatedCpu>>, packed: map<Uid, seq<AllocatedCpu>>,
      known: Claims)
    requires i < |cas| && DistinctUids(cas)
    requires forall j :: 0 <= j < i ==> PackedFor(packed0, cas[j], known)
    requires forall u <- packed0 :: u != cas[i].uid ==> u in packed && packed[u] == packed0[u]
    ensures forall j :: 0 <= j < i ==> PackedFor(packed, cas[j], known)
  {
  }

  lemma PackedNothing(u: UtilMap, reqs: seq<Request>, known: Claims)
    ensures Packed(u, Todo(reqs[..0], known), [], u, map[])
  {
    PackedByNothing(u);
  }

  lemma PackedAll(
      u: UtilMap, todo: seq<Request>, choices: seq<seq<CpuId>>, util: UtilMap,
      packed: map<Uid, seq<AllocatedCpu>>)
    requires Packed(u, todo, choices, util, packed)
    ensures Admit(Profile(u), Asks(todo)) == Some(Profile(util)) && Sized(packed, todo)
  {
    PackingRefined(u, Asks(todo), choices);
    PackedCounts(u, todo, choices, util, packed);
  }

  lemma PackedCounts(
      u: UtilMap, todo: seq<Request>, choices: seq<seq<CpuId>>, util: UtilMap,
      packed: map<Uid, seq<AllocatedCpu>>)
    requires Packed(u, todo, choices, util, packed)
    ensures Sized(packed, todo)
  {
    PackedPlacements(u, Asks(todo), choices);
  }

  // ----- Probing one node -----

  /** The part of `m` whose claims were visited. */
  ghost function Visited(m: Claims, seen: set<Uid>): Claims {
    map u | u in m && u in seen :: m[u]
  }

  /** Visiting a claim that is not pending on the node, or is committed there, adds nothing. */
  lemma VisitedOther(spec: NodeSpec, pend: Claims, seen: set<Uid>, u: Uid)
    requires u !in pend || u in spec.claims
    ensures Everything(spec, Visited(pend, seen + {u})) == Everything(spec, Visited(pend, seen))
    ensures OverlayUtil(spec, Visited(pend, seen + {u})) == OverlayUtil(spec, Visited(pend, seen))
  {
    assert Visited(pend, seen + {u}) - spec.claims.Keys == Visited(pend, seen) - spec.claims.Keys;
  }

  /** Visiting a pending claim charges it to the overlay. */
  lemma VisitedPending(spec: NodeSpec, pend: Claims, seen: set<Uid>, u: Uid)
    requires u in pend && u !in spec.claims && u !in seen
    requires GoodClaims(pend, Ledger(spec).Keys)
    ensures Everything(spec, Visited(pend, seen + {u})) == Everything(spec, Visited(pend, seen))[u := pend[u]]
    ensures OverlayUtil(spec, Visited(pend, seen + {u}))
            == Charge(OverlayUtil(spec, Visited(pend, seen)), pend[u].Cpus())
    ensures u !in Everything(spec, Visited(pend, seen))
  {
    var before := Visited(pend, seen) - spec.claims.Keys;
    VisitedInsert(spec, pend, seen, u);
    AddLoadInsert(Ledger(spec), before, u, pend[u]);
  }

  lemma VisitedInsert(spec: NodeSpec, pend: Claims, seen: set<Uid>, u: Uid)
    requires u in pend && u !in spec.claims && u !in seen
    ensures Visited(pend, seen + {u}) - spec.claims.Keys == (Visited(pend, seen) - spec.claims.Keys)[u := pend[u]]
    ensures Everything(spec, Visited(pend, seen + {u})) == Everything(spec, Visited(pend, seen))[u := pend[u]]
  {
  }

  ghost function StaleIn(spec: NodeSpec, pend: Claims): set<Uid> {
    set u | u in pend && u in spec.claims
  }

  /** What the visit still sees of a claim it has not reached. */
  lemma Unvisited(a: Allocations, node: NodeName, spec: NodeSpec, seen: set<Uid>, u: Uid)
    requires u !in seen
    ensures var pend := PendingOn(a, node);
            var rest := a - (StaleIn(spec, pend) * seen);
            && (u in rest && node in rest[u] <==> u in pend)
            && (u in pend ==> rest[u][node] == pend[u])
            && (u in Everything(spec, Visited(pend, seen)) <==> u in spec.claims)
            && rest - (if u in pend && u in spec.claims then {u} else {}) == a - (StaleIn(spec, pend) * (seen + {u}))
  {
  }

  /** The fetched object and the reservations after the claims of `seen` were visited. */
  ghost predicate Visiting(
      now: NodeSpec, left: Allocations, node: NodeName, spec: NodeSpec, a: Allocations, seen: set<Uid>)
  {
    var pend := PendingOn(a, node);
    && now == spec.(claims := Everything(spec, Visited(pend, seen)), util := OverlayUtil(spec, Visited(pend, seen)))
    && left == a - (StaleIn(spec, pend) * seen)
  }

  lemma VisitingStarts(node: NodeName, spec: NodeSpec, a: Allocations)
    requires spec.util == Ledger(spec)
    ensures Visiting(spec, a, node, spec, a, {})
  {
  }

  lemma VisitingEnds(now: NodeSpec, left: Allocations, node: NodeName, spec: NodeSpec, a: Allocations)
    requires Visiting(now, left, node, spec, a, a.Keys)
    ensures now == spec.(claims := Everything(spec, PendingOn(a, node)), util := OverlayUtil(spec, PendingOn(a, node)))
    ensures left == a - StaleIn(spec, PendingOn(a, node))
  {
    var pend := PendingOn(a, node);
    assert Visited(pend, a.Keys) == pend;
    assert StaleIn(spec, pend) * a.Keys == StaleIn(spec, pend);
  }

  /** What was recorded after the first `t` claims to be placed. */
  ghost predicate Recording(
    now: Allocations, util: UtilMap, swept: Allocations, node: NodeName, util0: UtilMap, cgroup: string,
    todo: seq<Request>, choices: seq<seq<CpuId>>, t: nat)
  {
    && t <= |todo| == |choices|
    && now == Reserve(swept, node, NewClaims(todo[..t], choices[..t], cgroup))
    && util == After(util0, Asks(todo[..t]), choices[..t])
  }

  lemma RecordingStarts(
      swept: Allocations, node: NodeName, util0: UtilMap, cgroup: string, todo: seq<Request>,
      choices: seq<seq<CpuId>>)
    ensures |todo| == |choices| ==> Recording(swept, util0, swept, node, util0, cgroup, todo, choices, 0)
  {
  }

  lemma RecordingEnds(
    now: Allocations, util: UtilMap, swept: Allocations, node: NodeName, util0: UtilMap, cgroup: string,
    todo: seq<Request>, choices: seq<seq<CpuId>>)
    requires Recording(now, util, swept, node, util0, cgroup, todo, choices, |choices|)
    ensures |choices| == |todo|
    ensures now == Reserve(swept, node, NewClaims(todo, choices, cgroup))
    ensures util == After(util0, Asks(todo), choices)
  {
    assert todo[..|todo|] == todo && choices[..|todo|] == choices;
  }

  /** Every claim to be placed has devices, on distinct CPUs of the ledger. */
  ghost predicate Recordable(
      util0: UtilMap, todo: seq<Request>, choices: seq<seq<CpuId>>, packed: map<Uid, seq<AllocatedCpu>>)
  {
    && |choices| == |todo|
    && forall i :: 0 <= i < |todo| ==>
         && todo[i].uid in packed && packed[todo[i].uid] == Devices(choices[i], todo[i])
         && Distinct(choices[i]) && Elements(choices[i]) <= util0.Keys && |choices[i]| == todo[i].count
  }

  lemma PackedRecordable(
      u: UtilMap, todo: seq<Request>, choices: seq<seq<CpuId>>, util: UtilMap,
      packed: map<Uid, seq<AllocatedCpu>>)
    requires Packed(u, todo, choices, util, packed)
    ensures Recordable(u, todo, choices, packed)
  {
    PackedPlacements(u, Asks(todo), choices);
    assert forall i :: 0 <= i < |todo| ==> |choices[i]| == Asks(todo)[i].count;
  }

  lemma ReserveTwice(a: Allocations, n: NodeName, m: Claims, uid: Uid, x: AllocatedCpuset)
    ensures Reserve(Reserve(a, n, m), n, map[uid := x]) == Reserve(a, n, m[uid := x])
  {
    hide EntriesWith;
    var once := Reserve(a, n, m);
    forall u
      ensures EntriesWith(once, n, map[uid := x], u) == EntriesWith(a, n, m[uid := x], u)
    {
      EntriesTwice(a, n, m, uid, x, u);
    }
  }

  lemma EntriesTwice(a: Allocations, n: NodeName, m: Claims, uid: Uid, x: AllocatedCpuset, u: Uid)
    ensures EntriesWith(Reserve(a, n, m), n, map[uid := x], u) == EntriesWith(a, n, m[uid := x], u)
  {
  }

  lemma RecordingNext(
    now: Allocations, util: UtilMap, swept: Allocations, node: NodeName, util0: UtilMap, cgroup: string,
    todo: seq<Request>, choices: seq<seq<CpuId>>, t: nat)
    requires Recording(now, util, swept, node, util0, cgroup, todo, choices, t) && t < |todo|
    ensures Recording(
              Reserve(now, node, map[todo[t].uid := RtCpu(Devices(choices[t], todo[t]), cgroup)]),
              Place(util, choices[t], AskOf(todo[t]).share),
              swept, node, util0, cgroup, todo, choices, t + 1)
  {
    assert todo[..t + 1][..t] == todo[..t] && choices[..t + 1][..t] == choices[..t];
    assert Asks(todo[..t + 1])[..t] == Asks(todo[..t]);
    ReserveTwice(
      swept, node, NewClaims(todo[..t], choices[..t], cgroup), todo[t].uid,
      RtCpu(Devices(choices[t], todo[t]), cgroup));
  }

  /** `a` has as many distinct CPUs as the claim's parameters ask for, each with their runtime and period. */
  ghost predicate ReservedFor(a: AllocatedCpuset, params: ClaimParameters, cgroup: string) {
    && a.RtCpu? && a.cgroupUID == cgroup && params.RtClaimParameters? && |a.cpuset| == params.count
    && (forall i, j :: 0 <= i < j < |a.cpuset| ==> a.cpuset[i].id != a.cpuset[j].id)
    && forall i :: 0 <= i < |a.cpuset| ==>
         a.cpuset[i].runtime == params.runtime && a.cpuset[i].period == params.period
  }

  lemma ServedAsAsked(a: AllocatedCpuset, ca: ClaimAllocation)
    requires Serves(a, RequestOf(ca)) && GoodRequest(RequestOf(ca))
    ensures ReservedFor(a, ca.params, a.cgroupUID)
  {
    assert forall i :: 0 <= i < |a.cpuset| ==> IdSeq(a.cpuset)[i] == a.cpuset[i].id && a.cpuset[i] in a.cpuset;
  }

  /** The reservations made for a batch are what its claims' parameters ask for. */
  lemma MadeAsAsked(
      u: UtilMap, cas: seq<ClaimAllocation>, known: Claims, choices: seq<seq<CpuId>>, cgroup: string,
      ca: ClaimAllocation)
    requires GoodBatch(Reqs(cas)) && PackedBy(u, Asks(Todo(Reqs(cas), known)), choices)
    requires ca in cas && ca.uid !in known
    ensures var made := NewClaims(Todo(Reqs(cas), known), choices, cgroup);
            ca.uid in made && ReservedFor(made[ca.uid], ca.params, cgroup)
  {
    hide PackedBy, Todo, NewClaims, Serves, ReservedFor;
    var reqs, todo := Reqs(cas), Todo(Reqs(cas), known);
    TodoProperties(reqs, known);
    PackedPlacements(u, Asks(todo), choices);
    NewClaimsServe(u.Keys, todo, choices, cgroup);
    MadeUnderCgroup(todo, choices, cgroup);
    var i :| 0 <= i < |cas| && cas[i] == ca;
    assert reqs[i] in todo;
    ServedAsAsked(NewClaims(todo, choices, cgroup)[ca.uid], ca);
  }

  /** The CPUs of `u` with room for `share` below 950. */
  ghost function RoomyCpus(u: UtilMap, share: int): set<CpuId> {
    set k | k in u && u[k] + share < 950
  }

  /** One claim is admitted exactly if enough CPUs have room for its share. */
  lemma OneClaimAdmitted(u: UtilMap, ca: ClaimAllocation, known: Claims)
    requires GoodRequest(RequestOf(ca)) && ca.uid !in known
    ensures Admit(Profile(u), Asks(Todo(Reqs([ca]), known))).Some?
       <==> |RoomyCpus(u, ca.params.runtime * 1000 / ca.params.period)| >= ca.params.count
  {
    hide Profile, Step;
    var r := RequestOf(ca);
    assert Reqs([ca]) == [r];
    assert [r][..0] == [] && Todo([], known) == [];
    assert Todo([r], known) == [r] && Asks([r]) == [AskOf(r)];
    assert [AskOf(r)][..0] == [];
    assert Admit(Profile(u), []) == Some(Profile(u));
    ShareNonNegative(r.runtime, r.period);
    assert Fitting(u, AskOf(r).share) == RoomyCpus(u, ca.params.runtime * 1000 / ca.params.period);
    StepStuck(u, AskOf(r));
  }

  predicate DistinctUids(cas: seq<ClaimAllocation>) {
    forall i, j :: 0 <= i < j < |cas| ==> cas[i].uid != cas[j].uid
  }

  lemma GoodBatchDistinct(cas: seq<ClaimAllocation>)
    requires GoodBatch(Reqs(cas))
    ensures DistinctUids(cas)
  {
  }

  class RtDriver {
    const pendingAllocatedClaims: PerNodeAllocatedClaims

    constructor ()
      ensures fresh(pendingAllocatedClaims)
      ensures pendingAllocatedClaims.allocations == map[] && pendingAllocatedClaims.utilisation == map[]
    {
      pendingAllocatedClaims := new PerNodeAllocatedClaims();
    }

    /** Adds one pending reservation to the fetched object. */
    method LayOver(crd: NodeAllocationState, uid: Uid, devices: AllocatedCpuset)
      modifies crd`spec
      ensures crd.spec
              == old(crd.spec).(claims := old(crd.spec).claims[uid := devices],
                                util := Charge(old(crd.spec).util, devices.Cpus()))
    {
      crd.spec := crd.spec.(claims := crd.spec.claims[uid := devices]);
      crd.SetUtilisation(uid);
    }

    /** What the visitor does with one claim of the store. */
    method VisitClaim(
        crd: NodeAllocationState, node: NodeName, uid: Uid, ghost spec: NodeSpec, ghost a: Allocations,
        ghost seen: set<Uid>)
      requires Visiting(crd.spec, pendingAllocatedClaims.allocations, node, spec, a, seen) && uid !in seen
      requires GoodClaims(PendingOn(a, node), Ledger(spec).Keys)
      modifies crd`spec, pendingAllocatedClaims`allocations
      ensures Visiting(crd.spec, pendingAllocatedClaims.allocations, node, spec, a, seen + {uid})
    {
      hide Everything, OverlayUtil, Visited, StaleIn, GoodClaims, PendingOn, Charge;
      var p := pendingAllocatedClaims;
      ghost var pend := PendingOn(a, node);
      Unvisited(a, node, spec, seen, uid);
      if uid in p.allocations && node in p.allocations[uid] {
        if uid in crd.spec.claims {
          VisitedOther(spec, pend, seen, uid);
          p.Remove(uid);
        } else {
          VisitedPending(spec, pend, seen, uid);
          LayOver(crd, uid, p.allocations[uid][node]);
        }
      } else {
        VisitedOther(spec, pend, seen, uid);
      }
    }

    /**
     Lays the node's pending reservations over the fetched object, and drops those whose
     claims turn out to be committed already.  Claims are visited in an arbitrary order.
     */
    method VisitNode(crd: NodeAllocationState, node: NodeName)
      requires crd.spec.util == Ledger(crd.spec)
      requires GoodClaims(PendingOn(pendingAllocatedClaims.allocations, node), Ledger(crd.spec).Keys)
      modifies crd`spec, pendingAllocatedClaims`allocations
      ensures var spec, pend := old(crd.spec), PendingOn(old(pendingAllocatedClaims.allocations), node);
              && crd.spec == spec.(claims := Everything(spec, pend), util := OverlayUtil(spec, pend))
              && pendingAllocatedClaims.allocations == old(pendingAllocatedClaims.allocations) - StaleIn(spec, pend)
    {
      hide Everything, OverlayUtil, StaleIn, GoodClaims, PendingOn, Visiting;
      ghost var spec, a := crd.spec, pendingAllocatedClaims.allocations;
      VisitingStarts(node, spec, a);
      VisitAll(crd, node, spec, a);
      VisitingEnds(crd.spec, pendingAllocatedClaims.allocations, node, spec, a);
    }

    method VisitAll(crd: NodeAllocationState, node: NodeName, ghost spec: NodeSpec, ghost a: Allocations)
      requires a == pendingAllocatedClaims.allocations && Visiting(crd.spec, a, node, spec, a, {})
      requires GoodClaims(PendingOn(a, node), Ledger(spec).Keys)
      modifies crd`spec, pendingAllocatedClaims`allocations
      ensures Visiting(crd.spec, pendingAllocatedClaims.allocations, node, spec, a, a.Keys)
    {
      hide Everything, OverlayUtil, StaleIn, GoodClaims, PendingOn, Visiting, Ledger;
      var todo := pendingAllocatedClaims.allocations.Keys;
      ghost var seen: set<Uid> := {};
      while todo != {}
        invariant todo + seen == a.Keys && todo !! seen
        invariant Visiting(crd.spec, pendingAllocatedClaims.allocations, node, spec, a, seen)
        decreases |todo|
      {
        var uid := NextKey(todo);
        VisitClaim(crd, node, uid, spec, a, seen);
        todo := todo - {uid};
        seen := seen + {uid};
      }
      assert seen == a.Keys;
    }

    /** Appends the node to every claim's list of unsuitable nodes. */
    method MarkAll(cas: seq<ClaimAllocation>, node: NodeName)
      requires DistinctUids(cas)
      modifies Elements(cas)`unsuitableNodes
      ensures forall ca <- cas :: ca.unsuitableNodes == old(ca.unsuitableNodes) + [node]
    {
      for i := 0 to |cas|
        invariant forall j :: 0 <= j < i ==> cas[j].unsuitableNodes == old(cas[j].unsuitableNodes) + [node]
        invariant forall j :: i <= j < |cas| ==> cas[j].unsuitableNodes == old(cas[j].unsuitableNodes)
      {
        cas[i].unsuitableNodes := cas[i].unsuitableNodes + [node];
      }
    }

    /** Adds a claim's share to the utilisation of each CPU of its reservation. */
    method AddShares(
        util0: UtilMap, devices: seq<AllocatedCpu>, claimUtil: int, ghost c: seq<CpuId>, ghost r: Request)
      returns (util: UtilMap)
      requires devices == Devices(c, r) && Distinct(c) && Elements(c) <= util0.Keys
      ensures util == Place(util0, c, claimUtil)
    {
      util := util0;
      assert Place(util0, [], claimUtil) == util0;
      for i := 0 to |devices|
        invariant util == Place(util0, c[..i], claimUtil)
      {
        assert c[i] in Elements(c) && c[i] !in c[..i];
        assert c[..i + 1] == c[..i] + [c[i]];
        util := util[devices[i].id := Lookup(util, devices[i].id) + claimUtil];
      }
      assert c[..|c|] == c;
    }

    /**
     Records a packing as reservations, and computes the utilisation it leads to.  Without
     a packing it marks the node at the first claim that would need one.
     */
    method RecordReservations(
      crd: NodeAllocationState, cgroupUID: string, cas: seq<ClaimAllocation>, node: NodeName,
      packed: map<Uid, seq<AllocatedCpu>>, ghost choices: seq<seq<CpuId>>, ghost fits: bool)
      returns (recorded: bool, util: UtilMap)
      requires GoodBatch(Reqs(cas))
      requires fits ==> Recordable(crd.spec.util, Todo(Reqs(cas), crd.spec.claims), choices, packed)
      requires !fits ==> Todo(Reqs(cas), crd.spec.claims) != [] && packed == map[]
      modifies pendingAllocatedClaims`allocations, Elements(cas)`unsuitableNodes
      ensures recorded == fits
      ensures recorded ==>
                && Recording(pendingAllocatedClaims.allocations, util,
                             old(pendingAllocatedClaims.allocations), node, crd.spec.util, cgroupUID,
                             Todo(Reqs(cas), crd.spec.claims), choices, |choices|)
                && (forall ca <- cas :: ca.unsuitableNodes == old(ca.unsuitableNodes))
      ensures !recorded ==>
                && pendingAllocatedClaims.allocations == old(pendingAllocatedClaims.allocations)
                && (forall ca <- cas :: ca.unsuitableNodes == old(ca.unsuitableNodes) + [node])
    {
      hide Recording, Todo, Share;
      assert Todo(Reqs(cas)[..0], crd.spec.claims) == [] by {
        NothingTodo(Reqs(cas), crd.spec.claims);
      }
      ghost var reqs, known, swept := Reqs(cas), crd.spec.claims, pendingAllocatedClaims.allocations;
      ghost var todo := Todo(reqs, known);
      util := crd.spec.util;
      RecordingStarts(swept, node, util, cgroupUID, todo, choices);
      for i := 0 to |cas|
        invariant forall ca <- cas :: ca.unsuitableNodes == old(ca.unsuitableNodes)
        invariant fits ==> util.Keys == crd.spec.util.Keys
        invariant fits ==>
                    Recording(pendingAllocatedClaims.allocations, util, swept, node, crd.spec.util, cgroupUID,
                              todo, choices, |Todo(reqs[..i], known)|)
        invariant !fits ==> Todo(reqs[..i], known) == [] && pendingAllocatedClaims.allocations == swept
      {
        var ca := cas[i];
        TodoNext(reqs, known, i);
        TodoPrefix(reqs, known, i + 1);
        assert reqs[i] == RequestOf(ca) && GoodRequest(reqs[i]);
        if ca.uid in crd.spec.claims {
          continue;
        }
        ghost var t := |Todo(reqs[..i], known)|;
        assert todo[t] == reqs[i];
        if ca.params.count != (if ca.uid in packed then |packed[ca.uid]| else 0) {
          GoodBatchDistinct(cas);
          MarkAll(cas, node);
          return false, util;
        }
        var claimUtil := Share(ca.params.runtime, ca.params.period);
        var devices := packed[ca.uid];
        RecordingNext(
          pendingAllocatedClaims.allocations, util, swept, node, crd.spec.util, cgroupUID, todo, choices, t);
        util := AddShares(util, devices, claimUtil, choices[t], reqs[i]);
        pendingAllocatedClaims.Set(ca.uid, node, RtCpu(devices, cgroupUID));
      }
      assert reqs[..|cas|] == reqs;
      recorded := true;
    }

    /**
     Probes one node for a batch of claims.  Either the whole batch fits: each of its
     claims not held yet is reserved on the node, the shadow utilisation is replaced by
     the load that results, and no claim is marked.  Or some claim does not fit: every
     claim of the batch is marked with the node and nothing new is reserved.  The load
     stored is the one the packing computed, which its caller throws away (`discarded`).
     */
    method UnsuitableNode(crd: NodeAllocationState, cgroupUID: string, cas: seq<ClaimAllocation>, node: NodeName)
      returns (ghost choices: seq<seq<CpuId>>, ghost discarded: UtilMap)
      requires GoodBatch(Reqs(cas))
      requires crd.spec.util == Ledger(crd.spec)
      requires GoodClaims(PendingOn(pendingAllocatedClaims.allocations, node), Ledger(crd.spec).Keys)
      requires var known := Everything(crd.spec, PendingOn(pendingAllocatedClaims.allocations, node));
               forall i :: 0 <= i < |cas| && cas[i].uid in known ==> known[cas[i].uid].RtCpu?
      modifies crd`spec, pendingAllocatedClaims, Elements(cas)`unsuitableNodes
      ensures var p, spec, a := pendingAllocatedClaims, old(crd.spec), old(pendingAllocatedClaims.allocations);
              var pend := PendingOn(a, node);
              var swept, util := a - StaleIn(spec, pend), OverlayUtil(spec, pend);
              var todo := Todo(Reqs(cas), Everything(spec, pend));
              if Admit(Profile(util), Asks(todo)).Some? then
                && PackedBy(util, Asks(todo), choices)
                && p.allocations == Reserve(swept, node, NewClaims(todo, choices, cgroupUID))
                && p.utilisation == old(p.utilisation)[node := After(util, Asks(todo), choices)]
                && p.utilisation[node] == discarded
                && (forall ca <- cas :: ca.unsuitableNodes == old(ca.unsuitableNodes))
              else
                && p.allocations == swept && p.utilisation == old(p.utilisation)
                && (forall ca <- cas :: ca.unsuitableNodes == old(ca.unsuitableNodes) + [node])
      ensures var held := Everything(old(crd.spec), PendingOn(old(pendingAllocatedClaims.allocations), node));
              forall ca <- cas :: ca.unsuitableNodes == old(ca.unsuitableNodes) && ca.uid !in held ==>
                var now := PendingOn(pendingAllocatedClaims.allocations, node);
                ca.uid in now && ReservedFor(now[ca.uid], ca.params, cgroupUID)
      ensures var spec, pend := old(crd.spec), PendingOn(old(pendingAllocatedClaims.allocations), node);
              |cas| == 1 && cas[0].uid !in Everything(spec, pend) ==>
                var ca := cas[0];
                var roomy := RoomyCpus(OverlayUtil(spec, pend), ca.params.runtime * 1000 / ca.params.period);
                (ca.unsuitableNodes == old(ca.unsuitableNodes) + [node] <==> |roomy| < ca.params.count)
    {
      hide GoodClaims, PackedBy, OverlayUtil, Everything, StaleIn, Todo, Reserve, NewClaims, After, Admit, Profile;
      hide ReservedFor, RoomyCpus, PendingOn;
      ghost var spec, pend := crd.spec, PendingOn(pendingAllocatedClaims.allocations, node);
      VisitNode(crd, node);
      ghost var swept := pendingAllocatedClaims.allocations;
      choices, discarded := PlaceBatch(crd, cgroupUID, cas, node);
      if |cas| == 1 && cas[0].uid !in Everything(spec, pend) {
        assert cas == [cas[0]] && RequestOf(cas[0]) == Reqs(cas)[0];
        OneClaimAdmitted(OverlayUtil(spec, pend), cas[0], Everything(spec, pend));
      }
      BatchReserved(crd.spec, cgroupUID, cas, node, choices, swept);
    }

    /** After a packing was recorded, each claim packed has what it asked for. */
    lemma BatchReserved(
        spec: NodeSpec, cgroup: string, cas: seq<ClaimAllocation>, node: NodeName, choices: seq<seq<CpuId>>,
        swept: Allocations)
      requires GoodBatch(Reqs(cas))
      ensures var todo := Todo(Reqs(cas), spec.claims);
              var a := pendingAllocatedClaims.allocations;
              && PackedBy(spec.util, Asks(todo), choices)
              && a == Reserve(swept, node, NewClaims(todo, choices, cgroup)) ==>
                forall ca <- cas :: ca.uid !in spec.claims ==>
                  ca.uid in PendingOn(a, node) && ReservedFor(PendingOn(a, node)[ca.uid], ca.params, cgroup)
    {
      hide PackedBy, Todo, Reserve, NewClaims, ReservedFor, PendingOn;
      var todo, a := Todo(Reqs(cas), spec.claims), pendingAllocatedClaims.allocations;
      if PackedBy(spec.util, Asks(todo), choices) && a == Reserve(swept, node, NewClaims(todo, choices, cgroup)) {
        PendingReserved(swept, node, NewClaims(todo, choices, cgroup), node);
        forall ca | ca in cas && ca.uid !in spec.claims
          ensures ca.uid in PendingOn(a, node) && ReservedFor(PendingOn(a, node)[ca.uid], ca.params, cgroup)
        {
          MadeAsAsked(spec.util, cas, spec.claims, choices, cgroup, ca);
        }
      }
    }

    /** The rest of a probe, once the pending reservations are laid over the object. */
    method PlaceBatch(crd: NodeAllocationState, cgroupUID: string, cas: seq<ClaimAllocation>, node: NodeName)
      returns (ghost choices: seq<seq<CpuId>>, ghost discarded: UtilMap)
      requires GoodBatch(Reqs(cas))
      requires forall i :: 0 <= i < |cas| && cas[i].uid in crd.spec.claims ==> crd.spec.claims[cas[i].uid].RtCpu?
      modifies pendingAllocatedClaims, Elements(cas)`unsuitableNodes
      ensures var p, todo, util := pendingAllocatedClaims, Todo(Reqs(cas), crd.spec.claims), crd.spec.util;
              if Admit(Profile(util), Asks(todo)).Some? then
                && PackedBy(util, Asks(todo), choices)
                && p.allocations == Reserve(old(p.allocations), node, NewClaims(todo, choices, cgroupUID))
                && p.utilisation == old(p.utilisation)[node := After(util, Asks(todo), choices)]
                && p.utilisation[node] == discarded
                && (forall ca <- cas :: ca.unsuitableNodes == old(ca.unsuitableNodes))
              else
                && p.allocations == old(p.allocations) && p.utilisation == old(p.utilisation)
                && (forall ca <- cas :: ca.unsuitableNodes == old(ca.unsuitableNodes) + [node])
    {
      hide PackedBy, Recordable, Recording, Profile, NewClaims, After, Reserve;
      ghost var swept := pendingAllocatedClaims.allocations;
      ghost var todo := Todo(Reqs(cas), crd.spec.claims);
      var packed, packedUtil, cs, _ := Pack(crd, cas);
      choices, discarded := cs, packedUtil;
      ghost var fits := Admit(Profile(crd.spec.util), Asks(todo)).Some?;
      if fits {
        PackedRecordable(crd.spec.util, todo, choices, packedUtil, packed);
      }
      var recorded, util := RecordReservations(crd, cgroupUID, cas, node, packed, choices, fits);
      if recorded {
        RecordingEnds(pendingAllocatedClaims.allocations, util, swept, node, crd.spec.util, cgroupUID, todo, choices);
        pendingAllocatedClaims.SetUtil(node, util);
      }
    }

    // ----- Commit and release -----

    /** Moves the claim's reservation on the node into the fetched object. */
    method Allocate(crd: NodeAllocationState, uid: Uid, node: NodeName) returns (r: Committing)
      modifies crd`spec
      ensures r == if uid !in PendingOn(pendingAllocatedClaims.allocations, node) then NothingReserved
                   else if uid in old(crd.spec).claims then AlreadyCommitted
                   else WriteThenForget
      ensures crd.spec == if r == WriteThenForget
                          then (var a := PendingOn(pendingAllocatedClaims.allocations, node)[uid];
                                old(crd.spec).(claims := old(crd.spec).claims[uid := a],
                                               util := Charge(old(crd.spec).util, a.Cpus())))
                          else old(crd.spec)
    {
      var present := pendingAllocatedClaims.Exists(uid, node);
      if !present {
        return NothingReserved;
      }
      if uid in crd.spec.claims {
        return AlreadyCommitted;
      }
      var a := pendingAllocatedClaims.Get(uid, node);
      crd.spec := crd.spec.(claims := crd.spec.claims[uid := a]);
      crd.SetUtilisation(uid);
      r := WriteThenForget;
    }

    /** Runs once the committed object is written. */
    method OnSuccess(uid: Uid, node: NodeName)
      requires pendingAllocatedClaims.Usable(uid)
      modifies pendingAllocatedClaims
      ensures pendingAllocatedClaims.utilisation
           == ForgetUtil(old(pendingAllocatedClaims.utilisation),
                         EntriesOf(old(pendingAllocatedClaims.allocations), uid), {node})
      ensures pendingAllocatedClaims.allocations == old(pendingAllocatedClaims.allocations) - {uid}
    {
      pendingAllocatedClaims.RemoveUtilOtherNodes(uid, node);
      pendingAllocatedClaims.Remove(uid);
    }

    method Deallocate(uid: Uid)
      requires pendingAllocatedClaims.Usable(uid)
      modifies pendingAllocatedClaims
      ensures pendingAllocatedClaims.utilisation
           == ForgetUtil(old(pendingAllocatedClaims.utilisation),
                         EntriesOf(old(pendingAllocatedClaims.allocations), uid), {})
      ensures pendingAllocatedClaims.allocations == old(pendingAllocatedClaims.allocations) - {uid}
    {
      pendingAllocatedClaims.RemoveUtil(uid);
      pendingAllocatedClaims.Remove(uid);
    }
  }
}
