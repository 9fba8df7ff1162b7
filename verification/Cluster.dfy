/**
 The controller as a state machine over the whole cluster: what the API server stores
 for each node, the reservations the controller keeps in memory, and its shadow
 utilisation map.  Each action is one controller operation under its node's lock.
 */
module Cluster {
  import opened Nas
  import opened Demand
  import opened Packing
  import opened Reservation

  type Allocations = map<Uid, map<NodeName, AllocatedCpuset>>

  datatype NodeObject = NodeObject(spec: NodeSpec, ready: bool)

  datatype State = State(
    store: map<NodeName, NodeObject>,
    allocations: Allocations,
    utilisation: map<NodeName, UtilMap>)

  /** What became of a write to the API server; a reply can get lost after the write took effect. */
  datatype WriteOutcome = Applied | Rejected | LostReply

  datatype Action =
    | Probe(node: NodeName, reachable: bool, reqs: seq<Request>, cgroup: string, choices: seq<seq<CpuId>>)
    | Commit(node: NodeName, reachable: bool, uid: Uid, write: WriteOutcome)
    | Release(node: NodeName, reachable: bool, uid: Uid, write: WriteOutcome)
    | Join(node: NodeName, obj: NodeObject)
    | PluginWrite(node: NodeName, obj: NodeObject)

  // ----- Pending reservations -----

  ghost function PendingOn(a: Allocations, n: NodeName): Claims {
    map u | u in a && n in a[u] :: a[u][n]
  }

  /** What is committed and pending on a node. */
  ghost function EverythingOn(s: State, n: NodeName): Claims
    requires n in s.store
  {
    Everything(s.store[n].spec, PendingOn(s.allocations, n))
  }

  function EntriesOf(a: Allocations, uid: Uid): map<NodeName, AllocatedCpuset> {
    if uid in a then a[uid] else map[]
  }

  function EntriesWith(a: Allocations, n: NodeName, m: Claims, uid: Uid): map<NodeName, AllocatedCpuset> {
    if uid in m then EntriesOf(a, uid)[n := m[uid]] else EntriesOf(a, uid)
  }

  function Reserve(a: Allocations, n: NodeName, m: Claims): Allocations {
    map u | u in a.Keys + m.Keys :: EntriesWith(a, n, m, u)
  }

  /** The shadow utilisation after the listed reservations of a claim were subtracted, except on `keep`. */
  function ForgetUtil(
      util: map<NodeName, UtilMap>, entries: map<NodeName, AllocatedCpuset>, keep: set<NodeName>): map<NodeName,
      UtilMap>
  {
    map n | n in util :: if n in entries && n !in keep then Discharge(util[n], entries[n].Cpus()) else util[n]
  }

  lemma PendingRemoved(a: Allocations, us: set<Uid>, n: NodeName)
    ensures PendingOn(a - us, n) == PendingOn(a, n) - us
  {
  }

  lemma PendingReserved(a: Allocations, n: NodeName, m: Claims, n': NodeName)
    ensures PendingOn(Reserve(a, n, m), n') == if n' == n then PendingOn(a, n) + m else PendingOn(a, n')
  {
  }

  // ----- Operations -----

  predicate Up(s: State, n: NodeName, reachable: bool) {
    reachable && n in s.store && s.store[n].ready
  }

  /** Reservations on `n` of claims that are already committed there; a probe drops them everywhere. */
  ghost function Stale(s: State, n: NodeName): set<Uid>
    requires n in s.store
  {
    set u | u in PendingOn(s.allocations, n) && u in s.store[n].spec.claims
  }

  /** The batch's claims that a probe of `n` has to place. */
  ghost function Unplaced(s: State, n: NodeName, reqs: seq<Request>): seq<Request>
    requires n in s.store
  {
    Todo(reqs, Everything(s.store[n].spec, PendingOn(s.allocations, n)))
  }

  ghost function ProbeUtil(s: State, n: NodeName): UtilMap
    requires n in s.store
  {
    OverlayUtil(s.store[n].spec, PendingOn(s.allocations, n))
  }

  /** Whether a probe of `n` finds room for the whole batch. */
  ghost predicate Suitable(s: State, n: NodeName, reachable: bool, reqs: seq<Request>) {
    Up(s, n, reachable) && Admit(Profile(ProbeUtil(s, n)), Asks(Unplaced(s, n, reqs))).Some?
  }

  ghost function Probed(s: State, n: NodeName, reqs: seq<Request>, cgroup: string, choices: seq<seq<CpuId>>): State
    requires n in s.store && |choices| == |Unplaced(s, n, reqs)|
  {
    var made := NewClaims(Unplaced(s, n, reqs), choices, cgroup);
    State(s.store,
          Reserve(s.allocations - Stale(s, n), n, made),
          s.utilisation[n := After(ProbeUtil(s, n), Asks(Unplaced(s, n, reqs)), choices)])
  }

  datatype CommitVerdict = Allocated | Unreachable | NotReady | NoReservation | WriteFailed

  function CommitVerdictOf(s: State, n: NodeName, reachable: bool, uid: Uid, write: WriteOutcome): CommitVerdict {
    if !reachable || n !in s.store then Unreachable
    else if !s.store[n].ready then NotReady
    else if uid in s.store[n].spec.claims then Allocated
    else if n !in EntriesOf(s.allocations, uid) then NoReservation
    else if write.Applied? then Allocated
    else WriteFailed
  }

  /** Whether a commit gets as far as writing the node's obj. */
  predicate CommitWrites(s: State, n: NodeName, reachable: bool, uid: Uid) {
    Up(s, n, reachable) && uid !in s.store[n].spec.claims && n in EntriesOf(s.allocations, uid)
  }

  function CommittedState(s: State, n: NodeName, uid: Uid, write: WriteOutcome): State
    requires n in s.store && n in EntriesOf(s.allocations, uid)
  {
    var entries := EntriesOf(s.allocations, uid);
    var store := s.store[n := s.store[n].(spec := Committed(s.store[n].spec, uid, entries[n]))];
    match write
    case Applied => State(store, s.allocations - {uid}, ForgetUtil(s.utilisation, entries, {n}))
    case Rejected => s
    case LostReply => s.(store := store)
  }

  /** Whether a release gets as far as changing anything. */
  predicate ReleaseActs(s: State, n: NodeName, reachable: bool, uid: Uid) {
    reachable && n in s.store && uid in s.store[n].spec.claims && s.store[n].spec.claims[uid].RtCpu?
  }

  function ReleasedState(s: State, n: NodeName, uid: Uid, write: WriteOutcome): State
    requires n in s.store && uid in s.store[n].spec.claims
  {
    State(
      if write.Rejected? then s.store else s.store[n := s.store[n].(spec := Released(s.store[n].spec, uid))],
      s.allocations - {uid},
      ForgetUtil(s.utilisation, EntriesOf(s.allocations, uid), {}))
  }

  /** The controller has not used the node yet: its plugin has created the object but not declared it ready. */
  ghost predicate Untouched(s: State, n: NodeName)
    requires n in s.store
  {
    && s.store[n].spec.claims == map[] && s.store[n].spec.util == map[] && !s.store[n].ready
    && PendingOn(s.allocations, n) == map[] && n !in s.utilisation
  }

  /** One atomic step of the controller, or of the plugin on the fields it owns. */
  ghost predicate Next(s: State, a: Action, s': State) {
    match a
    case Probe(n, reachable, reqs, cgroup, choices) =>
      GoodBatch(reqs) &&
      if Suitable(s, n, reachable, reqs) then
        && PackedBy(ProbeUtil(s, n), Asks(Unplaced(s, n, reqs)), choices)
        && s' == Probed(s, n, reqs, cgroup, choices)
      else if Up(s, n, reachable) then
        s' == s.(allocations := s.allocations - Stale(s, n))
      else s' == s
    case Commit(n, reachable, uid, write) =>
      s' == if CommitWrites(s, n, reachable, uid) then CommittedState(s, n, uid, write) else s
    case Release(n, reachable, uid, write) =>
      s' == if ReleaseActs(s, n, reachable, uid) then ReleasedState(s, n, uid, write) else s
    case Join(n, obj) =>
      && n !in s.store
      && GoodBase(Base(obj.spec)) && obj.spec.claims == map[] && obj.spec.util == map[]
      && s' == s.(store := s.store[n := obj])
    case PluginWrite(n, obj) =>
      && n in s.store
      && obj.spec.claims == s.store[n].spec.claims
      && obj.spec.util == s.store[n].spec.util
      && (Base(obj.spec) == Base(s.store[n].spec) || (Untouched(s, n) && GoodBase(Base(obj.spec))))
      && s' == s.(store := s.store[n := obj])
  }

  const EMPTY := State(map[], map[], map[])

  /** A run from the empty cluster. */
  ghost predicate Run(states: seq<State>, actions: seq<Action>) {
    && |states| == |actions| + 1
    && states[0] == EMPTY
    && forall i :: 0 <= i < |actions| ==> Next(states[i], actions[i], states[i + 1])
  }

  // ----- The invariant -----

  /** Every node is in order, and reservations exist only for known nodes. */
  ghost predicate Inv(s: State) {
    && (forall n <- s.store :: NodeOk(s.store[n].spec, PendingOn(s.allocations, n)))
    && (forall u <- s.allocations, n <- s.allocations[u] :: n in s.store)
  }

  lemma InvAt(s: State, n: NodeName)
    requires Inv(s)
    ensures n in s.store ==> NodeOk(s.store[n].spec, PendingOn(s.allocations, n))
    ensures n !in s.store ==> PendingOn(s.allocations, n) == map[]
  {
  }

  /** Removing reservations and changing the objects of nodes that stay in order keeps the invariant. */
  lemma InvIfFewerPending(s: State, s': State, us: set<Uid>)
    requires Inv(s)
    requires s'.allocations == s.allocations - us
    requires s'.store.Keys >= s.store.Keys
    requires forall n <- s'.store ::
               || (n in s.store && s'.store[n].spec == s.store[n].spec)
               || NodeOk(s'.store[n].spec, PendingOn(s'.allocations, n))
    ensures Inv(s')
  {
    forall n | n in s'.store
      ensures NodeOk(s'.store[n].spec, PendingOn(s'.allocations, n))
    {
      if n in s.store && s'.store[n].spec == s.store[n].spec {
        InvAt(s, n);
        PendingRemoved(s.allocations, us, n);
        NodeOkShrinks(s.store[n].spec, PendingOn(s.allocations, n), PendingOn(s'.allocations, n));
      }
    }
  }

  lemma ProbedPending(
      s: State, n: NodeName, reqs: seq<Request>, cgroup: string, choices: seq<seq<CpuId>>, m: NodeName)
    requires n in s.store && |choices| == |Unplaced(s, n, reqs)|
    ensures PendingOn(Probed(s, n, reqs, cgroup, choices).allocations, m)
         == PendingOn(s.allocations, m) - Stale(s, n)
            + if m == n then NewClaims(Unplaced(s, n, reqs), choices, cgroup) else map[]
  {
    PendingRemoved(s.allocations, Stale(s, n), m);
    PendingReserved(s.allocations - Stale(s, n), n, NewClaims(Unplaced(s, n, reqs), choices, cgroup), m);
  }

  lemma SubMapWithout(m: Claims, us: set<Uid>, m': Claims)
    requires forall u <- m' :: u !in m
    ensures SubMap(m - us + m', m + m')
  {
  }

  lemma ProbedNodeOk(s: State, n: NodeName, reqs: seq<Request>, cgroup: string, choices: seq<seq<CpuId>>)
    requires n in s.store && NodeOk(s.store[n].spec, PendingOn(s.allocations, n)) && GoodBatch(reqs)
    requires PackedBy(ProbeUtil(s, n), Asks(Unplaced(s, n, reqs)), choices)
    ensures NodeOk(
              s.store[n].spec,
              PendingOn(s.allocations, n) - Stale(s, n) + NewClaims(Unplaced(s, n, reqs), choices, cgroup))
  {
    var spec, pend := s.store[n].spec, PendingOn(s.allocations, n);
    var made := NewClaims(Unplaced(s, n, reqs), choices, cgroup);
    NodeOkProbe(spec, pend, reqs, choices, cgroup);
    ReservedIsNew(spec, pend, reqs, choices, cgroup);
    SubMapWithout(pend, Stale(s, n), made);
    NodeOkShrinks(spec, pend + made, pend - Stale(s, n) + made);
  }

  lemma ProbeKeepsInv(s: State, n: NodeName, reqs: seq<Request>, cgroup: string, choices: seq<seq<CpuId>>)
    requires Inv(s) && n in s.store && GoodBatch(reqs)
    requires PackedBy(ProbeUtil(s, n), Asks(Unplaced(s, n, reqs)), choices)
    ensures Inv(Probed(s, n, reqs, cgroup, choices))
  {
    var s' := Probed(s, n, reqs, cgroup, choices);
    forall m | m in s'.store
      ensures NodeOk(s'.store[m].spec, PendingOn(s'.allocations, m))
    {
      ProbedPending(s, n, reqs, cgroup, choices, m);
      if m == n {
        ProbedNodeOk(s, n, reqs, cgroup, choices);
      } else {
        assert SubMap(PendingOn(s'.allocations, m), PendingOn(s.allocations, m));
        NodeOkShrinks(s.store[m].spec, PendingOn(s.allocations, m), PendingOn(s'.allocations, m));
      }
    }
    ProbedOnKnownNodes(s, n, reqs, cgroup, choices);
  }

  lemma ProbedOnKnownNodes(s: State, n: NodeName, reqs: seq<Request>, cgroup: string, choices: seq<seq<CpuId>>)
    requires forall u <- s.allocations, n <- s.allocations[u] :: n in s.store
    requires n in s.store && |choices| == |Unplaced(s, n, reqs)|
    ensures var s' := Probed(s, n, reqs, cgroup, choices);
            forall u <- s'.allocations, n <- s'.allocations[u] :: n in s'.store
  {
  }

  lemma CommitKeepsInv(s: State, n: NodeName, uid: Uid, write: WriteOutcome)
    requires Inv(s) && n in s.store && n in EntriesOf(s.allocations, uid)
    requires uid !in s.store[n].spec.claims
    ensures Inv(CommittedState(s, n, uid, write))
  {
    hide NodeOk;
    var s' := CommittedState(s, n, uid, write);
    var spec, pend := s.store[n].spec, PendingOn(s.allocations, n);
    var a := pend[uid];
    InvAt(s, n);
    CoveredCommit(spec, pend, uid);
    var gone := if write.Applied? then {uid} else {};
    assert s'.allocations == s.allocations - gone;
    PendingRemoved(s.allocations, gone, n);
    NodeOkShrinks(Committed(spec, uid, a), pend, PendingOn(s'.allocations, n));
    InvIfFewerPending(s, s', gone);
  }

  lemma CoveredCommit(spec: NodeSpec, pend: Claims, uid: Uid)
    requires NodeOk(spec, pend) && uid in pend && uid !in spec.claims
    ensures NodeOk(Committed(spec, uid, pend[uid]), pend)
  {
    assert Everything(spec, pend)[uid := pend[uid]] == Everything(spec, pend);
    NodeOkCommit(spec, pend, uid, pend[uid]);
  }

  lemma ReleaseKeepsInv(s: State, n: NodeName, uid: Uid, write: WriteOutcome)
    requires Inv(s) && n in s.store && uid in s.store[n].spec.claims
    ensures Inv(ReleasedState(s, n, uid, write))
  {
    var s' := ReleasedState(s, n, uid, write);
    var spec, pend := s.store[n].spec, PendingOn(s.allocations, n);
    InvAt(s, n);
    PendingRemoved(s.allocations, {uid}, n);
    NodeOkShrinks(spec, pend, pend - {uid});
    NodeOkRelease(spec, pend - {uid}, uid);
    InvIfFewerPending(s, s', {uid});
  }

  lemma JoinKeepsInv(s: State, n: NodeName, obj: NodeObject)
    requires Inv(s) && n !in s.store
    requires GoodBase(Base(obj.spec)) && obj.spec.claims == map[] && obj.spec.util == map[]
    ensures Inv(s.(store := s.store[n := obj]))
  {
  }

  lemma PluginKeepsInv(s: State, n: NodeName, obj: NodeObject)
    requires Inv(s) && n in s.store
    requires obj.spec.claims == s.store[n].spec.claims
    requires obj.spec.util == s.store[n].spec.util
    requires Base(obj.spec) == Base(s.store[n].spec) || (Untouched(s, n) && GoodBase(Base(obj.spec)))
    ensures Inv(s.(store := s.store[n := obj]))
  {
    hide NodeOk;
    var s' := s.(store := s.store[n := obj]);
    InvAt(s, n);
    if Untouched(s, n) && GoodBase(Base(obj.spec)) {
      NewNodeOk(obj.spec);
    } else {
      SameFieldsNodeOk(s.store[n].spec, obj.spec, PendingOn(s.allocations, n));
    }
    assert s'.allocations == s.allocations - {};
    InvIfFewerPending(s, s', {});
  }

  lemma NewNodeOk(spec: NodeSpec)
    requires GoodBase(Base(spec)) && spec.claims == map[] && spec.util == map[]
    ensures NodeOk(spec, map[])
  {
    assert Everything(spec, map[]) == map[];
    assert Ledger(spec) == AddLoad(Base(spec), map[]);
  }

  lemma SameFieldsNodeOk(spec: NodeSpec, spec': NodeSpec, pend: Claims)
    requires NodeOk(spec, pend) && spec'.claims == spec.claims && spec'.util == spec.util && Base(spec') == Base(spec)
    ensures NodeOk(spec', pend)
  {
  }

  /** Every action keeps the invariant, whatever becomes of its reads and writes. */
  lemma NextKeepsInv(s: State, a: Action, s': State)
    requires Inv(s) && Next(s, a, s')
    ensures Inv(s')
  {
    match a
    case Probe(n, reachable, reqs, cgroup, choices) =>
      if Suitable(s, n, reachable, reqs) {
        ProbeKeepsInv(s, n, reqs, cgroup, choices);
      } else if Up(s, n, reachable) {
        InvIfFewerPending(s, s', Stale(s, n));
      }
    case Commit(n, reachable, uid, write) =>
      if CommitWrites(s, n, reachable, uid) {
        CommitKeepsInv(s, n, uid, write);
      }
    case Release(n, reachable, uid, write) =>
      if ReleaseActs(s, n, reachable, uid) {
        ReleaseKeepsInv(s, n, uid, write);
      }
    case Join(n, obj) => JoinKeepsInv(s, n, obj);
    case PluginWrite(n, obj) => PluginKeepsInv(s, n, obj);
  }

  lemma {:induction false} RunKeepsInv(states: seq<State>, actions: seq<Action>, i: nat)
    requires Run(states, actions) && i < |states|
    ensures Inv(states[i])
  {
    if i > 0 {
      RunKeepsInv(states, actions, i - 1);
      NextKeepsInv(states[i - 1], actions[i - 1], states[i]);
    }
  }

  // ----- Safety over every run -----

  /**
   Capacity safety: in every state of every run, on every CPU of every node, the base
   utilisation plus the shares of all claims committed or pending there, each claim
   once, is below the threshold.  Writes may fail, with or without taking effect.
   */
  lemma CapacitySafety(states: seq<State>, actions: seq<Action>, i: nat, n: NodeName, k: CpuId)
    requires Run(states, actions) && i < |states|
    requires n in states[i].store && k in Base(states[i].store[n].spec)
    ensures var spec := states[i].store[n].spec;
            Base(spec)[k] + Load(PendingOn(states[i].allocations, n) + spec.claims, k) < THRESHOLD
  {
    RunKeepsInv(states, actions, i);
    InvAt(states[i], n);
  }

  /** The ledger is a function of the base load and the committed claims, not of the history. */
  lemma LedgerIsHistoryIndependent(
    states: seq<State>, actions: seq<Action>, i: nat, states': seq<State>, actions': seq<Action>, j: nat, n: NodeName)
    requires Run(states, actions) && i < |states| && n in states[i].store
    requires Run(states', actions') && j < |states'| && n in states'[j].store
    requires states[i].store[n].spec.claims == states'[j].store[n].spec.claims
    requires Base(states[i].store[n].spec) == Base(states'[j].store[n].spec)
    ensures Ledger(states[i].store[n].spec) == Ledger(states'[j].store[n].spec)
    ensures Ledger(states[i].store[n].spec) == AddLoad(Base(states[i].store[n].spec), states[i].store[n].spec.claims)
  {
    RunKeepsInv(states, actions, i);
    RunKeepsInv(states', actions', j);
    InvAt(states[i], n);
    InvAt(states'[j], n);
  }

  /** In a reachable state a release takes exactly the claim's share off each CPU: no clamp, no missing entry. */
  lemma ReleaseSubtractsExactly(states: seq<State>, actions: seq<Action>, i: nat, n: NodeName, uid: Uid, k: CpuId)
    requires Run(states, actions) && i < |states|
    requires n in states[i].store && uid in states[i].store[n].spec.claims
    requires k in Base(states[i].store[n].spec)
    ensures var spec := states[i].store[n].spec;
            && Ids(spec.claims[uid].Cpus()) <= Ledger(spec).Keys
            && k in Ledger(spec) && k in Released(spec, uid).util
            && Released(spec, uid).util[k] == Ledger(spec)[k] - ShareOn(spec.claims[uid].Cpus(), k)
            && Released(spec, uid).util[k] >= 0
  {
    var s := states[i];
    var spec, pend := s.store[n].spec, PendingOn(s.allocations, n);
    RunKeepsInv(states, actions, i);
    InvAt(s, n);
    CommittedClaimsGood(spec, pend);
    ReleasedExact(spec, uid);
    LoadRemove(spec.claims, uid, k);
    LoadNonNegative(spec.claims - {uid}, Base(spec).Keys, k);
    assert GoodCpuset(spec.claims[uid], Base(spec).Keys);
  }
}
