/**
 Exactly where the shadow utilisation stops being an over-estimate.  A commit that takes
 effect although its reply is lost leaves a committed claim's reservation behind, and a
 later step that drops this reservation while the claim stays takes its share off the shadow.
 */
module ShadowLimits {
  import opened Nas
  import opened Demand
  import opened Packing
  import opened Reservation
  import opened Cluster
  import opened Shadow
  import opened Promise
  import opened Guarantees
  import opened HalfCpu

  /** `a` puts load on some CPU of `keys`. */
  ghost predicate Weighs(a: AllocatedCpuset, keys: set<CpuId>) {
    exists k :: k in keys && ShareOn(a.Cpus(), k) > 0
  }

  /**
   Dropping the reservation of a claim that stays committed keeps an exact shadow sound only if the
   claim weighs nothing.
   */
  lemma DroppingCommitted(spec: NodeSpec, pend: Claims, uid: Uid)
    requires NodeOk(spec, pend) && uid in pend && uid in spec.claims && pend[uid] == spec.claims[uid]
    ensures Covers(
              Discharge(AddLoad(Base(spec), Everything(spec, pend)), pend[uid].Cpus()), Base(spec),
              Everything(spec, pend - {uid}))
       <==> !Weighs(pend[uid], Base(spec).Keys)
  {
    hide NodeOk, Covers, Discharge, AddLoad, Weighs;
    var all := Everything(spec, pend);
    EverythingInOrder(spec, pend);
    assert all[uid] == pend[uid];
    assert Everything(spec, pend - {uid}) == all;
    TakingOff(Base(spec), all, uid);
  }

  /** Taking a claim off an exact load that still contains it. */
  lemma TakingOff(b: UtilMap, m: Claims, uid: Uid)
    requires GoodBase(b) && GoodClaims(m, b.Keys) && uid in m
    ensures Covers(Discharge(AddLoad(b, m), m[uid].Cpus()), b, m) <==> !Weighs(m[uid], b.Keys)
  {
    hide GoodClaims;
    var cpus := m[uid].Cpus();
    GoodAt(m, uid, b.Keys);
    forall k | k in b
      ensures 0 <= ShareOn(cpus, k) <= AddLoad(b, m)[k]
    {
      LoadRemove(m, uid, k);
      GoodWithoutIt(m, uid, b.Keys);
      LoadNonNegative(m - {uid}, b.Keys, k);
      ShareOnNonNegative(cpus, k);
    }
    DischargeSubtracts(AddLoad(b, m), cpus);
  }

  lemma GoodAt(m: Claims, uid: Uid, keys: set<CpuId>)
    requires GoodClaims(m, keys) && uid in m
    ensures Ids(m[uid].Cpus()) <= keys && forall c <- m[uid].Cpus() :: GoodCpu(c)
  {
    assert GoodCpuset(m[uid], keys);
  }

  lemma GoodWithoutIt(m: Claims, uid: Uid, keys: set<CpuId>)
    requires GoodClaims(m, keys)
    ensures GoodClaims(m - {uid}, keys)
  {
  }

  // ----- One step from an exact shadow -----

  /** A reservation left behind by a commit has the CPUs of the committed claim. */
  ghost predicate StaleAgrees(s: State) {
    forall n <- s.store, u <- s.store[n].spec.claims ::
      u in PendingOn(s.allocations, n) ==> PendingOn(s.allocations, n)[u] == s.store[n].spec.claims[u]
  }

  lemma ProbeKeepsStaleAgrees(s: State, a: Action, s': State)
    requires StaleAgrees(s) && Next(s, a, s') && a.Probe?
    ensures StaleAgrees(s')
  {
    hide Admit, PackedBy, Unplaced, ProbeUtil, Stale, PendingOn;
    forall n, u | n in s'.store && u in s'.store[n].spec.claims && u in PendingOn(s'.allocations, n)
      ensures PendingOn(s'.allocations, n)[u] == s'.store[n].spec.claims[u]
    {
      if Suitable(s, a.node, a.reachable, a.reqs) {
        ProbedPending(s, a.node, a.reqs, a.cgroup, a.choices, n);
        if n == a.node {
          UnplacedReserved(s, n, a.reqs, a.cgroup, a.choices, u);
        }
      } else if Up(s, a.node, a.reachable) {
        PendingRemoved(s.allocations, Stale(s, a.node), n);
      }
    }
  }

  lemma UnplacedReserved(s: State, n: NodeName, reqs: seq<Request>, cgroup: string, choices: seq<seq<CpuId>>, u: Uid)
    requires n in s.store && GoodBatch(reqs) && |choices| == |Unplaced(s, n, reqs)|
    ensures u in NewClaims(Unplaced(s, n, reqs), choices, cgroup) ==> u !in s.store[n].spec.claims
  {
    ReservedIsNew(s.store[n].spec, PendingOn(s.allocations, n), reqs, choices, cgroup);
  }

  lemma NextKeepsStaleAgrees(s: State, a: Action, s': State)
    requires StaleAgrees(s) && Next(s, a, s')
    ensures StaleAgrees(s')
  {
    hide Suitable, PackedBy, Charge, DischargeListed, ForgetUtil;
    if a.Probe? {
      ProbeKeepsStaleAgrees(s, a, s');
    }
  }

  /** The step takes the reservation of its claim off the shadow of `n`. */
  predicate Forgets(s: State, a: Action, n: NodeName): (forgets: bool)
    ensures forgets ==> a.Commit? || a.Release?
  {
    match a
    case Commit(m, reachable, u, write) =>
      && m != n && write.Applied? && CommitWrites(s, m, reachable, u) && n in EntriesOf(s.allocations, u)
    case Release(m, reachable, u, _) => ReleaseActs(s, m, reachable, u) && n in EntriesOf(s.allocations, u)
    case _ => false
  }

  /** The step's claim is committed on `n`, and goes on being so. */
  ghost predicate StaysCommitted(s: State, a: Action, n: NodeName)
    requires a.Commit? || a.Release?
  {
    CommittedOn(s, n, a.uid) && !(a.Release? && a.node == n && a.write != Rejected)
  }

  /** The step takes off the shadow a claim that stays committed on `n` and weighs something there. */
  ghost predicate Undercounts(s: State, a: Action, n: NodeName)
    requires n in s.store
  {
    && Forgets(s, a, n)
    && StaysCommitted(s, a, n)
    && Weighs(EntriesOf(s.allocations, a.uid)[n], Base(s.store[n].spec).Keys)
  }

  ghost predicate ExactAt(s: State, n: NodeName) {
    && n in s.store && n in s.utilisation
    && s.utilisation[n] == AddLoad(Base(s.store[n].spec), EverythingOn(s, n))
  }

  /** Steps that leave the shadow of `n` as it is do not add to what it has to cover. */
  lemma UnforgottenCovers(s: State, a: Action, s': State, n: NodeName)
    requires Inv(s) && Next(s, a, s') && ShadowAt(s, n) && !Forgets(s, a, n)
    ensures ShadowAt(s', n)
  {
    hide Inv, Admit, PackedBy, AddLoad, Load, GoodClaims, Charge, Discharge, DischargeListed;
    EverythingGood(s, n);
    NothingGone(s, n);
    if a.Probe? && a.node == n && Suitable(s, n, a.reachable, a.reqs) {
      ProbeSetsShadow(s, n, a.reqs, a.cgroup, a.choices);
      NextKeepsInv(s, a, s');
      ExactCovers(s', n);
    } else {
      NotAdded(s, a, s', n);
      CoversShrinks(s.utilisation[n], Base(s.store[n].spec), EverythingOn(s, n), EverythingOn(s', n));
    }
  }

  lemma NothingGone(s: State, n: NodeName)
    ensures PendingOn(s.allocations, n) - {} == PendingOn(s.allocations, n)
  {
  }

  lemma ExactCovers(s: State, n: NodeName)
    requires ExactAt(s, n)
    ensures Covers(s.utilisation[n], Base(s.store[n].spec), EverythingOn(s, n))
  {
  }

  lemma NotAdded(s: State, a: Action, s': State, n: NodeName)
    requires Next(s, a, s') && n in s.store && n in s.utilisation && !Forgets(s, a, n)
    requires !(a.Probe? && a.node == n && Suitable(s, n, a.reachable, a.reqs))
    ensures n in s'.store && n in s'.utilisation && s'.utilisation[n] == s.utilisation[n]
    ensures Base(s'.store[n].spec) == Base(s.store[n].spec)
    ensures SubMap(EverythingOn(s', n), EverythingOn(s, n))
  {
    hide Admit, PackedBy, Charge, Discharge, DischargeListed;
    if a.Probe? && a.node == n {
      PendingRemoved(s.allocations, Stale(s, n), n);
    } else {
      OnlyProbesAdd(s, a, s', n);
    }
  }

  lemma Forgotten(s: State, a: Action, s': State, n: NodeName)
    requires StaleAgrees(s) && Next(s, a, s') && n in s.store && n in s.utilisation && Forgets(s, a, n)
    ensures var spec, pend := s.store[n].spec, PendingOn(s.allocations, n);
            && a.uid in pend && pend[a.uid] == EntriesOf(s.allocations, a.uid)[n]
            && (a.uid in spec.claims ==> pend[a.uid] == spec.claims[a.uid])
            && n in s'.store && n in s'.utilisation
            && s'.utilisation[n] == Discharge(s.utilisation[n], pend[a.uid].Cpus())
            && PendingOn(s'.allocations, n) == pend - {a.uid}
            && Base(s'.store[n].spec) == Base(spec)
            && s'.store[n].spec.claims == if StaysCommitted(s, a, n) then spec.claims else spec.claims - {a.uid}
  {
    hide Charge, Discharge, DischargeListed;
    PendingRemoved(s.allocations, {a.uid}, n);
    if a.uid !in s.store[n].spec.claims {
      assert s.store[n].spec.claims - {a.uid} == s.store[n].spec.claims;
    }
  }

  lemma WithoutBoth(spec: NodeSpec, spec': NodeSpec, pend: Claims, uid: Uid)
    requires spec'.claims == spec.claims - {uid}
    ensures Everything(spec', pend - {uid}) == Everything(spec, pend) - {uid}
  {
  }

  /**
   From an exact shadow, a step keeps the shadow of `n` an over-estimate if and only if it
   does not take off it a claim that stays committed on `n` and weighs something there.
   */
  lemma StepKeepsShadow(s: State, a: Action, s': State, n: NodeName)
    requires Inv(s) && StaleAgrees(s) && Next(s, a, s') && ExactAt(s, n)
    ensures ShadowAt(s', n) <==> !Undercounts(s, a, n)
  {
    hide Next, Inv, NodeOk, Discharge, AddLoad, Covers, Weighs, Forgets, StaysCommitted, Everything, PendingOn;
    ExactCovers(s, n);
    if !Forgets(s, a, n) {
      UnforgottenCovers(s, a, s', n);
    } else {
      var spec, pend := s.store[n].spec, PendingOn(s.allocations, n);
      InvAt(s, n);
      Forgotten(s, a, s', n);
      if StaysCommitted(s, a, n) {
        StaysThere(s, a, n);
        DroppingCommitted(spec, pend, a.uid);
        SameEverything(spec, s'.store[n].spec, pend - {a.uid});
      } else {
        WithoutBoth(spec, s'.store[n].spec, pend, a.uid);
        HeldIsPending(spec, pend, a.uid);
        EverythingInOrder(spec, pend);
        CoversRemove(s.utilisation[n], Base(spec), Everything(spec, pend), a.uid);
      }
    }
  }

  lemma StaysThere(s: State, a: Action, n: NodeName)
    requires (a.Commit? || a.Release?) && StaysCommitted(s, a, n)
    ensures n in s.store && a.uid in s.store[n].spec.claims
  {
  }

  lemma SameEverything(spec: NodeSpec, spec': NodeSpec, pend: Claims)
    requires spec'.claims == spec.claims
    ensures Everything(spec', pend) == Everything(spec, pend)
  {
  }

  lemma HeldIsPending(spec: NodeSpec, pend: Claims, uid: Uid)
    requires uid in pend && (uid in spec.claims ==> pend[uid] == spec.claims[uid])
    ensures uid in Everything(spec, pend) && Everything(spec, pend)[uid] == pend[uid]
  {
  }

  lemma EverythingInOrder(spec: NodeSpec, pend: Claims)
    requires NodeOk(spec, pend)
    ensures GoodBase(Base(spec)) && GoodClaims(Everything(spec, pend), Base(spec).Keys)
  {
  }

  /** Taking a claim without weight off a load that covers it leaves it covered. */
  lemma TakingOffNothing(u: UtilMap, b: UtilMap, m: Claims, uid: Uid)
    requires GoodBase(b) && GoodClaims(m, b.Keys) && uid in m && Covers(u, b, m) && !Weighs(m[uid], b.Keys)
    ensures Covers(Discharge(u, m[uid].Cpus()), b, m)
  {
    hide GoodClaims;
    var cpus := m[uid].Cpus();
    GoodAt(m, uid, b.Keys);
    forall k | k in b
      ensures ShareOn(cpus, k) == 0 && u[k] >= 0
    {
      LoadNonNegative(m, b.Keys, k);
      ShareOnNonNegative(cpus, k);
    }
    DischargeSubtracts(u, cpus);
  }

  /** With any slack, a step that does not undercount keeps the shadow an over-estimate. */
  lemma StepKeepsCover(s: State, a: Action, s': State, n: NodeName)
    requires Inv(s) && StaleAgrees(s) && Next(s, a, s') && ShadowAt(s, n) && !Undercounts(s, a, n)
    ensures ShadowAt(s', n)
  {
    hide Next, Inv, NodeOk, Discharge, AddLoad, Covers, Weighs, Forgets, StaysCommitted, Everything, PendingOn;
    if !Forgets(s, a, n) {
      UnforgottenCovers(s, a, s', n);
    } else {
      var spec, pend := s.store[n].spec, PendingOn(s.allocations, n);
      InvAt(s, n);
      Forgotten(s, a, s', n);
      HeldIsPending(spec, pend, a.uid);
      EverythingInOrder(spec, pend);
      if StaysCommitted(s, a, n) {
        StaysThere(s, a, n);
        TakingOffNothing(s.utilisation[n], Base(spec), Everything(spec, pend), a.uid);
        StillEverything(spec, s'.store[n].spec, pend, a.uid);
      } else {
        WithoutBoth(spec, s'.store[n].spec, pend, a.uid);
        CoversRemove(s.utilisation[n], Base(spec), Everything(spec, pend), a.uid);
      }
    }
  }

  lemma StillEverything(spec: NodeSpec, spec': NodeSpec, pend: Claims, uid: Uid)
    requires spec'.claims == spec.claims && uid in spec.claims
    ensures Everything(spec', pend - {uid}) == Everything(spec, pend)
  {
  }

  lemma {:induction false} RunKeepsStaleAgrees(states: seq<State>, actions: seq<Action>, i: nat)
    requires Run(states, actions) && i < |states|
    ensures Inv(states[i]) && StaleAgrees(states[i])
  {
    hide Next, Inv;
    RunKeepsInv(states, actions, i);
    if i > 0 {
      RunKeepsStaleAgrees(states, actions, i - 1);
      NextKeepsStaleAgrees(states[i - 1], actions[i - 1], states[i]);
    }
  }

  /** The same for every step of every run, whatever replies were lost before. */
  lemma RunKeepsShadowExactlyIf(states: seq<State>, actions: seq<Action>, i: nat, n: NodeName)
    requires Run(states, actions) && i < |actions| && ExactAt(states[i], n)
    ensures ShadowAt(states[i + 1], n) <==> !Undercounts(states[i], actions[i], n)
  {
    hide Next, Inv, StaleAgrees, Undercounts, ExactAt, ShadowAt;
    RunKeepsStaleAgrees(states, actions, i);
    StepKeepsShadow(states[i], actions[i], states[i + 1], n);
  }

  /**
   In every run, whatever replies are lost in it, a sound shadow of a node stays sound until
   a step that undercounts on the node.
   */
  lemma {:induction false} ShadowSoundUntilUndercount(
      states: seq<State>, actions: seq<Action>, i: nat, j: nat, n: NodeName)
    requires Run(states, actions) && i <= j < |states| && ShadowAt(states[i], n)
    requires forall q :: i <= q < j ==> n in states[q].store ==> !Undercounts(states[q], actions[q], n)
    ensures ShadowAt(states[j], n)
    decreases j
  {
    hide Next, Inv, StaleAgrees, Undercounts, Covers;
    if i < j {
      ShadowSoundUntilUndercount(states, actions, i, j - 1, n);
      RunKeepsStaleAgrees(states, actions, j - 1);
      StepKeepsCover(states[j - 1], actions[j - 1], states[j], n);
    }
  }

  /** What the two steps leave behind on the node. */
  lemma LostThenRejected(s: State, n: NodeName, uid: Uid)
    requires Up(s, n, true) && n in s.utilisation
    requires uid in PendingOn(s.allocations, n) && uid !in s.store[n].spec.claims
    requires PendingOn(s.allocations, n)[uid].RtCpu?
    ensures var pend, s' := PendingOn(s.allocations, n), CommittedState(s, n, uid, LostReply);
            && Next(s, Commit(n, true, uid, LostReply), s')
            && n in s'.store && uid in s'.store[n].spec.claims
            && s'.store[n].spec == Committed(s.store[n].spec, uid, pend[uid]) && s'.allocations == s.allocations
            && var s'' := ReleasedState(s', n, uid, Rejected);
            && Next(s', Release(n, true, uid, Rejected), s'')
            && s''.store == s'.store && n in s''.utilisation
            && s''.utilisation[n] == Discharge(s.utilisation[n], pend[uid].Cpus())
            && PendingOn(s''.allocations, n) == pend - {uid}
  {
  }

  /**
   A commit whose reply is lost and then a release that is rejected: a shadow that was
   exact, as after a probe, stays an over-estimate exactly if the claim's share is zero.
   */
  lemma LostReplyUndercounts(s: State, s': State, s'': State, n: NodeName, uid: Uid)
    requires Inv(s) && Up(s, n, true) && n in s.utilisation
    requires uid in PendingOn(s.allocations, n) && uid !in s.store[n].spec.claims
    requires PendingOn(s.allocations, n)[uid].RtCpu?
    requires s.utilisation[n] == AddLoad(Base(s.store[n].spec), EverythingOn(s, n))
    requires Next(s, Commit(n, true, uid, LostReply), s') && Next(s', Release(n, true, uid, Rejected), s'')
    ensures ShadowAt(s'', n) <==> !Weighs(PendingOn(s.allocations, n)[uid], Base(s.store[n].spec).Keys)
  {
    hide NodeOk, Discharge, Covers, Weighs, Charge, PendingOn, CommittedState, ReleasedState;
    var spec, pend := s.store[n].spec, PendingOn(s.allocations, n);
    LostThenRejected(s, n, uid);
    LostReservationEntry(s, n, uid);
    assert s' == CommittedState(s, n, uid, LostReply) && s'' == ReleasedState(s', n, uid, Rejected);
    NextKeepsInv(s, Commit(n, true, uid, LostReply), s');
    InvAt(s', n);
    assert Everything(Committed(spec, uid, pend[uid]), pend) == Everything(spec, pend);
    DroppingCommitted(s'.store[n].spec, pend, uid);
  }

  lemma LostReservationEntry(s: State, n: NodeName, uid: Uid)
    requires uid in PendingOn(s.allocations, n)
    ensures n in EntriesOf(s.allocations, uid)
  {
  }

  // ----- A run -----

  const JOINED := EMPTY.(store := map["node" := CPU0])

  lemma HalfProbed() returns (s: State)
    ensures Next(JOINED, Probe("node", true, [HALF], "pod", [[0]]), s)
    ensures Inv(JOINED) && Inv(s) && s.store == JOINED.store && "node" in s.utilisation
    ensures PendingOn(s.allocations, "node") == map["claim" := HALFCPU]
    ensures s.utilisation["node"] == AddLoad(Base(CPU0.spec), EverythingOn(s, "node"))
  {
    hide PackedBy, NodeOk, Inv, After, Admit, Profile, NewClaims, Todo;
    IdleNode();
    HalfPacked();
    HalfClaim();
    JoinKeepsInv(EMPTY, "node", CPU0);
    assert EMPTY.store["node" := CPU0] == JOINED.store;
    assert PendingOn(JOINED.allocations, "node") == map[];
    assert Everything(CPU0.spec, map[]) == map[];
    assert Unplaced(JOINED, "node", [HALF]) == [HALF];
    PackingRefined(IDLE, Asks([HALF]), [[0]]);
    s := Probed(JOINED, "node", [HALF], "pod", [[0]]);
    ProbedPending(JOINED, "node", [HALF], "pod", [[0]], "node");
    ProbeKeepsInv(JOINED, "node", [HALF], "pod", [[0]]);
    ProbeSetsShadow(JOINED, "node", [HALF], "pod", [[0]]);
  }

  /** The two steps after the probe, with the claim weighing half a CPU. */
  lemma HalfLost(s: State) returns (s': State, s'': State)
    requires Inv(s) && s.store == JOINED.store && "node" in s.utilisation
    requires PendingOn(s.allocations, "node") == map["claim" := HALFCPU]
    requires s.utilisation["node"] == AddLoad(Base(CPU0.spec), EverythingOn(s, "node"))
    ensures Next(s, Commit("node", true, "claim", LostReply), s')
    ensures Next(s', Release("node", true, "claim", Rejected), s'')
    ensures "node" in s''.store && "node" in s''.utilisation && !ShadowAt(s'', "node")
  {
    hide Next, Inv, EverythingOn, AddLoad, ShadowAt, CommittedState, ReleasedState, PendingOn, Share, ShareOn;
    LostReservationEntry(s, "node", "claim");
    LostThenRejected(s, "node", "claim");
    s' := CommittedState(s, "node", "claim", LostReply);
    s'' := ReleasedState(s', "node", "claim", Rejected);
    LostReplyUndercounts(s, s', s'', "node", "claim");
    IdleNode();
    HalfClaim();
    assert 0 in Base(CPU0.spec).Keys;
  }

  /** From the empty cluster, four steps leave half a CPU committed that the shadow does not count. */
  lemma ShadowCanUndercount() returns (states: seq<State>, actions: seq<Action>)
    ensures Run(states, actions) && |actions| == 4
    ensures "node" in states[4].store && "node" in states[4].utilisation
    ensures !ShadowAt(states[4], "node")
  {
    hide Inv, EverythingOn, AddLoad, ShadowAt, PendingOn;
    IdleNode();
    var s2 := HalfProbed();
    var s3, s4 := HalfLost(s2);
    assert Next(EMPTY, Join("node", CPU0), JOINED) by {
      assert EMPTY.store["node" := CPU0] == JOINED.store;
    }
    hide Next;
    states := [EMPTY, JOINED, s2, s3, s4];
    actions := [Join("node", CPU0), Probe("node", true, [HALF], "pod", [[0]]),
                Commit("node", true, "claim", LostReply), Release("node", true, "claim", Rejected)];
  }
}
