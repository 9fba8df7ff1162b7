/**
 The shadow utilisation map kept beside the pending reservations.  As long as a commit
 whose write fails leaves the store alone, it is never below what is committed and pending.
 */
module Shadow {
  import opened Nas
  import opened Demand
  import opened Packing
  import opened Reservation
  import opened Cluster

  /** `u` accounts for at least the base load and the claims of `m`. */
  ghost predicate Covers(u: UtilMap, b: UtilMap, m: Claims) {
    u.Keys == b.Keys && forall k <- b :: u[k] >= b[k] + Load(m, k)
  }

  /** Subtracting a covered claim takes off exactly its share and leaves the rest covered. */
  lemma CoversRemove(u: UtilMap, b: UtilMap, m: Claims, uid: Uid)
    requires GoodBase(b) && GoodClaims(m, b.Keys) && Covers(u, b, m) && uid in m
    ensures Covers(Discharge(u, m[uid].Cpus()), b, m - {uid})
    ensures forall k <- u :: Discharge(u, m[uid].Cpus())[k] == u[k] - ShareOn(m[uid].Cpus(), k)
  {
    var cpus := m[uid].Cpus();
    assert GoodCpuset(m[uid], b.Keys);
    forall k | k in b
      ensures u[k] - ShareOn(cpus, k) >= b[k] + Load(m - {uid}, k) >= 0
    {
      LoadRemove(m, uid, k);
      LoadNonNegative(m - {uid}, b.Keys, k);
    }
    DischargeSubtracts(u, cpus);
  }

  lemma CoversShrinks(u: UtilMap, b: UtilMap, m: Claims, m': Claims)
    requires GoodClaims(m, b.Keys) && Covers(u, b, m) && SubMap(m', m)
    ensures Covers(u, b, m')
  {
    forall k | k in b
      ensures u[k] >= b[k] + Load(m', k)
    {
      LoadMonotone(m', m, b.Keys, k);
    }
  }

  ghost predicate ShadowAt(s: State, n: NodeName) {
    n in s.store && n in s.utilisation && Covers(s.utilisation[n], Base(s.store[n].spec), EverythingOn(s, n))
  }

  ghost predicate NoStale(s: State) {
    forall n <- s.store :: Stale(s, n) == {}
  }

  /** The shadow covers every node it mentions, and mentions every node with a reservation. */
  ghost predicate ShadowOk(s: State) {
    && NoStale(s)
    && (forall n <- s.utilisation :: ShadowAt(s, n))
    && (forall u <- s.allocations, n <- s.allocations[u] :: n in s.utilisation)
  }

  lemma NotStale(s: State, n: NodeName, uid: Uid)
    requires NoStale(s) && n in s.store && uid in PendingOn(s.allocations, n)
    ensures uid !in s.store[n].spec.claims
  {
    assert uid !in Stale(s, n);
  }

  lemma UnionWithout(m: Claims, m': Claims, uid: Uid)
    requires uid !in m'
    ensures m - {uid} + m' == m + m' - {uid}
  {
  }

  /** One node's shadow entry when claim `uid` loses its reservations. */
  function ForgottenAt(s: State, n: NodeName, uid: Uid): UtilMap
    requires n in s.utilisation
  {
    var entries := EntriesOf(s.allocations, uid);
    if n in entries then Discharge(s.utilisation[n], entries[n].Cpus()) else s.utilisation[n]
  }

  lemma ForgetKeepsShadow(s: State, n: NodeName, uid: Uid)
    requires Inv(s) && ShadowOk(s) && n in s.utilisation
    ensures n in s.store
    ensures Covers(
              ForgottenAt(s, n, uid), Base(s.store[n].spec),
              Everything(s.store[n].spec, PendingOn(s.allocations, n) - {uid}))
    ensures n in EntriesOf(s.allocations, uid) ==>
              forall k <- s.utilisation[n] ::
                k in ForgottenAt(s, n, uid)
                && ForgottenAt(s, n, uid)[k]
                   == s.utilisation[n][k] - ShareOn(EntriesOf(s.allocations, uid)[n].Cpus(), k)
  {
    hide Inv, NodeOk, Discharge, Everything, GoodClaims;
    assert ShadowAt(s, n);
    InvAt(s, n);
    var spec, pend := s.store[n].spec, PendingOn(s.allocations, n);
    if n in EntriesOf(s.allocations, uid) {
      NotStale(s, n, uid);
      ForgetCovered(s.utilisation[n], spec, pend, uid);
    } else {
      assert pend - {uid} == pend;
    }
  }

  lemma ForgetCovered(u: UtilMap, spec: NodeSpec, pend: Claims, uid: Uid)
    requires NodeOk(spec, pend) && Covers(u, Base(spec), Everything(spec, pend))
    requires uid in pend && uid !in spec.claims
    ensures Covers(Discharge(u, pend[uid].Cpus()), Base(spec), Everything(spec, pend - {uid}))
    ensures forall k <- u :: Discharge(u, pend[uid].Cpus())[k] == u[k] - ShareOn(pend[uid].Cpus(), k)
  {
    CoversRemove(u, Base(spec), Everything(spec, pend), uid);
    UnionWithout(pend, spec.claims, uid);
  }

  /** Dropping a claim's reservations leaves no stale ones. */
  lemma RemovedPending(s: State, s': State, uid: Uid)
    requires NoStale(s) && s'.allocations == s.allocations - {uid} && s'.store.Keys == s.store.Keys
    requires forall n <- s.store :: s'.store[n].spec.claims.Keys <= s.store[n].spec.claims.Keys + {uid}
    ensures NoStale(s')
    ensures forall n <- s.store :: PendingOn(s'.allocations, n) == PendingOn(s.allocations, n) - {uid}
  {
  }

  lemma ProbedAllocations(s: State, n: NodeName, reqs: seq<Request>, cgroup: string, choices: seq<seq<CpuId>>)
    requires NoStale(s) && n in s.store && GoodBatch(reqs) && |choices| == |Unplaced(s, n, reqs)|
    requires forall u <- s.allocations, n <- s.allocations[u] :: n in s.utilisation
    ensures var s' := Probed(s, n, reqs, cgroup, choices);
            && NoStale(s')
            && (forall m <- s.store :: m != n ==> PendingOn(s'.allocations, m) == PendingOn(s.allocations, m))
            && (forall u <- s'.allocations, n <- s'.allocations[u] :: n in s'.utilisation)
  {
    var s' := Probed(s, n, reqs, cgroup, choices);
    var made := NewClaims(Unplaced(s, n, reqs), choices, cgroup);
    ReservedIsNew(s.store[n].spec, PendingOn(s.allocations, n), reqs, choices, cgroup);
    assert Stale(s, n) == {};
    assert s.allocations - Stale(s, n) == s.allocations;
    forall m | m in s.store
      ensures m != n ==> PendingOn(s'.allocations, m) == PendingOn(s.allocations, m)
      ensures Stale(s', m) == {}
    {
      PendingReserved(s.allocations, n, made, m);
      assert Stale(s, m) == {};
      forall u | u in PendingOn(s'.allocations, m)
        ensures u !in s.store[m].spec.claims
      {
        if u in PendingOn(s.allocations, m) {
          NotStale(s, m, u);
        }
      }
    }
    forall u, m | u in s'.allocations && m in s'.allocations[u]
      ensures m in s'.utilisation
    {
      assert m in EntriesWith(s.allocations, n, made, u);
    }
  }

  lemma ProbeKeepsShadow(s: State, n: NodeName, reqs: seq<Request>, cgroup: string, choices: seq<seq<CpuId>>)
    requires Inv(s) && ShadowOk(s) && n in s.store && GoodBatch(reqs)
    requires PackedBy(ProbeUtil(s, n), Asks(Unplaced(s, n, reqs)), choices)
    ensures ShadowOk(Probed(s, n, reqs, cgroup, choices))
    ensures Probed(s, n, reqs, cgroup, choices).utilisation[n]
         == AddLoad(Base(s.store[n].spec), EverythingOn(Probed(s, n, reqs, cgroup, choices), n))
  {
    hide Inv, NodeOk, PackedBy, Unplaced, ProbeUtil;
    var s' := Probed(s, n, reqs, cgroup, choices);
    ProbedAllocations(s, n, reqs, cgroup, choices);
    ProbeSetsShadow(s, n, reqs, cgroup, choices);
    forall m | m in s'.utilisation
      ensures ShadowAt(s', m)
    {
      if m != n {
        assert ShadowAt(s, m);
      }
    }
  }

  /** Right after a successful probe the shadow is exact. */
  lemma ProbeSetsShadow(s: State, n: NodeName, reqs: seq<Request>, cgroup: string, choices: seq<seq<CpuId>>)
    requires Inv(s) && n in s.store && GoodBatch(reqs)
    requires PackedBy(ProbeUtil(s, n), Asks(Unplaced(s, n, reqs)), choices)
    ensures Probed(s, n, reqs, cgroup, choices).utilisation[n]
         == AddLoad(Base(s.store[n].spec), EverythingOn(Probed(s, n, reqs, cgroup, choices), n))
  {
    hide NodeOk;
    var spec, pend := s.store[n].spec, PendingOn(s.allocations, n);
    var made := Reserved(spec, pend, reqs, choices, cgroup);
    InvAt(s, n);
    ProbeExact(spec, pend, reqs, choices, cgroup);
    ReservedIsNew(spec, pend, reqs, choices, cgroup);
    ProbedPending(s, n, reqs, cgroup, choices, n);
    WithoutStale(spec, pend, Stale(s, n), made);
  }

  lemma WithoutStale(spec: NodeSpec, pend: Claims, stale: set<Uid>, made: Claims)
    requires stale <= spec.claims.Keys
    ensures Everything(spec, pend - stale + made) == Everything(spec, pend + made)
  {
  }

  lemma CommitKeepsShadow(s: State, n: NodeName, uid: Uid)
    requires Inv(s) && ShadowOk(s) && n in s.store && n in EntriesOf(s.allocations, uid)
    requires uid !in s.store[n].spec.claims
    ensures ShadowOk(CommittedState(s, n, uid, Applied))
  {
    hide Inv, NodeOk, Covers, Charge, Discharge, ShadowAt;
    var s' := CommittedState(s, n, uid, Applied);
    RemovedPending(s, s', uid);
    forall m | m in s'.utilisation
      ensures ShadowAt(s', m)
    {
      CommitKeepsShadowAt(s, n, uid, m);
    }
  }

  lemma CommitKeepsShadowAt(s: State, n: NodeName, uid: Uid, m: NodeName)
    requires Inv(s) && ShadowOk(s) && n in s.store && n in EntriesOf(s.allocations, uid)
    requires uid !in s.store[n].spec.claims && m in s.utilisation
    ensures ShadowAt(CommittedState(s, n, uid, Applied), m)
  {
    hide Inv, NodeOk, Covers, Charge, Discharge, Everything;
    assert ShadowAt(s, m);
    PendingRemoved(s.allocations, {uid}, m);
    if m == n {
      CommitMoves(s.store[n].spec, PendingOn(s.allocations, n), uid);
    } else {
      ForgetKeepsShadow(s, m, uid);
    }
  }

  /** A commit moves a claim from pending to committed. */
  lemma CommitMoves(spec: NodeSpec, pend: Claims, uid: Uid)
    requires uid in pend && uid !in spec.claims
    ensures Everything(Committed(spec, uid, pend[uid]), pend - {uid}) == Everything(spec, pend)
  {
  }

  lemma ReleaseKeepsShadow(s: State, n: NodeName, uid: Uid, write: WriteOutcome)
    requires Inv(s) && ShadowOk(s) && n in s.store && uid in s.store[n].spec.claims
    ensures ShadowOk(ReleasedState(s, n, uid, write))
  {
    hide Inv, NodeOk, Covers, DischargeListed, Discharge, ShadowAt;
    var s' := ReleasedState(s, n, uid, write);
    RemovedPending(s, s', uid);
    forall m | m in s'.utilisation
      ensures ShadowAt(s', m)
    {
      ReleaseKeepsShadowAt(s, n, uid, write, m);
    }
  }

  lemma ReleaseKeepsShadowAt(s: State, n: NodeName, uid: Uid, write: WriteOutcome, m: NodeName)
    requires Inv(s) && ShadowOk(s) && n in s.store && uid in s.store[n].spec.claims
    requires m in s.utilisation
    ensures ShadowAt(ReleasedState(s, n, uid, write), m)
  {
    hide Inv, NodeOk, Covers, DischargeListed, Discharge, Everything;
    var s' := ReleasedState(s, n, uid, write);
    assert ShadowAt(s, m);
    PendingRemoved(s.allocations, {uid}, m);
    ForgetKeepsShadow(s, m, uid);
    if m == n {
      EverythingGood(s, n);
      assert SubMap(EverythingOn(s', n), Everything(s.store[n].spec, PendingOn(s'.allocations, n))) by {
        ReleasedEverything(s.store[n].spec, s'.store[n].spec, PendingOn(s'.allocations, n), uid);
      }
      CoversShrinks(
        s'.utilisation[n], Base(s.store[n].spec), Everything(s.store[n].spec, PendingOn(s'.allocations, n)),
        EverythingOn(s', n));
    }
  }

  lemma ReleasedEverything(spec: NodeSpec, spec': NodeSpec, pend: Claims, uid: Uid)
    requires spec'.claims == spec.claims || spec'.claims == spec.claims - {uid}
    requires uid !in pend
    ensures SubMap(Everything(spec', pend), Everything(spec, pend))
  {
  }

  lemma EverythingGood(s: State, n: NodeName)
    requires Inv(s) && n in s.store
    ensures forall us: set<Uid> ::
              GoodClaims(Everything(s.store[n].spec, PendingOn(s.allocations, n) - us), Base(s.store[n].spec).Keys)
  {
  }

  /** A commit's write either takes effect and says so, or fails and changes nothing. */
  predicate Clean(a: Action) {
    a.Commit? ==> a.write != LostReply
  }

  lemma NextKeepsShadow(s: State, a: Action, s': State)
    requires Inv(s) && ShadowOk(s) && Next(s, a, s') && Clean(a)
    ensures ShadowOk(s')
  {
    hide Inv, NodeOk, Covers, Charge, ForgetUtil, ReleasedState, PackedBy, Admit;
    match a
    case Probe(n, reachable, reqs, cgroup, choices) =>
      if Suitable(s, n, reachable, reqs) {
        ProbeKeepsShadow(s, n, reqs, cgroup, choices);
      } else if Up(s, n, reachable) {
        assert Stale(s, n) == {};
        assert s.allocations - Stale(s, n) == s.allocations;
      }
    case Commit(n, reachable, uid, write) =>
      if CommitWrites(s, n, reachable, uid) {
        CommitKeepsShadow(s, n, uid);
      }
    case Release(n, reachable, uid, write) =>
      if ReleaseActs(s, n, reachable, uid) {
        ReleaseKeepsShadow(s, n, uid, write);
      }
    case Join(n, obj) =>
      InvAt(s, n);
      forall m | m in s'.store
        ensures Stale(s', m) == {}
        ensures m in s.utilisation ==> ShadowAt(s', m)
      {
        if m in s.store {
          assert Stale(s', m) == Stale(s, m) == {};
          assert m in s.utilisation ==> ShadowAt(s, m);
        }
      }
    case PluginWrite(n, obj) =>
      forall m | m in s'.store
        ensures Stale(s', m) == {}
        ensures m in s.utilisation ==> ShadowAt(s', m)
      {
        assert Stale(s', m) == Stale(s, m) == {};
        assert m in s.utilisation ==> ShadowAt(s, m);
      }
  }

  lemma {:induction false} RunKeepsShadow(states: seq<State>, actions: seq<Action>, i: nat)
    requires Run(states, actions) && i < |states|
    requires forall j :: 0 <= j < i ==> Clean(actions[j])
    ensures Inv(states[i]) && ShadowOk(states[i])
  {
    if i > 0 {
      RunKeepsShadow(states, actions, i - 1);
      NextKeepsInv(states[i - 1], actions[i - 1], states[i]);
      NextKeepsShadow(states[i - 1], actions[i - 1], states[i]);
    }
  }

  /** In every run whose commits are clean the shadow is a sound over-estimate of each node's load. */
  lemma ShadowOverEstimates(states: seq<State>, actions: seq<Action>, i: nat, n: NodeName, k: CpuId)
    requires Run(states, actions) && i < |states|
    requires forall j :: 0 <= j < i ==> Clean(actions[j])
    requires n in states[i].utilisation
    ensures n in states[i].store && states[i].utilisation[n].Keys == Base(states[i].store[n].spec).Keys
    ensures k in states[i].utilisation[n] ==>
              states[i].utilisation[n][k] >= Base(states[i].store[n].spec)[k] + Load(EverythingOn(states[i], n), k)
  {
    RunKeepsShadow(states, actions, i);
    assert ShadowAt(states[i], n);
  }

  /** In such a run the clamps that guard the shadow against going negative never fire. */
  lemma ShadowClampsNeverFire(states: seq<State>, actions: seq<Action>, i: nat, uid: Uid, n: NodeName)
    requires Run(states, actions) && i < |states|
    requires forall j :: 0 <= j < i ==> Clean(actions[j])
    requires n in EntriesOf(states[i].allocations, uid)
    ensures n in states[i].utilisation
    ensures var u, cpus := states[i].utilisation[n], EntriesOf(states[i].allocations, uid)[n].Cpus();
            forall k <- u :: k in Discharge(u, cpus) && Discharge(u, cpus)[k] == u[k] - ShareOn(cpus, k)
  {
    RunKeepsShadow(states, actions, i);
    ForgetKeepsShadow(states[i], n, uid);
  }
}
