/**
 What a successful probe promises: until the claim is released or taken elsewhere, its
 reservation on the node stays exactly as it was made, and committing it cannot fail
 for want of a reservation.
 */
module Promise {
  import opened Nas
  import opened Demand
  import opened Packing
  import opened Reservation
  import opened Cluster

  /** `uid` is committed or pending on `n`, on the CPUs given by `a`. */
  ghost predicate Held(s: State, n: NodeName, uid: Uid, a: AllocatedCpuset) {
    n in s.store
    && var all := Everything(s.store[n].spec, PendingOn(s.allocations, n));
       uid in all && all[uid] == a
  }

  ghost predicate CommittedOn(s: State, n: NodeName, uid: Uid) {
    n in s.store && uid in s.store[n].spec.claims
  }

  ghost predicate PendingAt(s: State, n: NodeName, uid: Uid) {
    uid in PendingOn(s.allocations, n)
  }

  /** The actions that take a pending reservation of `uid` on `n` away. */
  ghost predicate Drops(s: State, a: Action, n: NodeName, uid: Uid) {
    match a
    case Probe(m, reachable, _, _, _) => m != n && Up(s, m, reachable) && uid in Stale(s, m)
    case Commit(m, reachable, u, write) => m != n && u == uid && write == Applied && CommitWrites(s, m, reachable, u)
    case Release(m, reachable, u, _) => u == uid && ReleaseActs(s, m, reachable, u)
    case Join(_, _) => false
    case PluginWrite(_, _) => false
  }

  lemma HeldWhenPending(s: State, n: NodeName, uid: Uid)
    ensures n in s.store && PendingAt(s, n, uid) && !CommittedOn(s, n, uid) ==>
              Held(s, n, uid, PendingOn(s.allocations, n)[uid])
  {
  }

  lemma NotMadeAgain(s: State, n: NodeName, reqs: seq<Request>, cgroup: string, choices: seq<seq<CpuId>>, uid: Uid)
    requires n in s.store && GoodBatch(reqs) && |choices| == |Unplaced(s, n, reqs)|
    requires PendingAt(s, n, uid)
    ensures uid !in NewClaims(Unplaced(s, n, reqs), choices, cgroup)
  {
    var spec, pend := s.store[n].spec, PendingOn(s.allocations, n);
    ReservedIsNew(spec, pend, reqs, choices, cgroup);
    assert uid in Everything(spec, pend);
  }

  lemma ProbeKeepsReservation(s: State, a: Action, s': State, n: NodeName, uid: Uid)
    requires n in s.store && PendingAt(s, n, uid) && !CommittedOn(s, n, uid)
    requires Next(s, a, s') && a.Probe?
    ensures !Drops(s, a, n, uid) ==> Held(s', n, uid, PendingOn(s.allocations, n)[uid])
    ensures Drops(s, a, n, uid) ==> !PendingAt(s', n, uid) && !CommittedOn(s', n, uid)
  {
    hide Admit, PackedBy, ProbeUtil, Everything, PendingOn, NewClaims, Unplaced;
    var m, pend := a.node, PendingOn(s.allocations, n);
    HeldWhenPending(s, n, uid);
    HeldWhenPending(s', n, uid);
    if Suitable(s, m, a.reachable, a.reqs) {
      ProbedPending(s, m, a.reqs, a.cgroup, a.choices, n);
      if m == n {
        NotMadeAgain(s, n, a.reqs, a.cgroup, a.choices, uid);
      }
    } else if Up(s, m, a.reachable) {
      PendingRemoved(s.allocations, Stale(s, m), n);
    }
  }

  /**
   A reservation that is pending and not yet committed survives a step, on the same
   CPUs, exactly if the step is not one of those that drop it.  In particular no later
   probe of the same node changes it.
   */
  lemma ReservationStable(s: State, a: Action, s': State, n: NodeName, uid: Uid)
    requires n in s.store && PendingAt(s, n, uid) && !CommittedOn(s, n, uid)
    requires Next(s, a, s')
    ensures !Drops(s, a, n, uid) ==> Held(s', n, uid, PendingOn(s.allocations, n)[uid])
    ensures Drops(s, a, n, uid) ==> !PendingAt(s', n, uid) && !CommittedOn(s', n, uid)
  {
    hide Suitable, PackedBy, Charge, DischargeListed, ForgetUtil;
    match a
    case Probe(_, _, _, _, _) =>
      ProbeKeepsReservation(s, a, s', n, uid);
    case Commit(_, _, u, _) =>
      PendingRemoved(s.allocations, {u}, n);
    case Release(_, _, u, _) =>
      PendingRemoved(s.allocations, {u}, n);
    case Join(_, _) =>
    case PluginWrite(_, _) =>
  }

  /** A committed claim stays committed, on the same CPUs, until it is released from its node. */
  lemma CommittedStable(s: State, a: Action, s': State, n: NodeName, uid: Uid)
    requires CommittedOn(s, n, uid) && Next(s, a, s')
    ensures CommittedOn(s', n, uid) <==>
              !(a.Release? && a.node == n && a.uid == uid && ReleaseActs(s, n, a.reachable, uid) && a.write != Rejected)
    ensures CommittedOn(s', n, uid) ==> s'.store[n].spec.claims[uid] == s.store[n].spec.claims[uid]
  {
  }

  ghost predicate CommittedNowhere(s: State, uid: Uid) {
    forall m <- s.store :: uid !in s.store[m].spec.claims
  }

  lemma AbandonedStep(s: State, a: Action, s': State, n: NodeName, uid: Uid)
    requires n in s.store && PendingAt(s, n, uid) && CommittedNowhere(s, uid)
    requires Next(s, a, s') && !(a.Commit? && a.uid == uid)
    ensures n in s'.store && PendingAt(s', n, uid) && CommittedNowhere(s', uid)
    ensures PendingOn(s'.allocations, n)[uid] == PendingOn(s.allocations, n)[uid]
  {
    hide Admit, PackedBy, Unplaced, ProbeUtil, Charge, DischargeListed, ForgetUtil;
    ReservationStable(s, a, s', n, uid);
  }

  /**
   A reservation outlives everything but a commit of its claim: as long as the claim is
   committed nowhere and nobody commits it, no release, probe or write on any node removes
   or changes it, and it goes on taking its share of the node's capacity.  Giving a claim
   up before it was allocated does not free it.
   */
  lemma {:induction false} AbandonedReservation(
      states: seq<State>, actions: seq<Action>, i: nat, n: NodeName, uid: Uid)
    requires Segment(states, actions) && i < |states| && Inv(states[0])
    requires n in states[0].store && PendingAt(states[0], n, uid) && CommittedNowhere(states[0], uid)
    requires forall j :: 0 <= j < i ==> !(actions[j].Commit? && actions[j].uid == uid)
    ensures Inv(states[i]) && n in states[i].store && PendingAt(states[i], n, uid) && CommittedNowhere(states[i], uid)
    ensures PendingOn(states[i].allocations, n)[uid] == PendingOn(states[0].allocations, n)[uid]
    ensures forall k <- Base(states[i].store[n].spec) ::
              Base(states[i].store[n].spec)[k] + Load(states[i].store[n].spec.claims, k)
              + ShareOn(PendingOn(states[0].allocations, n)[uid].Cpus(), k) < THRESHOLD
  {
    hide Next, Inv, CommittedNowhere, PendingAt, PendingOn;
    if i > 0 {
      AbandonedReservation(states, actions, i - 1, n, uid);
      NextKeepsInv(states[i - 1], actions[i - 1], states[i]);
      AbandonedStep(states[i - 1], actions[i - 1], states[i], n, uid);
    }
    AbandonedLoad(states[i], n, uid);
  }

  /** A pending claim that is not committed leaves that much less for the others. */
  lemma AbandonedLoad(s: State, n: NodeName, uid: Uid)
    requires Inv(s) && n in s.store && PendingAt(s, n, uid) && CommittedNowhere(s, uid)
    ensures forall k <- Base(s.store[n].spec) ::
              Base(s.store[n].spec)[k] + Load(s.store[n].spec.claims, k)
              + ShareOn(PendingOn(s.allocations, n)[uid].Cpus(), k) < THRESHOLD
  {
    hide Inv;
    var spec, pend := s.store[n].spec, PendingOn(s.allocations, n);
    InvAt(s, n);
    LoadBesidePending(spec, pend, uid);
  }

  lemma LoadBesidePending(spec: NodeSpec, pend: Claims, uid: Uid)
    requires NodeOk(spec, pend) && uid in pend && uid !in spec.claims
    ensures forall k <- Base(spec) :: Base(spec)[k] + Load(spec.claims, k) + ShareOn(pend[uid].Cpus(), k) < THRESHOLD
  {
    hide LedgerExact, GoodBase;
    var some := spec.claims[uid := pend[uid]];
    assert SubMap(some, Everything(spec, pend));
    FitsMonotone(Base(spec), some, Everything(spec, pend));
    forall k | k in Base(spec)
      ensures Load(some, k) == Load(spec.claims, k) + ShareOn(pend[uid].Cpus(), k)
    {
      LoadInsert(spec.claims, uid, pend[uid], k);
    }
  }

  // ----- From a probe to the commits -----

  /** A successful probe leaves every claim of its batch held on the node. */
  lemma ProbeHolds(s: State, n: NodeName, reqs: seq<Request>, cgroup: string, choices: seq<seq<CpuId>>, i: nat)
    requires n in s.store && GoodBatch(reqs) && i < |reqs|
    requires PackedBy(ProbeUtil(s, n), Asks(Unplaced(s, n, reqs)), choices)
    ensures var s' := Probed(s, n, reqs, cgroup, choices);
            CommittedOn(s', n, reqs[i].uid) || PendingAt(s', n, reqs[i].uid)
  {
    var spec, pend := s.store[n].spec, PendingOn(s.allocations, n);
    var made := NewClaims(Unplaced(s, n, reqs), choices, cgroup);
    ProbedPending(s, n, reqs, cgroup, choices, n);
    TodoProperties(reqs, Everything(spec, pend));
    NewClaimsKeys(Unplaced(s, n, reqs), choices, cgroup);
    if reqs[i].uid !in Everything(spec, pend) {
      assert reqs[i] in Unplaced(s, n, reqs);
      var j :| 0 <= j < |Unplaced(s, n, reqs)| && Unplaced(s, n, reqs)[j] == reqs[i];
      assert Uids(Unplaced(s, n, reqs))[j] == reqs[i].uid;
    }
  }

  /** `a` neither releases `uid` nor commits it on a node other than `n`. */
  predicate LeavesAlone(a: Action, n: NodeName, uid: Uid) {
    match a
    case Commit(m, _, u, _) => u == uid ==> m == n
    case Release(_, _, u, _) => u != uid
    case _ => true
  }

  /** Consecutive steps of the cluster, from any state. */
  ghost predicate Segment(states: seq<State>, actions: seq<Action>) {
    && |states| == |actions| + 1
    && forall i :: 0 <= i < |actions| ==> Next(states[i], actions[i], states[i + 1])
  }

  ghost predicate OnlyOn(s: State, n: NodeName, uid: Uid) {
    && (CommittedOn(s, n, uid) || PendingAt(s, n, uid))
    && forall m <- s.store :: m != n ==> !CommittedOn(s, m, uid)
  }

  lemma OnlyOnPreserved(s: State, a: Action, s': State, n: NodeName, uid: Uid)
    requires n in s.store && OnlyOn(s, n, uid) && Next(s, a, s') && LeavesAlone(a, n, uid)
    ensures n in s'.store && OnlyOn(s', n, uid)
  {
    assert forall m <- s'.store :: m != n ==> !CommittedOn(s', m, uid);
    if CommittedOn(s, n, uid) {
      CommittedStable(s, a, s', n, uid);
    } else {
      ReservationStable(s, a, s', n, uid);
    }
  }

  /**
   The promise: once a claim is held on `n` and committed nowhere else, then however
   many other steps follow, as long as none releases it or commits it elsewhere, a
   commit on `n` never fails for want of a reservation.
   */
  lemma {:induction false} PromiseKept(
      states: seq<State>, actions: seq<Action>, i: nat, n: NodeName, uid: Uid, reachable: bool,
      write: WriteOutcome)
    requires Segment(states, actions) && i < |states|
    requires n in states[0].store && OnlyOn(states[0], n, uid)
    requires forall j :: 0 <= j < |actions| ==> LeavesAlone(actions[j], n, uid)
    ensures n in states[i].store && OnlyOn(states[i], n, uid)
    ensures CommitVerdictOf(states[i], n, reachable, uid, write) != NoReservation
  {
    if i > 0 {
      PromiseKept(states, actions, i - 1, n, uid, reachable, write);
      OnlyOnPreserved(states[i - 1], actions[i - 1], states[i], n, uid);
    }
  }

  // ----- The shape of reservations -----

  ghost predicate AgreesWith(params: map<Uid, Request>, reqs: seq<Request>) {
    forall i :: 0 <= i < |reqs| ==> reqs[i].uid in params && params[reqs[i].uid] == reqs[i]
  }

  ghost predicate ClaimsShaped(m: Claims, params: map<Uid, Request>) {
    forall u <- m :: u in params && Serves(m[u], params[u])
  }

  ghost predicate PendingShaped(a: Allocations, params: map<Uid, Request>) {
    forall u <- a, n <- a[u] :: u in params && Serves(a[u][n], params[u])
  }

  /** Every committed or pending cpuset has exactly the CPUs, runtime and period its claim asked for. */
  ghost predicate Shaped(s: State, params: map<Uid, Request>) {
    && (forall n <- s.store :: ClaimsShaped(s.store[n].spec.claims, params))
    && PendingShaped(s.allocations, params)
  }

  lemma ReserveKeepsShape(a: Allocations, n: NodeName, m: Claims, params: map<Uid, Request>)
    requires PendingShaped(a, params) && ClaimsShaped(m, params)
    ensures PendingShaped(Reserve(a, n, m), params)
  {
  }

  lemma LedgerAt(s: State, n: NodeName)
    requires Inv(s) && n in s.store
    ensures LedgerExact(s.store[n].spec)
  {
    InvAt(s, n);
  }

  /** Each reservation that a probe makes serves the request it is for. */
  lemma MadeServes(s: State, n: NodeName, reqs: seq<Request>, cgroup: string, choices: seq<seq<CpuId>>, u: Uid)
    returns (j: nat)
    requires Inv(s) && n in s.store && GoodBatch(reqs)
    requires PackedBy(ProbeUtil(s, n), Asks(Unplaced(s, n, reqs)), choices)
    requires u in NewClaims(Unplaced(s, n, reqs), choices, cgroup)
    ensures j < |reqs| && reqs[j].uid == u && Serves(NewClaims(Unplaced(s, n, reqs), choices, cgroup)[u], reqs[j])
  {
    hide Inv, NodeOk, Serves, PackedBy, Todo, NewClaims, OverlayUtil, Everything;
    var todo := Unplaced(s, n, reqs);
    LedgerAt(s, n);
    ProbeServes(s.store[n].spec, PendingOn(s.allocations, n), reqs, choices, cgroup);
    NewClaimsKeys(todo, choices, cgroup);
    TodoProperties(reqs, Everything(s.store[n].spec, PendingOn(s.allocations, n)));
    assert u in Uids(todo);
    var k :| 0 <= k < |todo| && todo[k].uid == u;
    assert todo[k] in reqs;
    j :| 0 <= j < |reqs| && reqs[j] == todo[k];
  }

  lemma MadeShaped(
      s: State, n: NodeName, reqs: seq<Request>, cgroup: string, choices: seq<seq<CpuId>>,
      params: map<Uid, Request>)
    requires Inv(s) && n in s.store && GoodBatch(reqs) && AgreesWith(params, reqs)
    requires PackedBy(ProbeUtil(s, n), Asks(Unplaced(s, n, reqs)), choices)
    ensures ClaimsShaped(NewClaims(Unplaced(s, n, reqs), choices, cgroup), params)
  {
    hide Inv, Serves, PackedBy, NewClaims, Unplaced;
    var made := NewClaims(Unplaced(s, n, reqs), choices, cgroup);
    forall u | u in made
      ensures u in params && Serves(made[u], params[u])
    {
      var j := MadeServes(s, n, reqs, cgroup, choices, u);
    }
  }

  lemma WrittenKeepsShape(s: State, s': State, n: NodeName, us: set<Uid>, params: map<Uid, Request>)
    requires Shaped(s, params) && n in s.store
    requires s'.store.Keys == s.store.Keys && (forall m <- s.store :: m != n ==> s'.store[m] == s.store[m])
    requires ClaimsShaped(s'.store[n].spec.claims, params)
    requires s'.allocations == s.allocations - us
    ensures Shaped(s', params)
  {
  }

  lemma ProbeKeepsShape(
      s: State, n: NodeName, reqs: seq<Request>, cgroup: string, choices: seq<seq<CpuId>>,
      params: map<Uid, Request>)
    requires Inv(s) && Shaped(s, params) && n in s.store && GoodBatch(reqs) && AgreesWith(params, reqs)
    requires PackedBy(ProbeUtil(s, n), Asks(Unplaced(s, n, reqs)), choices)
    ensures Shaped(Probed(s, n, reqs, cgroup, choices), params)
  {
    hide NodeOk, Serves, PackedBy, Inv;
    MadeShaped(s, n, reqs, cgroup, choices, params);
    ReserveKeepsShape(s.allocations - Stale(s, n), n, NewClaims(Unplaced(s, n, reqs), choices, cgroup), params);
  }

  lemma CommitKeepsShape(s: State, n: NodeName, u: Uid, write: WriteOutcome, params: map<Uid, Request>)
    requires Shaped(s, params) && n in s.store && n in EntriesOf(s.allocations, u)
    ensures Shaped(CommittedState(s, n, u, write), params)
  {
  }

  lemma NextKeepsShape(s: State, a: Action, s': State, params: map<Uid, Request>)
    requires Inv(s) && Shaped(s, params) && Next(s, a, s')
    requires a.Probe? ==> AgreesWith(params, a.reqs)
    ensures Shaped(s', params)
  {
    hide NodeOk, Serves, PackedBy, Inv, Admit, Unplaced, ProbeUtil, Charge, DischargeListed, ForgetUtil;
    match a
    case Probe(n, reachable, reqs, cgroup, choices) =>
      if Suitable(s, n, reachable, reqs) {
        ProbeKeepsShape(s, n, reqs, cgroup, choices, params);
      }
    case Commit(n, reachable, u, write) =>
      if CommitWrites(s, n, reachable, u) {
        CommitKeepsShape(s, n, u, write, params);
      }
    case Release(n, reachable, u, write) =>
      if ReleaseActs(s, n, reachable, u) {
        WrittenKeepsShape(s, s', n, {u}, params);
      }
    case Join(_, _) =>
    case PluginWrite(_, _) =>
  }

  /** In every run whose probes agree on each claim's parameters, reservations are well-formed. */
  lemma {:induction false} ShapeOverRuns(states: seq<State>, actions: seq<Action>, i: nat, params: map<Uid, Request>)
    requires Run(states, actions) && i < |states|
    requires forall j :: 0 <= j < i && actions[j].Probe? ==> AgreesWith(params, actions[j].reqs)
    ensures Inv(states[i]) && Shaped(states[i], params)
  {
    if i > 0 {
      ShapeOverRuns(states, actions, i - 1, params);
      NextKeepsInv(states[i - 1], actions[i - 1], states[i]);
      NextKeepsShape(states[i - 1], actions[i - 1], states[i], params);
    }
  }

  // Without any agreement between probes

  /** One of the first `i` actions was a probe of `n` with a request for `uid` that `a` serves. */
  ghost predicate Asked(actions: seq<Action>, i: nat, n: NodeName, uid: Uid, a: AllocatedCpuset)
    requires i <= |actions|
  {
    exists p, j :: 0 <= p < i && AskedBy(actions[p], n, uid, a, j)
  }

  ghost predicate AskedBy(action: Action, n: NodeName, uid: Uid, a: AllocatedCpuset, j: int) {
    && action.Probe? && action.node == n && 0 <= j < |action.reqs|
    && action.reqs[j].uid == uid && Serves(a, action.reqs[j])
  }

  ghost predicate ClaimsAsked(m: Claims, actions: seq<Action>, i: nat, n: NodeName)
    requires i <= |actions|
  {
    forall u <- m :: Asked(actions, i, n, u, m[u])
  }

  ghost predicate AllAsked(s: State, actions: seq<Action>, i: nat)
    requires i <= |actions|
  {
    forall n :: ClaimsAsked(PendingOn(s.allocations, n), actions, i, n)
             && (n in s.store ==> ClaimsAsked(s.store[n].spec.claims, actions, i, n))
  }

  lemma AskedLater(m: Claims, actions: seq<Action>, i: nat, n: NodeName)
    requires i < |actions| && ClaimsAsked(m, actions, i, n)
    ensures ClaimsAsked(m, actions, i + 1, n)
  {
    hide AskedBy;
  }

  lemma MadeAsked(s: State, actions: seq<Action>, i: nat)
    requires i < |actions| && actions[i].Probe?
    requires var a := actions[i];
             && Inv(s) && a.node in s.store && GoodBatch(a.reqs)
             && PackedBy(ProbeUtil(s, a.node), Asks(Unplaced(s, a.node, a.reqs)), a.choices)
    ensures var a := actions[i];
            ClaimsAsked(NewClaims(Unplaced(s, a.node, a.reqs), a.choices, a.cgroup), actions, i + 1, a.node)
  {
    hide Inv, Serves, PackedBy, NewClaims, Unplaced;
    var a := actions[i];
    var made := NewClaims(Unplaced(s, a.node, a.reqs), a.choices, a.cgroup);
    forall u | u in made
      ensures Asked(actions, i + 1, a.node, u, made[u])
    {
      var j := MadeServes(s, a.node, a.reqs, a.cgroup, a.choices, u);
      assert AskedBy(actions[i], a.node, u, made[u], j);
    }
  }

  lemma AskedUnion(m: Claims, us: set<Uid>, m': Claims, actions: seq<Action>, i: nat, n: NodeName)
    requires i <= |actions| && ClaimsAsked(m, actions, i, n) && ClaimsAsked(m', actions, i, n)
    ensures ClaimsAsked(m - us + m', actions, i, n)
  {
    hide Asked;
  }

  lemma ProbeKeepsAsked(s: State, actions: seq<Action>, i: nat, s': State, n: NodeName)
    requires i < |actions| && actions[i].Probe? && Inv(s) && Next(s, actions[i], s') && AllAsked(s, actions, i)
    ensures s'.store == s.store
    ensures ClaimsAsked(PendingOn(s'.allocations, n), actions, i + 1, n)
  {
    hide Inv, Admit, PackedBy, Unplaced, ProbeUtil, Stale, NewClaims, PendingOn, Asked;
    var a, none := actions[i], map[];
    AskedLater(PendingOn(s.allocations, n), actions, i, n);
    if Suitable(s, a.node, a.reachable, a.reqs) {
      ProbedPending(s, a.node, a.reqs, a.cgroup, a.choices, n);
      MadeAsked(s, actions, i);
      AskedUnion(
        PendingOn(s.allocations, n), Stale(s, a.node),
        if n == a.node then NewClaims(Unplaced(s, n, a.reqs), a.choices, a.cgroup) else none, actions, i + 1, n);
    } else if Up(s, a.node, a.reachable) {
      PendingRemoved(s.allocations, Stale(s, a.node), n);
    }
  }

  lemma CommitKeepsAsked(s: State, actions: seq<Action>, i: nat, s': State, n: NodeName)
    requires i < |actions| && actions[i].Commit? && Next(s, actions[i], s') && AllAsked(s, actions, i)
    ensures s'.store.Keys == s.store.Keys
    ensures ClaimsAsked(PendingOn(s'.allocations, n), actions, i + 1, n)
    ensures n in s.store ==> ClaimsAsked(s'.store[n].spec.claims, actions, i + 1, n)
  {
    hide Charge, ForgetUtil, Asked;
    var a := actions[i];
    PendingRemoved(s.allocations, {a.uid}, n);
    AskedLater(PendingOn(s.allocations, n), actions, i, n);
    if n in s.store {
      AskedLater(s.store[n].spec.claims, actions, i, n);
      if CommitWrites(s, a.node, a.reachable, a.uid) && a.node == n {
        assert PendingOn(s.allocations, n)[a.uid] == EntriesOf(s.allocations, a.uid)[n];
      }
    }
  }

  lemma ReleaseKeepsAsked(s: State, actions: seq<Action>, i: nat, s': State, n: NodeName)
    requires i < |actions| && actions[i].Release? && Next(s, actions[i], s') && AllAsked(s, actions, i)
    ensures s'.store.Keys == s.store.Keys
    ensures ClaimsAsked(PendingOn(s'.allocations, n), actions, i + 1, n)
    ensures n in s.store ==> ClaimsAsked(s'.store[n].spec.claims, actions, i + 1, n)
  {
    hide DischargeListed, ForgetUtil, Asked;
    PendingRemoved(s.allocations, {actions[i].uid}, n);
    AskedLater(PendingOn(s.allocations, n), actions, i, n);
    if n in s.store {
      AskedLater(s.store[n].spec.claims, actions, i, n);
    }
  }

  lemma NextKeepsAsked(s: State, actions: seq<Action>, i: nat, s': State)
    requires i < |actions| && Inv(s) && Next(s, actions[i], s') && AllAsked(s, actions, i)
    ensures AllAsked(s', actions, i + 1)
  {
    hide Inv, Suitable, PackedBy, PendingOn, ClaimsAsked, Probed, CommittedState, ReleasedState, GoodBase, Base;
    forall n
      ensures ClaimsAsked(PendingOn(s'.allocations, n), actions, i + 1, n)
      ensures n in s'.store ==> ClaimsAsked(s'.store[n].spec.claims, actions, i + 1, n)
    {
      AskedLater(PendingOn(s.allocations, n), actions, i, n);
      if n in s.store {
        AskedLater(s.store[n].spec.claims, actions, i, n);
      }
      match actions[i]
      case Probe(_, _, _, _, _) => ProbeKeepsAsked(s, actions, i, s', n);
      case Commit(_, _, _, _) => CommitKeepsAsked(s, actions, i, s', n);
      case Release(_, _, _, _) => ReleaseKeepsAsked(s, actions, i, s', n);
      case Join(_, _) => NothingAsked(actions, i + 1, n);
      case PluginWrite(_, _) =>
    }
  }

  lemma NothingAsked(actions: seq<Action>, i: nat, n: NodeName)
    requires i <= |actions|
    ensures ClaimsAsked(map[], actions, i, n)
  {
  }

  /**
   In every run, whatever parameters its probes carry, each pending or committed cpuset of a
   node serves exactly the request of an earlier probe of that node: its number of distinct
   CPUs, all with that request's runtime and period.
   */
  lemma {:induction false} EveryReservationWasAsked(states: seq<State>, actions: seq<Action>, i: nat)
    requires Run(states, actions) && i < |states|
    ensures Inv(states[i]) && AllAsked(states[i], actions, i)
  {
    hide Next, Inv, AllAsked;
    RunKeepsInv(states, actions, i);
    if i > 0 {
      EveryReservationWasAsked(states, actions, i - 1);
      NextKeepsAsked(states[i - 1], actions, i - 1, states[i]);
    } else {
      EmptyAsked(actions);
    }
  }

  lemma EmptyAsked(actions: seq<Action>)
    ensures AllAsked(EMPTY, actions, 0)
  {
    forall n
      ensures PendingOn(EMPTY.allocations, n) == map[]
    {
    }
  }

  // ----- Committing a whole batch -----

  /** The load a batch adds: for each claim its count times its share. */
  function BatchLoad(reqs: seq<Request>): int {
    if reqs == [] then 0
    else
      var last := reqs[|reqs| - 1];
      BatchLoad(reqs[..|reqs| - 1]) + last.count * AskOf(last).share
  }

  lemma ServingTotal(u: UtilMap, a: AllocatedCpuset, r: Request)
    requires Serves(a, r) && r.period > 0 && Ids(a.Cpus()) <= u.Keys
    ensures Total(Charge(u, a.Cpus())) == Total(u) + r.count * AskOf(r).share
  {
    ChargeTotal(u, a.cpuset);
    assert forall i :: 0 <= i < |a.cpuset| ==> a.cpuset[i] in a.cpuset;
    SumUniform(Shares(a.cpuset), AskOf(r).share);
  }

  /** `r` is committed on `n`, or reserved there as asked. */
  ghost predicate ServedOn(s: State, n: NodeName, r: Request) {
    || CommittedOn(s, n, r.uid)
    || (PendingAt(s, n, r.uid) && Serves(PendingOn(s.allocations, n)[r.uid], r))
  }

  // What a commit does to the load still to be committed

  lemma TodoAppend(reqs: seq<Request>, r: Request, known: Claims)
    ensures Todo(reqs + [r], known) == Todo(reqs, known) + if r.uid in known then [] else [r]
  {
  }

  lemma BatchLoadAppend(reqs: seq<Request>, r: Request)
    ensures BatchLoad(reqs + [r]) == BatchLoad(reqs) + r.count * AskOf(r).share
  {
  }

  /** The load of the batch's claims that `known` does not serve yet. */
  function LoadToDo(reqs: seq<Request>, known: Claims): int {
    BatchLoad(Todo(reqs, known))
  }

  lemma LoadToDoLast(reqs: seq<Request>, known: Claims)
    requires reqs != []
    ensures var r := reqs[|reqs| - 1];
            LoadToDo(reqs, known)
            == LoadToDo(reqs[..|reqs| - 1], known) + if r.uid in known then 0 else r.count * AskOf(r).share
  {
    hide Todo, BatchLoad;
    var front, r := reqs[..|reqs| - 1], reqs[|reqs| - 1];
    assert reqs == front + [r];
    TodoAppend(front, r, known);
    BatchLoadAppend(Todo(front, known), r);
    assert Todo(front, known) + [] == Todo(front, known);
  }

  lemma {:induction false} LoadToDoSame(reqs: seq<Request>, known: Claims, known': Claims)
    requires forall j :: 0 <= j < |reqs| ==> (reqs[j].uid in known <==> reqs[j].uid in known')
    ensures LoadToDo(reqs, known) == LoadToDo(reqs, known')
  {
    hide LoadToDo;
    if reqs != [] {
      LoadToDoSame(reqs[..|reqs| - 1], known, known');
      LoadToDoLast(reqs, known);
      LoadToDoLast(reqs, known');
    } else {
      NothingToDo(known);
      NothingToDo(known');
    }
  }

  lemma NothingToDo(known: Claims)
    ensures LoadToDo([], known) == 0
  {
  }

  /** Serving one more claim of the batch leaves its load less to do. */
  lemma {:induction false} LoadToDoServed(reqs: seq<Request>, known: Claims, j: nat, a: AllocatedCpuset)
    requires GoodBatch(reqs) && j < |reqs| && reqs[j].uid !in known
    ensures LoadToDo(reqs, known) == LoadToDo(reqs, known[reqs[j].uid := a]) + reqs[j].count * AskOf(reqs[j]).share
  {
    hide LoadToDo;
    var i := |reqs| - 1;
    var front, known' := reqs[..i], known[reqs[j].uid := a];
    LoadToDoLast(reqs, known);
    LoadToDoLast(reqs, known');
    if j < i {
      LoadToDoServed(front, known, j, a);
    } else {
      LoadToDoSame(front, known, known');
    }
  }

  lemma {:induction false} AllDone(reqs: seq<Request>, known: Claims)
    requires forall j :: 0 <= j < |reqs| ==> reqs[j].uid in known
    ensures LoadToDo(reqs, known) == 0
  {
    hide LoadToDo;
    if reqs == [] {
      NothingToDo(known);
    } else {
      AllDone(reqs[..|reqs| - 1], known);
      LoadToDoLast(reqs, known);
    }
  }

  // The growth of the ledger

  ghost function LedgerTotal(s: State, n: NodeName): int {
    if n in s.store then Total(Ledger(s.store[n].spec)) else 0
  }

  ghost predicate CommitsSome(a: Action, n: NodeName, reqs: seq<Request>) {
    a.Commit? && a.node == n && a.uid in Uids(reqs)
  }

  /** How much the ledger's total grew in those of the steps `lo`..`hi` that commit a claim of the batch on `n`. */
  ghost function BatchGrowth(
      states: seq<State>, actions: seq<Action>, n: NodeName, reqs: seq<Request>, lo: nat, hi: nat): int
    requires lo <= hi < |states| == |actions| + 1
  {
    if lo == hi then 0
    else
      BatchGrowth(states, actions, n, reqs, lo, hi - 1)
      + if CommitsSome(actions[hi - 1], n, reqs) then LedgerTotal(states[hi], n) - LedgerTotal(states[hi - 1], n) else 0
  }

  /** The step neither releases a claim of the batch nor commits one on a node other than `n`. */
  predicate LeavesBatchAlone(a: Action, n: NodeName, reqs: seq<Request>) {
    forall j :: 0 <= j < |reqs| ==> LeavesAlone(a, n, reqs[j].uid)
  }

  /** Every claim of the batch is committed or reserved as asked on `n`, and committed nowhere else. */
  ghost predicate BatchServed(s: State, n: NodeName, reqs: seq<Request>) {
    n in s.store && forall j :: 0 <= j < |reqs| ==> ServedOn(s, n, reqs[j]) && OnlyOn(s, n, reqs[j].uid)
  }

  lemma ServedStep(s: State, a: Action, s': State, n: NodeName, r: Request)
    requires Next(s, a, s') && n in s.store && LeavesAlone(a, n, r.uid) && ServedOn(s, n, r) && OnlyOn(s, n, r.uid)
    ensures n in s'.store && ServedOn(s', n, r) && OnlyOn(s', n, r.uid)
  {
    hide Next, Serves;
    OnlyOnPreserved(s, a, s', n, r.uid);
    if CommittedOn(s, n, r.uid) {
      CommittedKept(s, a, s', n, r.uid);
    } else {
      NotDropped(s, a, n, r.uid);
      ReservationStable(s, a, s', n, r.uid);
    }
  }

  lemma CommittedKept(s: State, a: Action, s': State, n: NodeName, uid: Uid)
    requires Next(s, a, s') && CommittedOn(s, n, uid) && LeavesAlone(a, n, uid)
    ensures CommittedOn(s', n, uid)
  {
    CommittedStable(s, a, s', n, uid);
  }

  lemma NotDropped(s: State, a: Action, n: NodeName, uid: Uid)
    requires OnlyOn(s, n, uid) && LeavesAlone(a, n, uid)
    ensures !Drops(s, a, n, uid)
  {
  }

  /** A step that is no commit of a batch claim on `n` leaves these claims where they are. */
  lemma OthersLeaveClaims(s: State, a: Action, s': State, n: NodeName, reqs: seq<Request>, j: nat)
    requires Next(s, a, s') && n in s.store && LeavesBatchAlone(a, n, reqs) && !CommitsSome(a, n, reqs) && j < |reqs|
    ensures n in s'.store
    ensures reqs[j].uid in s'.store[n].spec.claims <==> reqs[j].uid in s.store[n].spec.claims
  {
    hide Suitable, PackedBy, Charge, DischargeListed, ForgetUtil;
    assert LeavesAlone(a, n, reqs[j].uid);
    assert Uids(reqs)[j] == reqs[j].uid;
  }

  lemma StepGrowth(s: State, a: Action, s': State, n: NodeName, reqs: seq<Request>)
    requires Inv(s) && Next(s, a, s') && BatchServed(s, n, reqs) && GoodBatch(reqs) && LeavesBatchAlone(a, n, reqs)
    ensures n in s'.store
    ensures LoadToDo(reqs, s.store[n].spec.claims)
         == LoadToDo(reqs, s'.store[n].spec.claims)
            + if CommitsSome(a, n, reqs) then LedgerTotal(s', n) - LedgerTotal(s, n) else 0
  {
    hide Inv, NodeOk, Serves, LoadToDo, Total;
    if CommitsSome(a, n, reqs) {
      var j :| 0 <= j < |reqs| && Uids(reqs)[j] == a.uid;
      CommitGrowth(s, a, s', n, reqs, j);
    } else {
      forall j | 0 <= j < |reqs|
        ensures n in s'.store && (reqs[j].uid in s.store[n].spec.claims <==> reqs[j].uid in s'.store[n].spec.claims)
      {
        OthersLeaveClaims(s, a, s', n, reqs, j);
      }
      StoreGrows(s, a, s', n);
      LoadToDoSame(reqs, s.store[n].spec.claims, s'.store[n].spec.claims);
    }
  }

  lemma StoreGrows(s: State, a: Action, s': State, n: NodeName)
    requires Next(s, a, s') && n in s.store
    ensures n in s'.store
  {
  }

  lemma CommitGrowth(s: State, a: Action, s': State, n: NodeName, reqs: seq<Request>, j: nat)
    requires Inv(s) && Next(s, a, s') && n in s.store && GoodBatch(reqs) && j < |reqs| && ServedOn(s, n, reqs[j])
    requires a.Commit? && a.node == n && a.uid == reqs[j].uid
    ensures n in s'.store
    ensures LoadToDo(reqs, s.store[n].spec.claims)
         == LoadToDo(reqs, s'.store[n].spec.claims) + LedgerTotal(s', n) - LedgerTotal(s, n)
  {
    hide Inv, NodeOk, Serves, LoadToDo, Total, Charge, ForgetUtil;
    if CommitWrites(s, n, a.reachable, a.uid) && a.write != Rejected {
      LoadToDoServed(reqs, s.store[n].spec.claims, j, EntriesOf(s.allocations, a.uid)[n]);
      CommitGrowsLedger(s, n, reqs[j]);
    }
  }

  /**
   However the commits of a batch served on `n` are mixed with other steps, on this node or
   others, as long as none of these releases a claim of the batch or commits it elsewhere:
   the commits together grow the node's ledger by exactly the load of the claims that were
   not committed before and are now.
   */
  lemma {:induction false} BatchCommitted(
      states: seq<State>, actions: seq<Action>, n: NodeName, reqs: seq<Request>, lo: nat, hi: nat)
    requires Segment(states, actions) && lo <= hi < |states| && GoodBatch(reqs)
    requires Inv(states[lo]) && BatchServed(states[lo], n, reqs)
    requires forall q :: lo <= q < hi ==> LeavesBatchAlone(actions[q], n, reqs)
    ensures Inv(states[hi]) && BatchServed(states[hi], n, reqs)
    ensures BatchGrowth(states, actions, n, reqs, lo, hi)
         == LoadToDo(reqs, states[lo].store[n].spec.claims) - LoadToDo(reqs, states[hi].store[n].spec.claims)
    decreases hi
  {
    hide Next, Inv, ServedOn, OnlyOn, LoadToDo, LedgerTotal, CommitsSome, LeavesAlone;
    if lo < hi {
      var s, a, s' := states[hi - 1], actions[hi - 1], states[hi];
      BatchCommitted(states, actions, n, reqs, lo, hi - 1);
      NextKeepsInv(s, a, s');
      StepGrowth(s, a, s', n, reqs);
      forall j | 0 <= j < |reqs|
        ensures ServedOn(s', n, reqs[j]) && OnlyOn(s', n, reqs[j].uid)
      {
        ServedStep(s, a, s', n, reqs[j]);
      }
    }
  }

  /** A commit that takes effect leaves its claim pending nowhere, and only a later probe of the claim changes that. */
  lemma {:induction false} NothingLeftPending(
      states: seq<State>, actions: seq<Action>, n: NodeName, uid: Uid, c: nat, hi: nat)
    requires Segment(states, actions) && c < hi < |states|
    requires actions[c] == Commit(n, true, uid, Applied) && CommitWrites(states[c], n, true, uid)
    requires forall q :: c < q < hi && actions[q].Probe? ==> uid !in Uids(actions[q].reqs)
    ensures uid !in states[hi].allocations
    decreases hi
  {
    hide Next, CommitWrites;
    if hi == c + 1 {
      CommitForgets(states[c], n, uid, states[hi]);
    } else {
      NothingLeftPending(states, actions, n, uid, c, hi - 1);
      UnprobedStaysAway(states[hi - 1], actions[hi - 1], states[hi], uid);
    }
  }

  lemma CommitForgets(s: State, n: NodeName, uid: Uid, s': State)
    requires Next(s, Commit(n, true, uid, Applied), s') && CommitWrites(s, n, true, uid)
    ensures uid !in s'.allocations
  {
  }

  lemma UnprobedStaysAway(s: State, a: Action, s': State, uid: Uid)
    requires Next(s, a, s') && uid !in s.allocations && (a.Probe? ==> uid !in Uids(a.reqs))
    ensures uid !in s'.allocations
  {
    hide Admit, PackedBy, ProbeUtil, Charge, DischargeListed, ForgetUtil, Stale;
    if a.Probe? && Suitable(s, a.node, a.reachable, a.reqs) {
      var known := Everything(s.store[a.node].spec, PendingOn(s.allocations, a.node));
      TodoProperties(a.reqs, known);
      NewClaimsKeys(Unplaced(s, a.node, a.reqs), a.choices, a.cgroup);
      UidsOfTodo(a.reqs, known, uid);
    }
  }

  lemma UidsOfTodo(reqs: seq<Request>, known: Claims, uid: Uid)
    requires GoodBatch(reqs) && uid !in Uids(reqs)
    ensures uid !in Uids(Todo(reqs, known))
  {
    var todo := Todo(reqs, known);
    TodoProperties(reqs, known);
    forall j | 0 <= j < |todo|
      ensures Uids(todo)[j] != uid
    {
      assert todo[j] in reqs;
      var i :| 0 <= i < |reqs| && reqs[i] == todo[j];
      assert Uids(reqs)[i] == todo[j].uid;
    }
  }

  lemma CommitGrowsLedger(s: State, n: NodeName, r: Request)
    requires Inv(s) && n in s.store && GoodRequest(r)
    requires PendingAt(s, n, r.uid) && !CommittedOn(s, n, r.uid)
    requires Serves(PendingOn(s.allocations, n)[r.uid], r)
    ensures Total(Ledger(CommittedState(s, n, r.uid, Applied).store[n].spec))
            == Total(Ledger(s.store[n].spec)) + r.count * AskOf(r).share
  {
    var spec, a := s.store[n].spec, PendingOn(s.allocations, n)[r.uid];
    InvAt(s, n);
    assert GoodCpuset(a, Base(spec).Keys);
    CommittedExact(spec, r.uid, a);
    AddLoadInsert(Base(spec), spec.claims, r.uid, a);
    ServingTotal(Ledger(spec), a, r);
  }
}
