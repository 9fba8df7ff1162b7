/**
 What one step of the controller changes, in terms of the records themselves: which claims
 are stored and pending on each node, what each ledger and each shadow entry comes to, and
 that everything else stays as it is.
 */
module Effects {
  import opened Nas
  import opened Demand
  import opened Partition
  import opened Packing
  import opened Reservation
  import opened Cluster
  import opened Shadow

  // ----- Objects and shadow entries -----

  /** `o'` is `o` with the claim added and its share on the ledger. */
  ghost predicate WithClaim(o: NodeObject, uid: Uid, a: AllocatedCpuset, o': NodeObject) {
    && o'.ready == o.ready && o'.spec.allocatable == o.spec.allocatable && o'.spec.prepared == o.spec.prepared
    && o'.spec.claims == o.spec.claims[uid := a]
    && Ledger(o'.spec).Keys == Ledger(o.spec).Keys
    && forall k <- Ledger(o.spec) :: Ledger(o'.spec)[k] == Ledger(o.spec)[k] + ShareOn(a.Cpus(), k)
  }

  /** `o'` is `o` without the claim and its share on the ledger. */
  ghost predicate WithoutClaim(o: NodeObject, uid: Uid, o': NodeObject)
    requires uid in o.spec.claims
  {
    && o'.ready == o.ready && o'.spec.allocatable == o.spec.allocatable && o'.spec.prepared == o.spec.prepared
    && o'.spec.claims == o.spec.claims - {uid}
    && Ledger(o'.spec).Keys == Ledger(o.spec).Keys
    && forall k <- Ledger(o.spec) :: Ledger(o'.spec)[k] == Ledger(o.spec)[k] - ShareOn(o.spec.claims[uid].Cpus(), k)
  }

  /** The stores differ at most in the object of `n`. */
  ghost predicate SameElsewhere(s: State, n: NodeName, s': State) {
    s'.store.Keys == s.store.Keys && forall m <- s.store :: m != n ==> s'.store[m] == s.store[m]
  }

  /** `u'` is `u` less the share of each entry of `cpus`, at least zero; absent entries read as zero. */
  ghost predicate TakenOff(u: UtilMap, cpus: seq<AllocatedCpu>, u': UtilMap) {
    && u'.Keys == u.Keys + Ids(cpus)
    && forall k <- u' ::
         u'[k] == if k in Ids(cpus) then Clamped(Lookup(u, k) - ShareOn(cpus, k)) else u[k]
  }

  lemma {:induction false} DischargeTakesOff(u: UtilMap, cpus: seq<AllocatedCpu>)
    requires Distinct(IdSeq(cpus))
    ensures TakenOff(u, cpus, Discharge(u, cpus))
  {
    if cpus != [] {
      hide TakenOff, Ids, ShareOn, CpuShare;
      var front, last := cpus[..|cpus| - 1], cpus[|cpus| - 1];
      assert IdSeq(front) == IdSeq(cpus)[..|cpus| - 1];
      DischargeTakesOff(u, front);
      assert cpus == front + [last] && forall i :: 0 <= i < |front| ==> IdSeq(cpus)[i] == front[i].id;
      TakesOffOneMore(u, front, last, Discharge(u, front));
    }
  }

  lemma TakesOffOneMore(u: UtilMap, cpus: seq<AllocatedCpu>, cpu: AllocatedCpu, u': UtilMap)
    requires TakenOff(u, cpus, u') && forall i :: 0 <= i < |cpus| ==> cpus[i].id != cpu.id
    ensures TakenOff(u, cpus + [cpu], u'[cpu.id := Clamped(Lookup(u', cpu.id) - CpuShare(cpu))])
  {
    hide CpuShare;
    assert (cpus + [cpu])[..|cpus|] == cpus;
    assert Ids(cpus + [cpu]) == Ids(cpus) + {cpu.id};
    NoShare(cpus, cpu.id);
  }

  lemma {:induction false} NoShare(cpus: seq<AllocatedCpu>, k: CpuId)
    requires forall i :: 0 <= i < |cpus| ==> cpus[i].id != k
    ensures ShareOn(cpus, k) == 0
  {
    if cpus != [] {
      NoShare(cpus[..|cpus| - 1], k);
    }
  }

  /** The claim's reservation was taken off the shadow of every node but `keep`. */
  ghost predicate ShadowTakenOff(s: State, uid: Uid, keep: set<NodeName>, s': State) {
    && s'.utilisation.Keys == s.utilisation.Keys
    && forall m <- s.utilisation ::
         if uid in PendingOn(s.allocations, m) && m !in keep
         then TakenOff(s.utilisation[m], PendingOn(s.allocations, m)[uid].Cpus(), s'.utilisation[m])
         else s'.utilisation[m] == s.utilisation[m]
  }

  lemma ForgetTakesOff(s: State, uid: Uid, keep: set<NodeName>, s': State)
    requires Inv(s) && s'.utilisation == ForgetUtil(s.utilisation, EntriesOf(s.allocations, uid), keep)
    ensures ShadowTakenOff(s, uid, keep, s')
  {
    forall m | m in s.utilisation && uid in PendingOn(s.allocations, m) && m !in keep
      ensures TakenOff(s.utilisation[m], PendingOn(s.allocations, m)[uid].Cpus(), s'.utilisation[m])
    {
      InvAt(s, m);
      assert GoodCpuset(PendingOn(s.allocations, m)[uid], Base(s.store[m].spec).Keys);
      DischargeTakesOff(s.utilisation[m], PendingOn(s.allocations, m)[uid].Cpus());
    }
  }

  // ----- Commit -----

  lemma CommitWritesClaim(o: NodeObject, pend: Claims, uid: Uid, a: AllocatedCpuset)
    requires NodeOk(o.spec, pend) && uid in pend && uid !in o.spec.claims && pend[uid] == a
    ensures WithClaim(o, uid, a, o.(spec := Committed(o.spec, uid, a)))
  {
    assert GoodCpuset(a, Base(o.spec).Keys);
    CommittedExact(o.spec, uid, a);
    forall k | k in Base(o.spec)
      ensures Load(o.spec.claims[uid := a], k) == Load(o.spec.claims, k) + ShareOn(a.Cpus(), k)
    {
      LoadInsert(o.spec.claims, uid, a, k);
    }
  }

  /**
   A commit takes effect exactly if the node is fetched and ready, the claim is pending on it
   and not committed yet, and the write is not rejected.  Then the node's object has the very
   reservation, and its share on the ledger.  If the reply arrives too, the claim is pending
   nowhere any more, and its other reservations are off the shadow.  Nothing else changes.
   */
  lemma CommitEffect(s: State, n: NodeName, reachable: bool, uid: Uid, write: WriteOutcome, s': State)
    requires Inv(s) && Next(s, Commit(n, reachable, uid, write), s')
    ensures var effective :=
              && reachable && n in s.store && s.store[n].ready && !write.Rejected?
              && uid in PendingOn(s.allocations, n) && uid !in s.store[n].spec.claims;
            if effective then
              && SameElsewhere(s, n, s')
              && WithClaim(s.store[n], uid, PendingOn(s.allocations, n)[uid], s'.store[n])
              && (if write.Applied?
                  then (forall m :: PendingOn(s'.allocations, m) == PendingOn(s.allocations, m) - {uid})
                       && ShadowTakenOff(s, uid, {n}, s')
                  else s'.allocations == s.allocations && s'.utilisation == s.utilisation)
            else s' == s
  {
    hide NodeOk, Charge, Ledger, ForgetUtil;
    if CommitWrites(s, n, reachable, uid) {
      InvAt(s, n);
      CommitWritesClaim(s.store[n], PendingOn(s.allocations, n), uid, PendingOn(s.allocations, n)[uid]);
      if write.Applied? {
        ForgetTakesOff(s, uid, {n}, s');
        forall m
          ensures PendingOn(s'.allocations, m) == PendingOn(s.allocations, m) - {uid}
        {
          PendingRemoved(s.allocations, {uid}, m);
        }
      }
    }
  }

  // ----- Release -----

  lemma ReleaseWritesRest(o: NodeObject, pend: Claims, uid: Uid)
    requires NodeOk(o.spec, pend) && uid in o.spec.claims
    ensures WithoutClaim(o, uid, o.(spec := Released(o.spec, uid)))
  {
    CommittedClaimsGood(o.spec, pend);
    ReleasedExact(o.spec, uid);
  }

  /**
   A release acts exactly if the node is fetched and has the claim with CPUs.  Then, even if
   the write is rejected, the claim is pending nowhere any more and its reservations are off
   the shadow; and unless it is, the node's object has lost the claim and its share on the
   ledger.  Nothing else changes.
   */
  lemma ReleaseEffect(s: State, n: NodeName, reachable: bool, uid: Uid, write: WriteOutcome, s': State)
    requires Inv(s) && Next(s, Release(n, reachable, uid, write), s')
    ensures var acts :=
              && reachable && n in s.store && uid in s.store[n].spec.claims && s.store[n].spec.claims[uid].RtCpu?;
            if acts then
              && (if write.Rejected? then s'.store == s.store
                  else SameElsewhere(s, n, s') && WithoutClaim(s.store[n], uid, s'.store[n]))
              && (forall m :: PendingOn(s'.allocations, m) == PendingOn(s.allocations, m) - {uid})
              && ShadowTakenOff(s, uid, {}, s')
            else s' == s
  {
    hide NodeOk, DischargeListed, Ledger, ForgetUtil;
    if ReleaseActs(s, n, reachable, uid) {
      InvAt(s, n);
      ReleaseWritesRest(s.store[n], PendingOn(s.allocations, n), uid);
      ForgetTakesOff(s, uid, {}, s');
      forall m
        ensures PendingOn(s'.allocations, m) == PendingOn(s.allocations, m) - {uid}
      {
        PendingRemoved(s.allocations, {uid}, m);
      }
    }
  }

  // ----- Probe -----

  /** The batch's claims that a probe of `n` finds neither committed nor pending there. */
  ghost predicate Wanted(s: State, n: NodeName, reqs: seq<Request>, u: Uid)
    requires n in s.store
  {
    && u !in s.store[n].spec.claims && u !in PendingOn(s.allocations, n)
    && exists i :: 0 <= i < |reqs| && reqs[i].uid == u
  }

  /** `a` has `r.count` distinct CPUs of `keys`, each with the request's runtime and period, and the cgroup. */
  ghost predicate Granted(a: AllocatedCpuset, r: Request, cgroup: string, keys: set<CpuId>) {
    && a.RtCpu? && a.cgroupUID == cgroup && |a.cpuset| == r.count
    && (forall i, j :: 0 <= i < j < |a.cpuset| ==> a.cpuset[i].id != a.cpuset[j].id)
    && forall i :: 0 <= i < |a.cpuset| ==>
         a.cpuset[i].id in keys && a.cpuset[i].runtime == r.runtime && a.cpuset[i].period == r.period
  }

  /** What a successful probe reserves: the claims wanted, each as its request asks. */
  lemma ProbeGrants(
      spec: NodeSpec, pend: Claims, reqs: seq<Request>, choices: seq<seq<CpuId>>, cgroup: string, i: nat)
    requires LedgerExact(spec) && GoodBatch(reqs) && i < |reqs|
    requires reqs[i].uid !in spec.claims && reqs[i].uid !in pend
    requires PackedBy(OverlayUtil(spec, pend), Asks(Todo(reqs, Everything(spec, pend))), choices)
    ensures var made := Reserved(spec, pend, reqs, choices, cgroup);
            reqs[i].uid in made && Granted(made[reqs[i].uid], reqs[i], cgroup, Base(spec).Keys)
  {
    hide PackedBy, OverlayUtil, Todo, NewClaims, Serves, Granted, LedgerExact, GoodCpuset;
    var todo := Todo(reqs, Everything(spec, pend));
    ProbeServes(spec, pend, reqs, choices, cgroup);
    TodoProperties(reqs, Everything(spec, pend));
    MadeUnderCgroup(todo, choices, cgroup);
    assert reqs[i] in todo;
    var a := Reserved(spec, pend, reqs, choices, cgroup)[reqs[i].uid];
    ServesGrants(a, reqs[i], cgroup, Base(spec).Keys);
  }

  /** It reserves nothing else. */
  lemma ProbeMakesOnly(
      s: State, n: NodeName, reqs: seq<Request>, choices: seq<seq<CpuId>>, cgroup: string, u: Uid)
    requires n in s.store && GoodBatch(reqs) && |choices| == |Unplaced(s, n, reqs)|
    ensures u in NewClaims(Unplaced(s, n, reqs), choices, cgroup) <==> Wanted(s, n, reqs, u)
  {
    hide Todo, NewClaims;
    var todo := Unplaced(s, n, reqs);
    var known := Everything(s.store[n].spec, PendingOn(s.allocations, n));
    TodoProperties(reqs, known);
    NewClaimsKeys(todo, choices, cgroup);
    if Wanted(s, n, reqs, u) {
      var i :| 0 <= i < |reqs| && reqs[i].uid == u;
      assert reqs[i] in todo;
      var j :| 0 <= j < |todo| && todo[j] == reqs[i];
      assert Uids(todo)[j] == u;
    }
    if u in Elements(Uids(todo)) {
      var j :| 0 <= j < |todo| && Uids(todo)[j] == u;
      assert todo[j] in todo && todo[j] in reqs;
    }
  }

  lemma ServesGrants(a: AllocatedCpuset, r: Request, cgroup: string, keys: set<CpuId>)
    requires Serves(a, r) && GoodCpuset(a, keys) && a.cgroupUID == cgroup
    ensures Granted(a, r, cgroup, keys)
  {
    forall i | 0 <= i < |a.cpuset|
      ensures a.cpuset[i].id in keys && a.cpuset[i].runtime == r.runtime && a.cpuset[i].period == r.period
    {
      assert a.cpuset[i] in a.cpuset && a.cpuset[i].id in Ids(a.cpuset);
    }
    assert forall i :: 0 <= i < |a.cpuset| ==> IdSeq(a.cpuset)[i] == a.cpuset[i].id;
  }

  /**
   A probe never writes an object.  On a node that is not fetched or not ready it changes
   nothing.  Otherwise it drops the reservations of claims that are committed on the node,
   everywhere; and if the batch fits, it reserves on the node exactly the claims wanted.
   Nothing else changes among the reservations.
   */
  lemma ProbeEffect(
      s: State, n: NodeName, reachable: bool, reqs: seq<Request>, cgroup: string, choices: seq<seq<CpuId>>, s': State,
      m: NodeName, u: Uid)
    requires Inv(s) && Next(s, Probe(n, reachable, reqs, cgroup, choices), s')
    ensures s'.store == s.store
    ensures !(reachable && n in s.store && s.store[n].ready) ==> s' == s
    ensures reachable && n in s.store && s.store[n].ready ==>
              var before, after := PendingOn(s.allocations, m), PendingOn(s'.allocations, m);
              var dropped := u in PendingOn(s.allocations, n) && u in s.store[n].spec.claims;
              var added := m == n && Suitable(s, n, reachable, reqs) && Wanted(s, n, reqs, u);
              && (u in after <==> (u in before && !dropped) || added)
              && (u in after && u in before ==> after[u] == before[u])
  {
    hide PackedBy, Admit, Profile, After, NewClaims, Todo, NodeOk;
    if Suitable(s, n, reachable, reqs) {
      ProbedPending(s, n, reqs, cgroup, choices, m);
      ProbeMakesOnly(s, n, reqs, choices, cgroup, u);
    } else if Up(s, n, reachable) {
      PendingRemoved(s.allocations, Stale(s, n), m);
    }
  }

  /**
   Each claim wanted that a successful probe reserves gets what its request asks, and the
   node's shadow entry becomes base load plus everything held afterwards; a probe without
   success leaves the shadow alone.
   */
  lemma ProbeReserves(
      s: State, n: NodeName, reachable: bool, reqs: seq<Request>, cgroup: string, choices: seq<seq<CpuId>>, s': State)
    requires Inv(s) && Next(s, Probe(n, reachable, reqs, cgroup, choices), s')
    ensures !Suitable(s, n, reachable, reqs) ==> s'.utilisation == s.utilisation
    ensures Suitable(s, n, reachable, reqs) ==>
              && s'.utilisation == s.utilisation[n := AddLoad(Base(s.store[n].spec), EverythingOn(s', n))]
              && forall i :: 0 <= i < |reqs| && Wanted(s, n, reqs, reqs[i].uid) ==>
                   && reqs[i].uid in PendingOn(s'.allocations, n)
                   && Granted(PendingOn(s'.allocations, n)[reqs[i].uid], reqs[i], cgroup, Base(s.store[n].spec).Keys)
  {
    hide PackedBy, Admit, Profile, After, NewClaims, Todo, NodeOk, Granted, LedgerExact;
    if Suitable(s, n, reachable, reqs) {
      var spec, pend := s.store[n].spec, PendingOn(s.allocations, n);
      InvAt(s, n);
      NodeLedger(spec, pend);
      ProbeSetsShadow(s, n, reqs, cgroup, choices);
      ProbedPending(s, n, reqs, cgroup, choices, n);
      forall i | 0 <= i < |reqs| && Wanted(s, n, reqs, reqs[i].uid)
        ensures reqs[i].uid in PendingOn(s'.allocations, n)
        ensures Granted(PendingOn(s'.allocations, n)[reqs[i].uid], reqs[i], cgroup, Base(spec).Keys)
      {
        ProbeGrants(spec, pend, reqs, choices, cgroup, i);
      }
    }
  }

  lemma NodeLedger(spec: NodeSpec, pend: Claims)
    requires NodeOk(spec, pend)
    ensures LedgerExact(spec)
  {
  }

  // ----- One claim -----

  /**
   A batch of one claim finds a node suitable exactly if the node is fetched and ready and
   the claim is held there already, or at least as many CPUs as it asks for have a load,
   committed and pending, that stays below 950 with `runtime * 1000 / period` added.
   */
  lemma OneClaimFits(s: State, n: NodeName, reachable: bool, r: Request)
    requires Inv(s) && GoodRequest(r)
    ensures Suitable(s, n, reachable, [r])
       <==> && reachable && n in s.store && s.store[n].ready
            && var spec, pend := s.store[n].spec, PendingOn(s.allocations, n);
               || r.uid in spec.claims || r.uid in pend
               || |WithRoom(Base(spec), pend + spec.claims, r.runtime * 1000 / r.period)| >= r.count
  {
    hide NodeOk, Profile, Step;
    if Up(s, n, reachable) {
      var spec, pend := s.store[n].spec, PendingOn(s.allocations, n);
      InvAt(s, n);
      NodeLedger(spec, pend);
      OverlayExact(spec, pend);
      OneToDo(r, Everything(spec, pend));
      ShareNonNegative(r.runtime, r.period);
      if r.uid !in Everything(spec, pend) {
        OneAsked(ProbeUtil(s, n), AskOf(r));
        assert Fitting(ProbeUtil(s, n), AskOf(r).share)
            == WithRoom(Base(spec), pend + spec.claims, r.runtime * 1000 / r.period);
      }
    }
  }

  /** The CPUs whose load stays below 950 with `share` added. */
  ghost function WithRoom(b: UtilMap, m: Claims, share: int): set<CpuId> {
    set k | k in b && b[k] + Load(m, k) + share < 950
  }

  lemma OneToDo(r: Request, known: Claims)
    ensures Todo([r], known) == if r.uid in known then [] else [r]
  {
    assert [r][..0] == [];
    assert Todo([], known) == [];
  }

  lemma OneAsked(u: UtilMap, a: Ask)
    ensures Admit(Profile(u), [a]).Some? <==> |Fitting(u, a.share)| >= a.count
  {
    assert [a][..0] == [];
    assert Admit(Profile(u), []) == Some(Profile(u));
    StepStuck(u, a);
  }
}
