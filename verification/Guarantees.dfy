/**
 What a caller of the scheduler may count on: from a successful probe to the commits,
 and from one probe to the next.
 */
module Guarantees {
  import opened Nas
  import opened Demand
  import opened Packing
  import opened Reservation
  import opened Cluster
  import opened Promise

  // ----- From a successful probe to the commits -----

  lemma ProbeLeavesHeld(s: State, a: Action, s': State, n: NodeName, j: nat)
    requires Next(s, a, s') && a.Probe? && a.node == n && Suitable(s, n, a.reachable, a.reqs) && j < |a.reqs|
    requires forall m <- s.store :: m != n ==> !CommittedOn(s, m, a.reqs[j].uid)
    ensures n in s'.store && OnlyOn(s', n, a.reqs[j].uid)
  {
    hide Admit, PackedBy, Unplaced, ProbeUtil;
    ProbeHolds(s, n, a.reqs, a.cgroup, a.choices, j);
  }

  /**
   If a probe leaves `n` unmarked for a batch, then a commit on `n` of any of its claims,
   after any number of further steps that neither release the claim nor commit it on
   another node, does not fail for want of a reservation; it succeeds if the node is ready
   and the write takes effect.
   */
  lemma ProbeThenCommit(
      states: seq<State>, actions: seq<Action>, p: nat, i: nat, j: nat, reachable: bool, write: WriteOutcome)
    requires Segment(states, actions) && p < i < |states|
    requires actions[p].Probe? && Suitable(states[p], actions[p].node, actions[p].reachable, actions[p].reqs)
    requires j < |actions[p].reqs|
    requires forall m <- states[p].store :: m != actions[p].node ==> !CommittedOn(states[p], m, actions[p].reqs[j].uid)
    requires forall q :: p < q < i ==> LeavesAlone(actions[q], actions[p].node, actions[p].reqs[j].uid)
    ensures var n, uid := actions[p].node, actions[p].reqs[j].uid;
            && n in states[i].store && OnlyOn(states[i], n, uid)
            && CommitVerdictOf(states[i], n, reachable, uid, write) != NoReservation
            && (Up(states[i], n, reachable) && write.Applied? ==>
                  CommitVerdictOf(states[i], n, reachable, uid, write) == Allocated)
  {
    hide Next, Suitable, OnlyOn;
    var n, uid := actions[p].node, actions[p].reqs[j].uid;
    ProbeLeavesHeld(states[p], actions[p], states[p + 1], n, j);
    var tail, steps := states[p + 1..i + 1], actions[p + 1..i];
    SegmentPart(states, actions, p + 1, i);
    PromiseKept(tail, steps, i - p - 1, n, uid, reachable, write);
  }

  lemma SegmentPart(states: seq<State>, actions: seq<Action>, p: nat, i: nat)
    requires Segment(states, actions) && p <= i < |states|
    ensures Segment(states[p..i + 1], actions[p..i])
  {
  }

  lemma ShapedServes(s: State, n: NodeName, reqs: seq<Request>, params: map<Uid, Request>, j: nat)
    requires Shaped(s, params) && AgreesWith(params, reqs) && j < |reqs|
    requires n in s.store && (CommittedOn(s, n, reqs[j].uid) || PendingAt(s, n, reqs[j].uid))
    ensures ServedOn(s, n, reqs[j])
  {
  }

  /** The claims of the batch are committed on `n` at the steps `c`, each of them with a write that takes effect. */
  ghost predicate CommittedAt(
      states: seq<State>, actions: seq<Action>, n: NodeName, reqs: seq<Request>, c: seq<nat>, lo: nat, hi: nat)
    requires hi < |states| == |actions| + 1
  {
    && |c| == |reqs|
    && forall j :: 0 <= j < |c| ==>
         lo <= c[j] < hi && actions[c[j]] == Commit(n, true, reqs[j].uid, Applied) && Up(states[c[j]], n, true)
  }

  /** The claim is in no batch probed after the step `c`. */
  predicate NotProbedAfter(actions: seq<Action>, uid: Uid, c: nat, hi: nat)
    requires hi <= |actions|
  {
    forall q :: c < q < hi && actions[q].Probe? ==> uid !in Uids(actions[q].reqs)
  }

  /** The step neither commits nor releases on `n`. */
  predicate ActsElsewhere(a: Action, n: NodeName) {
    (a.Commit? || a.Release?) ==> a.node != n
  }

  /**
   After a probe that leaves `n` unmarked for a batch, let any other steps happen, on `n` or
   on other nodes, before, between and after the commits of the batch's claims on `n`, as
   long as none of them releases such a claim or commits it elsewhere.  Then every commit
   succeeds; together they grow the ledger of `n` by exactly the count times share of the
   claims that were not committed before the probe; and a claim that was not yet committed
   when its commit came is left pending on no node, unless it is probed again.
   */
  lemma ProbeThenCommitBatch(
      states: seq<State>, actions: seq<Action>, p: nat, hi: nat, c: seq<nat>, params: map<Uid, Request>)
    requires Run(states, actions) && p < hi < |states|
    requires forall j :: 0 <= j <= p && actions[j].Probe? ==> AgreesWith(params, actions[j].reqs)
    requires actions[p].Probe? && Suitable(states[p], actions[p].node, actions[p].reachable, actions[p].reqs)
    requires forall j, m :: 0 <= j < |actions[p].reqs| && m in states[p].store && m != actions[p].node ==>
               !CommittedOn(states[p], m, actions[p].reqs[j].uid)
    requires forall q :: p < q < hi ==> LeavesBatchAlone(actions[q], actions[p].node, actions[p].reqs)
    requires CommittedAt(states, actions, actions[p].node, actions[p].reqs, c, p + 1, hi)
    ensures actions[p].node in states[p].store
    ensures BatchDone(
              states, actions, actions[p].node, actions[p].reqs, p + 1, hi, c,
              states[p].store[actions[p].node].spec.claims)
  {
    hide Next, Inv, Suitable, ServedOn, OnlyOn, CommittedOn, Shaped, AgreesWith, LoadToDo, LeavesAlone, LedgerTotal;
    var n, reqs := actions[p].node, actions[p].reqs;
    ShapeOverRuns(states, actions, p + 1, params);
    ProbeServesBatch(states[p], actions[p], states[p + 1], params);
    BatchGetsDone(states, actions, n, reqs, p + 1, hi, c);
  }

  /** What the commits of a batch have achieved by step `hi`; `before` are the claims of `n` beforehand. */
  ghost predicate BatchDone(
    states: seq<State>, actions: seq<Action>, n: NodeName, reqs: seq<Request>, lo: nat, hi: nat, c: seq<nat>,
    before: Claims)
    requires lo <= hi < |states| == |actions| + 1
  {
    && n in states[hi].store
    && CommittedAt(states, actions, n, reqs, c, lo, hi)
    && (forall j :: 0 <= j < |reqs| ==>
          && CommitVerdictOf(states[c[j]], n, true, reqs[j].uid, Applied) == Allocated
          && CommittedOn(states[hi], n, reqs[j].uid)
          && (!CommittedOn(states[c[j]], n, reqs[j].uid) && NotProbedAfter(actions, reqs[j].uid, c[j], hi) ==>
                reqs[j].uid !in states[hi].allocations))
    && BatchGrowth(states, actions, n, reqs, lo, hi) == LoadToDo(reqs, before)
    && ((forall q :: lo <= q < hi ==> CommitsSome(actions[q], n, reqs) || ActsElsewhere(actions[q], n)) ==>
          LedgerTotal(states[hi], n) == LedgerTotal(states[lo], n) + LoadToDo(reqs, before))
  }

  /** The same from any state in which the batch is served on a node that was probed before. */
  lemma BatchGetsDone(
      states: seq<State>, actions: seq<Action>, n: NodeName, reqs: seq<Request>, lo: nat, hi: nat, c: seq<nat>)
    requires Segment(states, actions) && lo <= hi < |states| && GoodBatch(reqs)
    requires Inv(states[lo]) && BatchServed(states[lo], n, reqs) && n in states[lo].utilisation
    requires forall q :: lo <= q < hi ==> LeavesBatchAlone(actions[q], n, reqs)
    requires CommittedAt(states, actions, n, reqs, c, lo, hi)
    ensures BatchDone(states, actions, n, reqs, lo, hi, c, states[lo].store[n].spec.claims)
  {
    hide Next, Inv, ServedOn, OnlyOn, LoadToDo, LeavesAlone, LedgerTotal, CommitsSome, NotProbedAfter;
    BatchCommitted(states, actions, n, reqs, lo, hi);
    forall j | 0 <= j < |reqs|
      ensures CommitVerdictOf(states[c[j]], n, true, reqs[j].uid, Applied) == Allocated
      ensures CommittedOn(states[hi], n, reqs[j].uid)
      ensures !CommittedOn(states[c[j]], n, reqs[j].uid) && NotProbedAfter(actions, reqs[j].uid, c[j], hi) ==>
                reqs[j].uid !in states[hi].allocations
    {
      BatchCommitted(states, actions, n, reqs, lo, c[j]);
      CommitCounts(states[c[j]], n, reqs[j], states[c[j] + 1]);
      CommittedStays(states, actions, n, reqs, reqs[j].uid, j, c[j] + 1, hi);
      if !CommittedOn(states[c[j]], n, reqs[j].uid) && NotProbedAfter(actions, reqs[j].uid, c[j], hi) {
        LeftPendingNowhere(states, actions, n, reqs[j].uid, c[j], hi);
      }
    }
    AllDone(reqs, states[hi].store[n].spec.claims);
    if forall q :: lo <= q < hi ==> CommitsSome(actions[q], n, reqs) || ActsElsewhere(actions[q], n) {
      QuietGrowth(states, actions, n, reqs, lo, hi);
    }
  }

  lemma CommitCounts(s: State, n: NodeName, r: Request, s': State)
    requires ServedOn(s, n, r) && Up(s, n, true) && Next(s, Commit(n, true, r.uid, Applied), s')
    ensures CommitVerdictOf(s, n, true, r.uid, Applied) == Allocated
    ensures CommittedOn(s', n, r.uid)
    ensures !CommittedOn(s, n, r.uid) ==> CommitWrites(s, n, true, r.uid)
  {
  }

  lemma LeftPendingNowhere(states: seq<State>, actions: seq<Action>, n: NodeName, uid: Uid, c: nat, hi: nat)
    requires Segment(states, actions) && c < hi < |states|
    requires actions[c] == Commit(n, true, uid, Applied) && CommitWrites(states[c], n, true, uid)
    requires NotProbedAfter(actions, uid, c, hi)
    ensures uid !in states[hi].allocations
  {
    hide Next;
    NothingLeftPending(states, actions, n, uid, c, hi);
  }

  lemma {:induction false} CommittedStays(
      states: seq<State>, actions: seq<Action>, n: NodeName, reqs: seq<Request>, uid: Uid, j: nat, lo: nat,
      hi: nat)
    requires Segment(states, actions) && lo <= hi < |states| && j < |reqs| && uid == reqs[j].uid
    requires CommittedOn(states[lo], n, uid)
    requires forall q :: lo <= q < hi ==> LeavesBatchAlone(actions[q], n, reqs)
    ensures CommittedOn(states[hi], n, uid)
    decreases hi
  {
    hide Next, CommittedOn, LeavesAlone;
    if lo < hi {
      CommittedStays(states, actions, n, reqs, uid, j, lo, hi - 1);
      assert LeavesAlone(actions[hi - 1], n, reqs[j].uid);
      CommittedKept(states[hi - 1], actions[hi - 1], states[hi], n, uid);
    }
  }

  lemma ShadowStays(s: State, a: Action, s': State, n: NodeName)
    requires Next(s, a, s') && n in s.utilisation
    ensures n in s'.utilisation
  {
    hide Suitable, PackedBy, Charge, DischargeListed, Discharge;
  }

  lemma ElsewhereKeepsLedger(s: State, a: Action, s': State, n: NodeName)
    requires Next(s, a, s') && n in s.store && n in s.utilisation && ActsElsewhere(a, n)
    ensures n in s'.store && n in s'.utilisation && Ledger(s'.store[n].spec) == Ledger(s.store[n].spec)
  {
    hide Suitable, PackedBy, Charge, DischargeListed, ForgetUtil;
    ShadowStays(s, a, s', n);
  }

  lemma {:induction false} QuietGrowth(
      states: seq<State>, actions: seq<Action>, n: NodeName, reqs: seq<Request>, lo: nat, hi: nat)
    requires Segment(states, actions) && lo <= hi < |states| && n in states[lo].store && n in states[lo].utilisation
    requires forall q :: lo <= q < hi ==> CommitsSome(actions[q], n, reqs) || ActsElsewhere(actions[q], n)
    ensures n in states[hi].store && n in states[hi].utilisation
    ensures LedgerTotal(states[hi], n) == LedgerTotal(states[lo], n) + BatchGrowth(states, actions, n, reqs, lo, hi)
    decreases hi
  {
    hide Next, Ledger, Total, CommitsSome, ActsElsewhere;
    if lo < hi {
      QuietGrowth(states, actions, n, reqs, lo, hi - 1);
      StoreGrows(states[hi - 1], actions[hi - 1], states[hi], n);
      ShadowStays(states[hi - 1], actions[hi - 1], states[hi], n);
      if !CommitsSome(actions[hi - 1], n, reqs) {
        ElsewhereKeepsLedger(states[hi - 1], actions[hi - 1], states[hi], n);
      }
    }
  }

  lemma ProbeServesBatch(s: State, a: Action, s': State, params: map<Uid, Request>)
    requires Next(s, a, s') && a.Probe? && Suitable(s, a.node, a.reachable, a.reqs)
    requires Shaped(s', params) && AgreesWith(params, a.reqs)
    requires forall j, m :: 0 <= j < |a.reqs| && m in s.store && m != a.node ==> !CommittedOn(s, m, a.reqs[j].uid)
    ensures a.node in s.store && s'.store == s.store && a.node in s'.utilisation
    ensures GoodBatch(a.reqs) && BatchServed(s', a.node, a.reqs)
  {
    hide Admit, PackedBy, Unplaced, ProbeUtil, ServedOn, PendingAt, Shaped, AgreesWith;
    ProbeServed(s, a, s', params);
    forall j | 0 <= j < |a.reqs|
      ensures OnlyOn(s', a.node, a.reqs[j].uid)
    {
      ProbeLeavesHeld(s, a, s', a.node, j);
    }
  }

  lemma ProbeServed(s: State, a: Action, s': State, params: map<Uid, Request>)
    requires Next(s, a, s') && a.Probe? && Suitable(s, a.node, a.reachable, a.reqs)
    requires Shaped(s', params) && AgreesWith(params, a.reqs)
    ensures a.node in s.store && s'.store == s.store && GoodBatch(a.reqs)
    ensures forall j :: 0 <= j < |a.reqs| ==>
              && ServedOn(s', a.node, a.reqs[j])
              && (CommittedOn(s', a.node, a.reqs[j].uid) <==> CommittedOn(s, a.node, a.reqs[j].uid))
  {
    hide Admit, PackedBy, Unplaced, ProbeUtil, ServedOn, PendingAt, Shaped, AgreesWith;
    forall j | 0 <= j < |a.reqs|
      ensures ServedOn(s', a.node, a.reqs[j])
    {
      ProbeHolds(s, a.node, a.reqs, a.cgroup, a.choices, j);
      ShapedServes(s', a.node, a.reqs, params, j);
    }
  }

  // ----- From one probe to the next -----

  lemma ProbeElsewhereAdds(s: State, a: Action, s': State, n: NodeName)
    requires Next(s, a, s') && n in s.store && a.Probe? && a.node != n
    ensures s'.store == s.store && SubMap(EverythingOn(s', n), EverythingOn(s, n))
  {
    hide Admit, PackedBy, Unplaced, ProbeUtil, Everything, Stale;
    if Suitable(s, a.node, a.reachable, a.reqs) {
      ProbedPending(s, a.node, a.reqs, a.cgroup, a.choices, n);
    } else if Up(s, a.node, a.reachable) {
      PendingRemoved(s.allocations, Stale(s, a.node), n);
    }
    EverythingShrinks(s.store[n].spec, PendingOn(s.allocations, n), PendingOn(s'.allocations, n));
  }

  lemma FewerPending(m: Claims, us: set<Uid>)
    ensures SubMap(m - us, m)
  {
  }

  lemma EverythingShrinks(spec: NodeSpec, pend: Claims, pend': Claims)
    requires SubMap(pend', pend)
    ensures SubMap(Everything(spec, pend'), Everything(spec, pend))
  {
  }

  lemma CommitMovesWithin(spec: NodeSpec, pend: Claims, pend': Claims, uid: Uid)
    requires uid in pend && uid !in spec.claims && SubMap(pend', pend)
    ensures SubMap(Everything(Committed(spec, uid, pend[uid]), pend'), Everything(spec, pend))
  {
  }

  lemma CommitAdds(s: State, m: NodeName, uid: Uid, write: WriteOutcome, n: NodeName)
    requires n in s.store && CommitWrites(s, m, true, uid)
    ensures var s' := CommittedState(s, m, uid, write);
            && n in s'.store && SubMap(EverythingOn(s', n), EverythingOn(s, n))
            && Base(s'.store[n].spec) == Base(s.store[n].spec)
  {
    hide Charge, ForgetUtil, Everything, SubMap;
    var gone := if write.Applied? then {uid} else {};
    var pend, pend' := PendingOn(s.allocations, n), PendingOn(CommittedState(s, m, uid, write).allocations, n);
    assert s.allocations - {} == s.allocations;
    PendingRemoved(s.allocations, gone, n);
    assert SubMap(pend', pend) by {
      FewerPending(pend, gone);
    }
    EverythingShrinks(s.store[n].spec, pend, pend');
    if m == n {
      CommitMovesWithin(s.store[n].spec, pend, pend', uid);
    }
  }

  lemma ReleaseAdds(s: State, m: NodeName, uid: Uid, write: WriteOutcome, n: NodeName)
    requires n in s.store && ReleaseActs(s, m, true, uid)
    ensures var s' := ReleasedState(s, m, uid, write);
            && n in s'.store && SubMap(EverythingOn(s', n), EverythingOn(s, n))
            && Base(s'.store[n].spec) == Base(s.store[n].spec)
  {
  }

  /** No step but a probe of `n` adds to what is committed and pending on `n`. */
  lemma OnlyProbesAdd(s: State, a: Action, s': State, n: NodeName)
    requires Next(s, a, s') && n in s.store && !(a.Probe? && a.node == n)
    ensures n in s'.store
    ensures SubMap(EverythingOn(s', n), EverythingOn(s, n))
    ensures Base(s'.store[n].spec) == Base(s.store[n].spec) || Untouched(s, n)
  {
    hide Suitable, PackedBy, CommittedState, ReleasedState;
    match a
    case Probe(_, _, _, _, _) => ProbeElsewhereAdds(s, a, s', n);
    case Commit(m, reachable, uid, write) =>
      if CommitWrites(s, m, reachable, uid) {
        CommitAdds(s, m, uid, write, n);
      }
    case Release(m, reachable, uid, write) =>
      if ReleaseActs(s, m, reachable, uid) {
        ReleaseAdds(s, m, uid, write, n);
      }
    case Join(_, _) =>
    case PluginWrite(_, _) =>
  }

  /** With less committed and pending on `n`, a batch with nothing reserved there still fits. */
  lemma LessStillSuits(s: State, s': State, n: NodeName, reqs: seq<Request>)
    requires Inv(s) && Inv(s') && n in s.store && n in s'.store && GoodBatch(reqs)
    requires Base(s'.store[n].spec) == Base(s.store[n].spec) && SubMap(EverythingOn(s', n), EverythingOn(s, n))
    requires forall r <- reqs :: r.uid !in EverythingOn(s, n)
    requires Admit(Profile(ProbeUtil(s, n)), Asks(Unplaced(s, n, reqs))).Some?
    ensures Admit(Profile(ProbeUtil(s', n)), Asks(Unplaced(s', n, reqs))).Some?
  {
    hide Inv, Profile, Admit;
    InvAt(s, n);
    InvAt(s', n);
    var base := Base(s.store[n].spec);
    OverlayExact(s.store[n].spec, PendingOn(s.allocations, n));
    OverlayExact(s'.store[n].spec, PendingOn(s'.allocations, n));
    NoneHeld(reqs, EverythingOn(s, n));
    NoneHeld(reqs, EverythingOn(s', n));
    forall k | k in base
      ensures ProbeUtil(s', n)[k] <= ProbeUtil(s, n)[k]
    {
      LoadMonotone(EverythingOn(s', n), EverythingOn(s, n), base.Keys, k);
    }
    forall i | 0 <= i < |reqs|
      ensures Asks(reqs)[i].share >= 0
    {
      ShareNonNegative(reqs[i].runtime, reqs[i].period);
    }
    LessLoadStillAdmits(ProbeUtil(s', n), ProbeUtil(s, n), Asks(reqs));
  }

  lemma {:induction false} NoneHeld(reqs: seq<Request>, known: Claims)
    requires forall r <- reqs :: r.uid !in known
    ensures Todo(reqs, known) == reqs
  {
    if reqs != [] {
      var front, last := reqs[..|reqs| - 1], reqs[|reqs| - 1];
      assert last in reqs;
      NoneHeld(front, known);
      assert reqs == front + [last];
    }
  }

  /**
   A node that suits a batch goes on suiting it, whatever the other steps are: releasing
   claims, committing reserved ones and probing other nodes never turn it unsuitable.
   Only a probe of the node itself, or its becoming unready, can.
   */
  lemma SuitabilityKept(s: State, a: Action, s': State, n: NodeName, reqs: seq<Request>)
    requires Inv(s) && Next(s, a, s') && GoodBatch(reqs)
    requires Suitable(s, n, true, reqs) && forall r <- reqs :: r.uid !in EverythingOn(s, n)
    requires !(a.Probe? && a.node == n)
    requires n in s'.store ==> s'.store[n].ready
    ensures Suitable(s', n, true, reqs)
    ensures forall r <- reqs :: r.uid !in EverythingOn(s', n)
  {
    hide Next, Inv, Admit, Profile, Unplaced, ProbeUtil, EverythingOn;
    NextKeepsInv(s, a, s');
    OnlyProbesAdd(s, a, s', n);
    LessStillSuits(s, s', n, reqs);
  }

  /** The same over any number of steps. */
  lemma {:induction false} SuitabilityKeptOverSegments(
      states: seq<State>, actions: seq<Action>, i: nat, n: NodeName, reqs: seq<Request>)
    requires Segment(states, actions) && i < |states| && Inv(states[0]) && GoodBatch(reqs)
    requires Suitable(states[0], n, true, reqs) && forall r <- reqs :: r.uid !in EverythingOn(states[0], n)
    requires forall j :: 0 <= j < i ==> !(actions[j].Probe? && actions[j].node == n)
    requires forall j :: 0 <= j <= i && n in states[j].store ==> states[j].store[n].ready
    ensures Inv(states[i]) && Suitable(states[i], n, true, reqs)
    ensures forall r <- reqs :: r.uid !in EverythingOn(states[i], n)
  {
    hide Next, Inv, Admit, Profile, Unplaced, ProbeUtil, EverythingOn;
    if i > 0 {
      SuitabilityKeptOverSegments(states, actions, i - 1, n, reqs);
      NextKeepsInv(states[i - 1], actions[i - 1], states[i]);
      SuitabilityKept(states[i - 1], actions[i - 1], states[i], n, reqs);
    }
  }
}
