/**
 The interleaved operations and the atomic ones: an operation whose steps nobody disturbs
 amounts to the corresponding step of the cluster.
 */
module Atomicity {
  import opened Nas
  import opened Demand
  import opened Packing
  import opened Reservation
  import opened Cluster
  import opened Interleaving
  import opened Vanishing
  import RtController

  /** `a` is an action of the operation `op` on node `n`. */
  predicate ActionOf(a: Action, n: NodeName, op: Op) {
    match op
    case ProbeOp(reqs, cgroup) => a.Probe? && a.node == n && a.reqs == reqs && a.cgroup == cgroup
    case CommitOp(uid) => a.Commit? && a.node == n && a.uid == uid
    case ReleaseOp(uid) => a.Release? && a.node == n && a.uid == uid
  }

  /** From any shadow, some action of the operation leads from one store and set of reservations to the other. */
  ghost predicate Amounts(
      store: map<NodeName, NodeObject>, a: Allocations, n: NodeName, op: Op, store': map<NodeName, NodeObject>,
      a': Allocations)
  {
    forall util :: AmountsFrom(store, a, util, n, op, store', a')
  }

  ghost predicate AmountsFrom(
    store: map<NodeName, NodeObject>, a: Allocations, util: map<NodeName, UtilMap>, n: NodeName, op: Op,
    store': map<NodeName, NodeObject>, a': Allocations)
  {
    exists action, util' :: ActionOf(action, n, op) && Next(State(store, a, util), action, State(store', a', util'))
  }

  lemma By(store: map<NodeName, NodeObject>, a: Allocations, util: map<NodeName, UtilMap>, n: NodeName, op: Op,
           store': map<NodeName, NodeObject>, a': Allocations, action: Action, util': map<NodeName, UtilMap>)
    requires ActionOf(action, n, op) && Next(State(store, a, util), action, State(store', a', util'))
    ensures AmountsFrom(store, a, util, n, op, store', a')
  {
    hide Next, ActionOf;
  }

  ghost predicate Overlaid(spec: NodeSpec, pend: Claims, claims: Claims, util: UtilMap, seen: set<Uid>) {
    && seen <= pend.Keys
    && claims == Everything(spec, RtController.Visited(pend, seen))
    && util == OverlayUtil(spec, RtController.Visited(pend, seen))
  }

  ghost predicate Swept(a: Allocations, spec: NodeSpec, pend: Claims, seen: set<Uid>, a': Allocations) {
    a' == a - (RtController.StaleIn(spec, pend) * seen)
  }

  /** The reservations a probe has yet to record, out of those it packed. */
  ghost predicate HalfRecorded(s: State, n: NodeName, op: Op, left: Claims, a: Allocations)
    requires op.ProbeOp? && n in s.store
  {
    exists choices :: RecordedSoFar(s, n, op, left, a, choices)
  }

  ghost predicate RecordedSoFar(s: State, n: NodeName, op: Op, left: Claims, a: Allocations, choices: seq<seq<CpuId>>)
    requires op.ProbeOp? && n in s.store
  {
    && Suitable(s, n, true, op.reqs)
    && PackedBy(ProbeUtil(s, n), Asks(Unplaced(s, n, op.reqs)), choices)
    && var made := NewClaims(Unplaced(s, n, op.reqs), choices, op.cgroup);
       && SubMap(left, made)
       && a == Reserve(s.allocations - Stale(s, n), n, made - left.Keys)
  }

  /** What an undisturbed operation has done by each phase, starting from `store` and `a`. */
  ghost predicate Progress(
    store: map<NodeName, NodeObject>, a: Allocations, n: NodeName, op: Op, store': map<NodeName, NodeObject>,
    a': Allocations, p: Phase)
  {
    var pend := PendingOn(a, n);
    match p
    case Entered => store' == store && a' == a
    case Overlaying(spec, claims, util, seen) =>
      && op.ProbeOp? && n in store && store[n].ready && spec == store[n].spec && store' == store
      && Overlaid(spec, pend, claims, util, seen) && Swept(a, spec, pend, seen, a')
    case Visiting(spec, claims, util, seen, uid, entry) =>
      && op.ProbeOp? && n in store && store[n].ready && spec == store[n].spec && store' == store
      && Overlaid(spec, pend, claims, util, seen) && Swept(a, spec, pend, seen, a')
      && uid in pend && uid !in seen && entry == pend[uid]
    case Recording(left) =>
      && op.ProbeOp? && n in store && store' == store && HalfRecorded(State(store, a, map[]), n, op, left, a')
    case Fetched(spec) =>
      && op.CommitOp? && n in store && store[n].ready && spec == store[n].spec && op.uid !in spec.claims
      && store' == store && a' == a
    case Checked(spec) =>
      && op.CommitOp? && n in store && store[n].ready && spec == store[n].spec && op.uid !in spec.claims
      && store' == store && a' == a
      && op.uid in pend
    case Committing(spec, entry) =>
      && op.CommitOp? && n in store && store[n].ready && spec == store[n].spec && op.uid !in spec.claims
      && store' == store && a' == a
      && op.uid in pend && entry == pend[op.uid]
    case Forgetting =>
      && op.CommitOp? && n in store && store[n].ready && op.uid !in store[n].spec.claims && op.uid in pend && a' == a
      && store' == store[n := store[n].(spec := Committed(store[n].spec, op.uid, pend[op.uid]))]
    case Releasing(spec) =>
      && op.ReleaseOp? && n in store && spec == store[n].spec && op.uid in spec.claims
      && spec.claims[op.uid].RtCpu? && store' == store && a' == a
    case Subtracted(spec) =>
      && op.ReleaseOp? && n in store && spec == store[n].spec && op.uid in spec.claims
      && spec.claims[op.uid].RtCpu? && store' == store
      && a' == a - {op.uid}
    case Leaving => Amounts(store, a, n, op, store', a')
    case Panicked => true
  }

  // ----- A probe -----

  lemma OverlayBegins(spec: NodeSpec, a: Allocations, n: NodeName)
    ensures Overlaid(spec, PendingOn(a, n), spec.claims, Ledger(spec), {})
    ensures Swept(a, spec, PendingOn(a, n), {}, a)
  {
    var pend := PendingOn(a, n);
    assert RtController.Visited(pend, {}) == map[];
    assert RtController.Visited(pend, {}) - spec.claims.Keys == map[];
  }

  lemma OverlayGoesOn(
      spec: NodeSpec, a: Allocations, n: NodeName, claims: Claims, util: UtilMap, seen: set<Uid>,
      a': Allocations, uid: Uid)
    requires GoodClaims(PendingOn(a, n), Ledger(spec).Keys)
    requires Overlaid(spec, PendingOn(a, n), claims, util, seen) && Swept(a, spec, PendingOn(a, n), seen, a')
    requires uid in PendingOn(a, n) && uid !in seen
    ensures var entry := PendingOn(a, n)[uid];
            if uid in claims then
              && Overlaid(spec, PendingOn(a, n), claims, util, seen + {uid})
              && Swept(a, spec, PendingOn(a, n), seen + {uid}, a' - {uid})
            else
              && Overlaid(spec, PendingOn(a, n), claims[uid := entry], Charge(util, entry.Cpus()), seen + {uid})
              && Swept(a, spec, PendingOn(a, n), seen + {uid}, a')
  {
    hide Everything, OverlayUtil, RtController.Visited, RtController.StaleIn, PendingOn, Charge, GoodClaims;
    var pend := PendingOn(a, n);
    RtController.Unvisited(a, n, spec, seen, uid);
    SweepStep(a, RtController.StaleIn(spec, pend), seen, uid);
    if uid in spec.claims {
      RtController.VisitedOther(spec, pend, seen, uid);
    } else {
      RtController.VisitedPending(spec, pend, seen, uid);
      NotStaleIn(spec, pend, uid);
    }
  }

  lemma NotStaleIn(spec: NodeSpec, pend: Claims, uid: Uid)
    ensures uid in RtController.StaleIn(spec, pend) <==> uid in pend && uid in spec.claims
  {
  }

  lemma SweepStep(a: Allocations, stale: set<Uid>, seen: set<Uid>, uid: Uid)
    ensures uid !in stale ==> a - (stale * (seen + {uid})) == a - (stale * seen)
    ensures uid in stale ==> a - (stale * (seen + {uid})) == a - (stale * seen) - {uid}
  {
    if uid !in stale {
      assert stale * (seen + {uid}) == stale * seen;
    }
  }

  lemma VisitReads(spec: NodeSpec, a: Allocations, n: NodeName, seen: set<Uid>, a': Allocations, uid: Uid)
    requires Swept(a, spec, PendingOn(a, n), seen, a') && uid !in seen
    ensures uid in PendingOn(a', n) <==> uid in PendingOn(a, n)
    ensures uid in PendingOn(a, n) ==> PendingOn(a', n)[uid] == PendingOn(a, n)[uid]
  {
    hide RtController.StaleIn;
    RtController.Unvisited(a, n, spec, seen, uid);
  }

  /** When every pending claim was visited, the overlay is that of an atomic probe. */
  lemma OverlayEnds(
      spec: NodeSpec, a: Allocations, n: NodeName, claims: Claims, util: UtilMap, seen: set<Uid>,
      a': Allocations)
    requires Overlaid(spec, PendingOn(a, n), claims, util, seen) && Swept(a, spec, PendingOn(a, n), seen, a')
    requires PendingOn(a', n).Keys <= seen
    ensures claims == Everything(spec, PendingOn(a, n)) && util == OverlayUtil(spec, PendingOn(a, n))
    ensures a' == a - RtController.StaleIn(spec, PendingOn(a, n))
  {
    hide Everything, OverlayUtil, PendingOn;
    var pend := PendingOn(a, n);
    forall u | u in pend
      ensures u in seen
    {
      if u !in seen {
        VisitReads(spec, a, n, seen, a', u);
      }
    }
    assert seen == pend.Keys;
    assert RtController.Visited(pend, seen) == pend;
    assert RtController.StaleIn(spec, pend) * seen == RtController.StaleIn(spec, pend);
  }

  lemma SetOneRecords(swept: Allocations, n: NodeName, made: Claims, left: Claims, uid: Uid)
    requires SubMap(left, made) && uid in left
    ensures SubMap(left - {uid}, made)
    ensures Reserve(Reserve(swept, n, made - left.Keys), n, map[uid := left[uid]])
            == Reserve(swept, n, made - (left - {uid}).Keys)
  {
    hide Reserve;
    RtController.ReserveTwice(swept, n, made - left.Keys, uid, made[uid]);
    assert (made - left.Keys)[uid := made[uid]] == made - (left - {uid}).Keys;
  }

  lemma NothingRecorded(swept: Allocations, n: NodeName, made: Claims)
    ensures SubMap(made, made) && Reserve(swept, n, made - made.Keys) == swept
  {
    assert made - made.Keys == map[];
    NothingReserved(swept, n);
  }

  lemma NothingReserved(swept: Allocations, n: NodeName)
    ensures Reserve(swept, n, map[]) == swept
  {
  }

  lemma PackProgress(
    store: map<NodeName, NodeObject>, a: Allocations, n: NodeName, op: Op, a': Allocations, p: Phase,
    choices: seq<seq<CpuId>>, e: Effect)
    requires op.ProbeOp? && GoodBatch(op.reqs) && Progress(store, a, n, op, store, a', p)
    requires Acts(store, a', n, op, p, Pack(choices), e) && !e.phase.Panicked?
    ensures Progress(store, a, n, op, e.store, e.allocations, e.phase)
  {
    hide PackedBy, Admit, Profile, Todo, Everything, OverlayUtil, PendingOn, Overlaid, Swept, NilDereference,
      Reserve, NewClaims, Amounts, HalfRecorded, Stale, RtController.StaleIn;
    var s := State(store, a, map[]);
    OverlayEnds(p.spec, a, n, p.claims, p.util, p.seen, a');
    StaleIsStaleIn(s, n);
    if e.phase.Recording? {
      PackRecords(store, a, n, op, a', choices);
    } else {
      PackLeaves(store, a, n, op, a');
    }
  }

  lemma PackRecords(
      store: map<NodeName, NodeObject>, a: Allocations, n: NodeName, op: Op, a': Allocations,
      choices: seq<seq<CpuId>>)
    requires op.ProbeOp? && n in store && Suitable(State(store, a, map[]), n, true, op.reqs)
    requires PackedBy(ProbeUtil(State(store, a, map[]), n), Asks(Unplaced(State(store, a, map[]), n, op.reqs)), choices)
    requires a' == a - Stale(State(store, a, map[]), n)
    ensures HalfRecorded(
              State(store, a, map[]), n, op,
              NewClaims(Unplaced(State(store, a, map[]), n, op.reqs), choices, op.cgroup), a')
  {
    hide Suitable, PackedBy, ProbeUtil, Unplaced, Stale, Reserve, NewClaims;
    var s := State(store, a, map[]);
    var made := NewClaims(Unplaced(s, n, op.reqs), choices, op.cgroup);
    NothingRecorded(a', n, made);
    assert RecordedSoFar(s, n, op, made, a', choices);
  }

  lemma PackLeaves(store: map<NodeName, NodeObject>, a: Allocations, n: NodeName, op: Op, a': Allocations)
    requires op.ProbeOp? && GoodBatch(op.reqs) && n in store && store[n].ready
    requires !Suitable(State(store, a, map[]), n, true, op.reqs)
    requires a' == a - Stale(State(store, a, map[]), n)
    ensures Amounts(store, a, n, op, store, a')
  {
    hide Admit, Profile, Todo, Everything, OverlayUtil, PendingOn;
    forall util
      ensures AmountsFrom(store, a, util, n, op, store, a')
    {
      assert Stale(State(store, a, util), n) == Stale(State(store, a, map[]), n);
      By(store, a, util, n, op, store, a', Probe(n, true, op.reqs, op.cgroup, []), util);
    }
  }

  lemma StaleIsStaleIn(s: State, n: NodeName)
    requires n in s.store
    ensures Stale(s, n) == RtController.StaleIn(s.store[n].spec, PendingOn(s.allocations, n))
  {
  }

  lemma ProbeFinishes(store: map<NodeName, NodeObject>, a: Allocations, n: NodeName, op: Op, a': Allocations)
    requires op.ProbeOp? && GoodBatch(op.reqs) && n in store && HalfRecorded(State(store, a, map[]), n, op, map[], a')
    ensures Amounts(store, a, n, op, store, a')
  {
    hide PackedBy, Admit, Profile, Todo, Reserve, NewClaims, Everything, OverlayUtil;
    var s := State(store, a, map[]);
    var choices :| RecordedSoFar(s, n, op, map[], a', choices);
    var made := NewClaims(Unplaced(s, n, op.reqs), choices, op.cgroup);
    var none: Claims := map[];
    assert made - none.Keys == made;
    forall util
      ensures AmountsFrom(store, a, util, n, op, store, a')
    {
      var s := State(store, a, util);
      var s' := Probed(s, n, op.reqs, op.cgroup, choices);
      assert Suitable(s, n, true, op.reqs);
      By(store, a, util, n, op, store, a', Probe(n, true, op.reqs, op.cgroup, choices), s'.utilisation);
    }
  }

  lemma SetProgress(
    store: map<NodeName, NodeObject>, a: Allocations, n: NodeName, op: Op, left: Claims, a': Allocations, uid: Uid)
    requires op.ProbeOp? && n in store && uid in left && HalfRecorded(State(store, a, map[]), n, op, left, a')
    ensures HalfRecorded(State(store, a, map[]), n, op, left - {uid}, Reserve(a', n, map[uid := left[uid]]))
  {
    hide Suitable, PackedBy, Reserve, NewClaims, Unplaced, Stale;
    var s := State(store, a, map[]);
    var choices :| RecordedSoFar(s, n, op, left, a', choices);
    SetOneRecords(s.allocations - Stale(s, n), n, NewClaims(Unplaced(s, n, op.reqs), choices, op.cgroup), left, uid);
    assert RecordedSoFar(s, n, op, left - {uid}, Reserve(a', n, map[uid := left[uid]]), choices);
  }

  // ----- Commit, release, and giving up -----

  lemma GivesUp(store: map<NodeName, NodeObject>, a: Allocations, n: NodeName, op: Op)
    requires op.ProbeOp? ==> GoodBatch(op.reqs)
    ensures Amounts(store, a, n, op, store, a)
  {
    hide GoodBatch;
    var action := match op
      case ProbeOp(reqs, cgroup) => Probe(n, false, reqs, cgroup, [])
      case CommitOp(uid) => Commit(n, false, uid, Rejected)
      case ReleaseOp(uid) => Release(n, false, uid, Rejected);
    forall util
      ensures AmountsFrom(store, a, util, n, op, store, a)
    {
      By(store, a, util, n, op, store, a, action, util);
    }
  }

  lemma CommitAmounts(store: map<NodeName, NodeObject>, a: Allocations, n: NodeName, op: Op, write: WriteOutcome)
    requires op.CommitOp? && n in store && store[n].ready && op.uid !in store[n].spec.claims
    requires op.uid in PendingOn(a, n)
    ensures Amounts(store, a, n, op,
                    Written(store, n, Committed(store[n].spec, op.uid, PendingOn(a, n)[op.uid]), write),
                    if write.Applied? then a - {op.uid} else a)
  {
    hide Committed, ForgetUtil;
    var store' := Written(store, n, Committed(store[n].spec, op.uid, PendingOn(a, n)[op.uid]), write);
    var a' := if write.Applied? then a - {op.uid} else a;
    var action := Commit(n, true, op.uid, write);
    forall util
      ensures AmountsFrom(store, a, util, n, op, store', a')
    {
      var s := State(store, a, util);
      var s' := CommittedState(s, n, op.uid, write);
      assert CommitWrites(s, n, true, op.uid);
      By(store, a, util, n, op, store', a', action, s'.utilisation);
    }
  }

  lemma ReleaseAmounts(store: map<NodeName, NodeObject>, a: Allocations, n: NodeName, op: Op, write: WriteOutcome)
    requires op.ReleaseOp? && n in store && op.uid in store[n].spec.claims && store[n].spec.claims[op.uid].RtCpu?
    ensures Amounts(store, a, n, op, Written(store, n, Released(store[n].spec, op.uid), write), a - {op.uid})
  {
    hide Released, ForgetUtil;
    var store' := Written(store, n, Released(store[n].spec, op.uid), write);
    var action := Release(n, true, op.uid, write);
    forall util
      ensures AmountsFrom(store, a, util, n, op, store', a - {op.uid})
    {
      var s := State(store, a, util);
      var s' := ReleasedState(s, n, op.uid, write);
      By(store, a, util, n, op, store', a - {op.uid}, action, s'.utilisation);
    }
  }

  // ----- Every step -----

  lemma ActsProgress(
    store: map<NodeName, NodeObject>, a: Allocations, n: NodeName, op: Op, store': map<NodeName, NodeObject>,
    a': Allocations, p: Phase, ev: Event, e: Effect)
    requires n in store ==> GoodClaims(PendingOn(a, n), Ledger(store[n].spec).Keys)
    requires op.ProbeOp? ==> GoodBatch(op.reqs)
    requires Progress(store, a, n, op, store', a', p) && Acts(store', a', n, op, p, ev, e) && !e.phase.Panicked?
    ensures Progress(store, a, n, op, e.store, e.allocations, e.phase)
  {
    hide GoodClaims, GoodBatch, PendingOn, Overlaid, Swept, HalfRecorded, Amounts, Charge, Ledger, Committed,
      Released, Admit, PackedBy, Profile, Todo, NilDereference, NewClaims, Reserve;
    match ev
    case GiveUp => GivesUp(store, a, n, op);
    case FetchForProbe => OverlayBegins(store[n].spec, a, n);
    case Visit(uid) => VisitReads(p.spec, a, n, p.seen, a', uid);
    case CallVisitor => VisitorProgress(store, a, n, p, a');
    case Pack(choices) => PackProgress(store, a, n, op, a', p, choices, e);
    case SetOne(uid) => SetProgress(store, a, n, op, p.left, a', uid);
    case FinishRecording => ProbeFinishes(store, a, n, op, a');
    case FetchForCommit =>
    case CheckExists =>
    case TakeReservation =>
    case WriteCommit(write) =>
      if !write.Applied? {
        CommitAmounts(store, a, n, op, write);
      }
    case Forget => CommitAmounts(store, a, n, op, Applied);
    case FetchForRelease =>
    case DropPending =>
    case WriteRelease(write) => ReleaseAmounts(store, a, n, op, write);
  }

  lemma VisitorProgress(store: map<NodeName, NodeObject>, a: Allocations, n: NodeName, p: Phase, a': Allocations)
    requires n in store && GoodClaims(PendingOn(a, n), Ledger(store[n].spec).Keys)
    requires p.Visiting? && p.spec == store[n].spec && Overlaid(p.spec, PendingOn(a, n), p.claims, p.util, p.seen)
    requires Swept(a, p.spec, PendingOn(a, n), p.seen, a')
    requires p.uid in PendingOn(a, n) && p.uid !in p.seen && p.entry == PendingOn(a, n)[p.uid]
    ensures var pend := PendingOn(a, n);
            if p.uid in p.claims then
              && Overlaid(p.spec, pend, p.claims, p.util, p.seen + {p.uid})
              && Swept(a, p.spec, pend, p.seen + {p.uid}, a' - {p.uid})
            else
              && Overlaid(p.spec, pend, p.claims[p.uid := p.entry], Charge(p.util, p.entry.Cpus()), p.seen + {p.uid})
              && Swept(a, p.spec, pend, p.seen + {p.uid}, a')
  {
    OverlayGoesOn(p.spec, a, n, p.claims, p.util, p.seen, a', p.uid);
  }

  /** The moves `i`..`j` are all steps of thread `t` inside its node. */
  predicate Undisturbed(ms: seq<Move>, i: nat, j: nat, t: Tid)
    requires j <= |ms|
  {
    forall q :: i <= q < j ==>
      && ms[q].ByThread? && ms[q].t == t
      && !(ms[q].ev.GetMutex? || ms[q].ev.Lock? || ms[q].ev.Unlock?)
  }

  lemma InsideMove(w: World, t: Tid, ev: Event, w': World)
    requires Makes(w, ByThread(t, ev), w') && !(ev.GetMutex? || ev.Lock? || ev.Unlock?)
    ensures t in w.threads && exists e :: ActsInside(w, t, ev, e, w')
  {
  }

  lemma {:induction false} UndisturbedProgress(
      ws: seq<World>, ms: seq<Move>, i: nat, j: nat, t: Tid, n: NodeName, op: Op, id: MutexId)
    requires Trace(ws, ms) && i <= j < |ws| && WorldInv(ws[i]) && Undisturbed(ms, i, j, t)
    requires t in ws[i].threads && ws[i].threads[t] == Inside(n, op, id, Entered)
    ensures t in ws[j].threads && ws[j].threads[t].Inside? && ws[j].threads[t].node == n && ws[j].threads[t].op == op
    ensures ws[j].threads[t].phase.Panicked?
            || Progress(ws[i].store, ws[i].allocations, n, op, ws[j].store, ws[j].allocations, ws[j].threads[t].phase)
    decreases j
  {
    hide WorldInv, Makes, Acts, GoodClaims, PendingOn;
    if i < j {
      UndisturbedProgress(ws, ms, i, j - 1, t, n, op, id);
      var w, w', ev := ws[j - 1], ws[j], ms[j - 1].ev;
      assert Makes(w, ms[j - 1], w') && ms[j - 1] == ByThread(t, ev);
      InsideMove(w, t, ev, w');
      var e :| ActsInside(w, t, ev, e, w');
      if w.threads[t].phase.Panicked? {
        PanickedIsStuck(w, t, ev, e, w');
      } else if !e.phase.Panicked? {
        StartsInOrder(ws[i], t, n, op);
        hide Progress;
        ActsProgress(ws[i].store, ws[i].allocations, n, op, w.store, w.allocations, w.threads[t].phase, ev, e);
      }
    } else {
      hide Amounts, Overlaid, Swept, HalfRecorded;
    }
  }

  lemma PanickedIsStuck(w: World, t: Tid, ev: Event, e: Effect, w': World)
    requires t in w.threads && w.threads[t].Inside? && ActsInside(w, t, ev, e, w')
    ensures !w.threads[t].phase.Panicked?
  {
  }

  lemma StartsInOrder(w: World, t: Tid, n: NodeName, op: Op)
    requires WorldInv(w) && t in w.threads && w.threads[t].Inside? && w.threads[t].node == n && w.threads[t].op == op
    ensures op.ProbeOp? ==> GoodBatch(op.reqs)
    ensures n in w.store ==> GoodClaims(PendingOn(w.allocations, n), Ledger(w.store[n].spec).Keys)
  {
    hide MutexesOk;
    PhaseAt(w, t);
    NoPendingOutside(w, n);
  }

  /**
   An operation whose steps inside its node nobody disturbs, from entering to leaving,
   changes the store and the reservations as one atomic step of the cluster does.
   */
  lemma UndisturbedAmounts(ws: seq<World>, ms: seq<Move>, i: nat, j: nat, t: Tid, n: NodeName, op: Op, id: MutexId)
    requires Trace(ws, ms) && i <= j < |ws| && WorldInv(ws[i]) && Undisturbed(ms, i, j, t)
    requires t in ws[i].threads && ws[i].threads[t] == Inside(n, op, id, Entered)
    requires t in ws[j].threads && ws[j].threads[t].Inside? && ws[j].threads[t].phase.Leaving?
    ensures Amounts(ws[i].store, ws[i].allocations, n, op, ws[j].store, ws[j].allocations)
  {
    hide WorldInv, Trace, Amounts, Overlaid, Swept, HalfRecorded;
    UndisturbedProgress(ws, ms, i, j, t, n, op, id);
  }

  // ----- On the node alone, while others act -----

  function Only(store: map<NodeName, NodeObject>, n: NodeName): map<NodeName, NodeObject> {
    if n in store then map[n := store[n]] else map[]
  }

  /** The reservations of one node, without those of any other. */
  ghost function Alone(pend: Claims, n: NodeName): Allocations {
    map u | u in pend :: map[n := pend[u]]
  }

  lemma PendingAlone(pend: Claims, n: NodeName)
    ensures PendingOn(Alone(pend, n), n) == pend
  {
  }

  lemma AloneWithout(pend: Claims, us: set<Uid>, n: NodeName)
    ensures Alone(pend - us, n) == Alone(pend, n) - us
  {
  }

  lemma AloneWith(pend: Claims, m: Claims, n: NodeName)
    ensures Alone(pend + m, n) == Reserve(Alone(pend, n), n, m)
  {
    var both, reserved := Alone(pend + m, n), Reserve(Alone(pend, n), n, m);
    forall u
      ensures u in both <==> u in reserved
      ensures u in both && u in reserved ==> both[u] == reserved[u]
    {
      if u in reserved {
        assert reserved[u] == EntriesWith(Alone(pend, n), n, m, u);
      }
    }
  }

  function OnlyEffect(store: map<NodeName, NodeObject>, a: Allocations, p: Phase, n: NodeName): Effect {
    Effect(Only(store, n), a, p)
  }

  /** A step inside a node depends on, and does to the node, only what it would if there were no other nodes. */
  lemma ActsAlone(
      store: map<NodeName, NodeObject>, a: Allocations, n: NodeName, op: Op, p: Phase, ev: Event, e: Effect)
    requires Acts(store, a, n, op, p, ev, e)
    ensures Acts(Only(store, n), Alone(PendingOn(a, n), n), n, op, p, ev,
                 OnlyEffect(e.store, Alone(PendingOn(e.allocations, n), n), e.phase, n))
  {
    hide Acts, Only, OnlyEffect, Alone, PendingOn;
    if ev.SetOne? || ev.CallVisitor? || ev.Forget? || ev.DropPending? {
      PendingActsAlone(store, a, n, op, p, ev, e);
    } else {
      OtherActsAlone(store, a, n, op, p, ev, e);
    }
  }

  lemma PendingActsAlone(
      store: map<NodeName, NodeObject>, a: Allocations, n: NodeName, op: Op, p: Phase, ev: Event, e: Effect)
    requires Acts(store, a, n, op, p, ev, e)
    requires ev.SetOne? || ev.CallVisitor? || ev.Forget? || ev.DropPending?
    ensures Acts(Only(store, n), Alone(PendingOn(a, n), n), n, op, p, ev,
                 OnlyEffect(e.store, Alone(PendingOn(e.allocations, n), n), e.phase, n))
  {
    hide PendingOn, Alone, Reserve, Admit, PackedBy, Profile, Todo, NilDereference, NewClaims, Charge, Ledger;
    hide Committed, Released;
    var pend := PendingOn(a, n);
    PendingAlone(pend, n);
    match ev
    case SetOne(uid) =>
      PendingReserved(a, n, map[uid := p.left[uid]], n);
      AloneWith(pend, map[uid := p.left[uid]], n);
    case CallVisitor =>
      PendingRemoved(a, {p.uid}, n);
      AloneWithout(pend, {p.uid}, n);
    case Forget =>
      PendingRemoved(a, {op.uid}, n);
      AloneWithout(pend, {op.uid}, n);
    case DropPending =>
      PendingRemoved(a, {op.uid}, n);
      AloneWithout(pend, {op.uid}, n);
  }

  lemma OtherActsAlone(
      store: map<NodeName, NodeObject>, a: Allocations, n: NodeName, op: Op, p: Phase, ev: Event, e: Effect)
    requires Acts(store, a, n, op, p, ev, e)
    requires !ev.SetOne? && !ev.CallVisitor? && !ev.Forget? && !ev.DropPending?
    ensures Acts(Only(store, n), Alone(PendingOn(a, n), n), n, op, p, ev,
                 OnlyEffect(e.store, Alone(PendingOn(e.allocations, n), n), e.phase, n))
  {
    hide PendingOn, Alone, Reserve, Admit, PackedBy, Profile, Todo, NilDereference, NewClaims, Charge, Ledger;
    hide Committed, Released;
    PendingAlone(PendingOn(a, n), n);
  }

  /**
   A move that leaves an operation of thread `t` on `n` alone: a step of the operation
   itself, a step of another thread that removes no reservation pending on `n`, or a write
   of another node's plugin.
   */
  ghost predicate Harmless(w: World, m: Move, t: Tid, n: NodeName) {
    match m
    case ByThread(t', ev) =>
      if t' == t then !(ev.GetMutex? || ev.Lock? || ev.Unlock?)
      else forall u <- PendingOn(w.allocations, n) :: !Removes(w, m, u)
    case ByPlugin(k, _) => k != n
  }

  lemma ActsElsewhereKeep(
      store: map<NodeName, NodeObject>, a: Allocations, k: NodeName, op: Op, p: Phase, ev: Event, e: Effect,
      n: NodeName)
    requires Acts(store, a, k, op, p, ev, e) && k != n
    requires forall u <- PendingOn(a, n) ::
               && !(ev.Forget? && op == CommitOp(u)) && !(ev.DropPending? && op == ReleaseOp(u))
               && !(ev.CallVisitor? && p.Visiting? && p.uid == u && u in p.claims)
    ensures Only(e.store, n) == Only(store, n) && PendingOn(e.allocations, n) == PendingOn(a, n)
  {
    hide PendingOn, Reserve, Admit, PackedBy, Profile, Todo, NilDereference, NewClaims, Charge, Ledger, Committed,
      Released;
    var pend := PendingOn(a, n);
    match ev
    case SetOne(uid) =>
      PendingReserved(a, k, map[uid := p.left[uid]], n);
    case CallVisitor =>
      PendingRemoved(a, {p.uid}, n);
      NothingTaken(pend, p.uid);
    case Forget =>
      PendingRemoved(a, {op.uid}, n);
      NothingTaken(pend, op.uid);
    case DropPending =>
      PendingRemoved(a, {op.uid}, n);
      NothingTaken(pend, op.uid);
    case _ =>
  }

  lemma NothingTaken(pend: Claims, uid: Uid)
    ensures uid !in pend ==> pend - {uid} == pend
  {
  }

  lemma OthersKeepNode(w: World, m: Move, w': World, t: Tid, n: NodeName)
    requires WorldInv(w) && Makes(w, m, w') && Harmless(w, m, t, n) && !(m.ByThread? && m.t == t)
    requires t in w.threads && w.threads[t].Inside? && w.threads[t].node == n
    ensures Only(w'.store, n) == Only(w.store, n) && PendingOn(w'.allocations, n) == PendingOn(w.allocations, n)
  {
    hide Acts, NodesOk, PhasesOk, PendingOn, SameLedger, GoodBase, Base;
    if m.ByThread? && !(m.ev.GetMutex? || m.ev.Lock? || m.ev.Unlock?) {
      InsideMove(w, m.t, m.ev, w');
      var e :| ActsInside(w, m.t, m.ev, e, w');
      var th := w.threads[m.t];
      ApartFrom(w, t, m.t);
      forall u | u in PendingOn(w.allocations, n)
        ensures !(m.ev.Forget? && th.op == CommitOp(u)) && !(m.ev.DropPending? && th.op == ReleaseOp(u))
        ensures !(m.ev.CallVisitor? && th.phase.Visiting? && th.phase.uid == u && u in th.phase.claims)
      {
        assert !Removes(w, m, u);
      }
      ActsElsewhereKeep(w.store, w.allocations, th.node, th.op, th.phase, m.ev, e, n);
    }
  }

  /** What has happened on the node between two worlds is what the operation has done. */
  ghost predicate NodeProgress(w: World, n: NodeName, op: Op, w': World, p: Phase) {
    Progress(Only(w.store, n), Alone(PendingOn(w.allocations, n), n), n, op,
             Only(w'.store, n), Alone(PendingOn(w'.allocations, n), n), p)
  }

  lemma OwnStepOnNode(w0: World, w: World, t: Tid, ev: Event, w': World, n: NodeName, op: Op)
    requires WorldInv(w0) && t in w0.threads && w0.threads[t].Inside? && w0.threads[t].node == n
    requires w0.threads[t].op == op
    requires t in w.threads && w.threads[t].Inside? && w.threads[t].node == n && w.threads[t].op == op
    requires !(ev.GetMutex? || ev.Lock? || ev.Unlock?) && Makes(w, ByThread(t, ev), w')
    requires !w.threads[t].phase.Panicked? ==> NodeProgress(w0, n, op, w, w.threads[t].phase)
    ensures t in w'.threads && w'.threads[t].Inside? && w'.threads[t].node == n && w'.threads[t].op == op
    ensures w'.threads[t].phase.Panicked? || NodeProgress(w0, n, op, w', w'.threads[t].phase)
  {
    hide WorldInv, Makes, Acts, GoodClaims, GoodBatch, PendingOn, Alone, Progress, Ledger;
    InsideMove(w, t, ev, w');
    var e :| ActsInside(w, t, ev, e, w');
    var p := w.threads[t].phase;
    if p.Panicked? {
      PanickedIsStuck(w, t, ev, e, w');
    } else if !e.phase.Panicked? {
      StartsInOrder(w0, t, n, op);
      var store, pend := Only(w0.store, n), PendingOn(w0.allocations, n);
      PendingAlone(pend, n);
      ActsAlone(w.store, w.allocations, n, op, p, ev, e);
      ActsProgress(
        store, Alone(pend, n), n, op, Only(w.store, n), Alone(PendingOn(w.allocations, n), n), p, ev,
        OnlyEffect(e.store, Alone(PendingOn(e.allocations, n), n), e.phase, n));
    }
  }

  lemma {:induction false} HarmlessProgress(
      ws: seq<World>, ms: seq<Move>, i: nat, j: nat, t: Tid, n: NodeName, op: Op, id: MutexId)
    requires Trace(ws, ms) && i <= j < |ws| && WorldInv(ws[i])
    requires forall q :: i <= q < j ==> Harmless(ws[q], ms[q], t, n)
    requires t in ws[i].threads && ws[i].threads[t] == Inside(n, op, id, Entered)
    ensures WorldInv(ws[j]) && t in ws[j].threads && ws[j].threads[t].Inside?
    ensures ws[j].threads[t].node == n && ws[j].threads[t].op == op
    ensures ws[j].threads[t].phase.Panicked? || NodeProgress(ws[i], n, op, ws[j], ws[j].threads[t].phase)
    decreases j
  {
    hide WorldInv, Makes, PendingOn, Alone, Only;
    if i < j {
      hide NodeProgress;
      var w, m, w' := ws[j - 1], ms[j - 1], ws[j];
      HarmlessProgress(ws, ms, i, j - 1, t, n, op, id);
      MakesKeepsInv(w, m, w');
      if m.ByThread? && m.t == t {
        OwnStepOnNode(ws[i], w, t, m.ev, w', n, op);
      } else {
        OthersKeepThread(w, m, w', t);
        OthersKeepNode(w, m, w', t, n);
        SameNodeProgress(ws[i], n, op, w, w', w.threads[t].phase);
      }
    } else {
      BeginsOnNode(ws[i], n, op);
    }
  }

  lemma SameNodeProgress(w0: World, n: NodeName, op: Op, w: World, w': World, p: Phase)
    requires Only(w'.store, n) == Only(w.store, n) && PendingOn(w'.allocations, n) == PendingOn(w.allocations, n)
    ensures NodeProgress(w0, n, op, w', p) <==> NodeProgress(w0, n, op, w, p)
  {
    hide Progress;
  }

  lemma BeginsOnNode(w: World, n: NodeName, op: Op)
    ensures NodeProgress(w, n, op, w, Entered)
  {
  }

  /**
   Other operations may go on meanwhile, as long as none of them removes a reservation that
   is pending on the node.  Then what an operation has done to its node's object and to the
   reservations there, from entering to leaving, is what one atomic step of the cluster does.
   */
  lemma AmountsOnNode(ws: seq<World>, ms: seq<Move>, i: nat, j: nat, t: Tid, n: NodeName, op: Op, id: MutexId)
    requires Trace(ws, ms) && i <= j < |ws| && WorldInv(ws[i])
    requires forall q :: i <= q < j ==> Harmless(ws[q], ms[q], t, n)
    requires t in ws[i].threads && ws[i].threads[t] == Inside(n, op, id, Entered)
    requires t in ws[j].threads && ws[j].threads[t].Inside? && ws[j].threads[t].phase.Leaving?
    ensures Amounts(
              Only(ws[i].store, n), Alone(PendingOn(ws[i].allocations, n), n), n, op,
              Only(ws[j].store, n), Alone(PendingOn(ws[j].allocations, n), n))
  {
    hide WorldInv, Trace, Amounts, Overlaid, Swept, HalfRecorded, Harmless, Alone, Only, PendingOn;
    HarmlessProgress(ws, ms, i, j, t, n, op, id);
  }
}
