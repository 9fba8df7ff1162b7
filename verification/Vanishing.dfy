/**
 A reservation that vanishes between the check for it and its use: exactly when this
 happens, what becomes of the claim, and a run in which it does.
 */
module Vanishing {
  import opened Nas
  import opened Demand
  import opened Packing
  import opened Reservation
  import opened Cluster
  import opened Interleaving
  import opened HalfCpu

  /** Consecutive worlds and the moves between them. */
  ghost predicate Trace(ws: seq<World>, ms: seq<Move>): (trace: bool)
    ensures trace ==> |ws| == |ms| + 1
  {
    && |ws| == |ms| + 1
    && forall i :: 0 <= i < |ms| ==> Makes(ws[i], ms[i], ws[i + 1])
  }

  lemma {:induction false} TraceKeepsInv(ws: seq<World>, ms: seq<Move>, i: nat, j: nat)
    requires Trace(ws, ms) && i <= j < |ws| && WorldInv(ws[i])
    ensures WorldInv(ws[j])
    decreases j
  {
    hide WorldInv, Makes;
    if i < j {
      TraceKeepsInv(ws, ms, i, j - 1);
      MakesKeepsInv(ws[j - 1], ms[j - 1], ws[j]);
    }
  }

  // ----- What removes a reservation -----

  /**
   The moves that take the reservations of `u` out of the store: a commit's or a release's last
   step, or a visit that finds `u` committed.
   */
  ghost predicate Removes(w: World, m: Move, u: Uid) {
    && m.ByThread? && m.t in w.threads && w.threads[m.t].Inside?
    && var th := w.threads[m.t];
       || (m.ev.Forget? && th.op == CommitOp(u))
       || (m.ev.DropPending? && th.op == ReleaseOp(u))
       || (m.ev.CallVisitor? && th.phase.Visiting? && th.phase.uid == u && u in th.phase.claims)
  }

  /** A reservation survives a step of any thread or plugin exactly if the step is not one of these. */
  lemma ReservationInStep(w: World, m: Move, w': World, n: NodeName, u: Uid)
    requires Makes(w, m, w') && u in PendingOn(w.allocations, n)
    ensures u in PendingOn(w'.allocations, n) <==> !Removes(w, m, u)
  {
    hide Admit, PackedBy, NilDereference, Todo, Profile, Charge, DischargeListed;
    if m.ByThread? && !(m.ev.GetMutex? || m.ev.Lock? || m.ev.Unlock?) {
      var e :| ActsInside(w, m.t, m.ev, e, w');
      var th := w.threads[m.t];
      ActsOnReservation(w.store, w.allocations, th.node, th.op, th.phase, m.ev, e, n, u);
    }
  }

  lemma ActsOnReservation(
    store: map<NodeName, NodeObject>, a: Allocations, k: NodeName, op: Op, p: Phase, ev: Event, e: Effect,
    n: NodeName, u: Uid)
    requires Acts(store, a, k, op, p, ev, e) && u in PendingOn(a, n)
    ensures u !in PendingOn(e.allocations, n) <==>
              || (ev.Forget? && op == CommitOp(u))
              || (ev.DropPending? && op == ReleaseOp(u))
              || (ev.CallVisitor? && p.Visiting? && p.uid == u && u in p.claims)
  {
    hide Admit, PackedBy, NilDereference, Todo, Profile, Charge, DischargeListed, Ledger;
    match ev
    case SetOne(uid) => PendingReserved(a, k, map[uid := p.left[uid]], n);
    case CallVisitor => PendingRemoved(a, {p.uid}, n);
    case Forget => PendingRemoved(a, {op.uid}, n);
    case DropPending => PendingRemoved(a, {op.uid}, n);
    case _ =>
  }

  lemma ApartFrom(w: World, t: Tid, t': Tid)
    requires MutexesOk(w) && t != t'
    requires t in w.threads && t' in w.threads && w.threads[t].Inside? && w.threads[t'].Inside?
    ensures w.threads[t].node != w.threads[t'].node
  {
  }

  /** While a thread is inside its node, no other thread makes reservations there. */
  lemma GoneStaysGone(w: World, m: Move, w': World, t: Tid, n: NodeName, u: Uid)
    requires WorldInv(w) && Makes(w, m, w') && !(m.ByThread? && m.t == t)
    requires t in w.threads && w.threads[t].Inside? && w.threads[t].node == n && u !in PendingOn(w.allocations, n)
    ensures u !in PendingOn(w'.allocations, n)
  {
    hide Admit, PackedBy, NilDereference, Todo, Profile, Charge, DischargeListed, NodesOk, PhasesOk;
    if m.ByThread? && !(m.ev.GetMutex? || m.ev.Lock? || m.ev.Unlock?) {
      var e :| ActsInside(w, m.t, m.ev, e, w');
      var th := w.threads[m.t];
      ApartFrom(w, t, m.t);
      ActsAddElsewhere(w.store, w.allocations, th.node, th.op, th.phase, m.ev, e, n, u);
    }
  }

  lemma ActsAddElsewhere(
    store: map<NodeName, NodeObject>, a: Allocations, k: NodeName, op: Op, p: Phase, ev: Event, e: Effect,
    n: NodeName, u: Uid)
    requires Acts(store, a, k, op, p, ev, e) && k != n && u !in PendingOn(a, n)
    ensures u !in PendingOn(e.allocations, n)
  {
    hide Admit, PackedBy, NilDereference, Todo, Profile, Charge, DischargeListed, Ledger;
    match ev
    case SetOne(uid) => PendingReserved(a, k, map[uid := p.left[uid]], n);
    case CallVisitor => PendingRemoved(a, {p.uid}, n);
    case Forget => PendingRemoved(a, {op.uid}, n);
    case DropPending => PendingRemoved(a, {op.uid}, n);
    case _ =>
  }

  /** Thread `t` makes none of the moves `i`..`j`. */
  predicate Waits(ms: seq<Move>, i: nat, j: nat, t: Tid)
    requires j <= |ms|
  {
    forall q :: i <= q < j ==> !(ms[q].ByThread? && ms[q].t == t)
  }

  ghost predicate RemovedBetween(ws: seq<World>, ms: seq<Move>, i: nat, j: nat, u: Uid)
    requires j <= |ms| < |ws|
  {
    exists q :: i <= q < j && Removes(ws[q], ms[q], u)
  }

  lemma OthersKeepThread(w: World, m: Move, w': World, t: Tid)
    requires Makes(w, m, w') && t in w.threads && !(m.ByThread? && m.t == t)
    ensures t in w'.threads && w'.threads[t] == w.threads[t]
  {
    hide Acts, GoodBatch, GoodBase, Base, SameLedger, Ledger;
    if m.ByThread? && !(m.ev.GetMutex? || m.ev.Lock? || m.ev.Unlock?) {
      var e :| ActsInside(w, m.t, m.ev, e, w');
    }
  }

  /**
   While a thread waits inside `n`, a reservation there survives exactly if no other
   operation forgets, drops or sweeps away its claim.
   */
  lemma {:induction false} ReservationBetween(
      ws: seq<World>, ms: seq<Move>, i: nat, j: nat, t: Tid, n: NodeName, u: Uid)
    requires Trace(ws, ms) && i <= j < |ws| && WorldInv(ws[i]) && Waits(ms, i, j, t)
    requires t in ws[i].threads && ws[i].threads[t].Inside? && ws[i].threads[t].node == n
    requires u in PendingOn(ws[i].allocations, n)
    ensures WorldInv(ws[j]) && t in ws[j].threads && ws[j].threads[t] == ws[i].threads[t]
    ensures u in PendingOn(ws[j].allocations, n) <==> !RemovedBetween(ws, ms, i, j, u)
    decreases j
  {
    hide WorldInv, Makes, Removes, PendingOn;
    if i < j {
      var w, m, w' := ws[j - 1], ms[j - 1], ws[j];
      ReservationBetween(ws, ms, i, j - 1, t, n, u);
      MakesKeepsInv(w, m, w');
      OthersKeepThread(w, m, w', t);
      assert RemovedBetween(ws, ms, i, j, u) <==> RemovedBetween(ws, ms, i, j - 1, u) || Removes(w, m, u);
      if u in PendingOn(w.allocations, n) {
        ReservationInStep(w, m, w', n, u);
      } else {
        GoneStaysGone(w, m, w', t, n, u);
      }
    }
  }

  lemma {:induction false} ThreadWaits(ws: seq<World>, ms: seq<Move>, i: nat, j: nat, t: Tid)
    requires Trace(ws, ms) && i <= j < |ws| && Waits(ms, i, j, t) && t in ws[i].threads
    ensures t in ws[j].threads && ws[j].threads[t] == ws[i].threads[t]
    decreases j
  {
    hide Makes;
    if i < j {
      ThreadWaits(ws, ms, i, j - 1, t);
      OthersKeepThread(ws[j - 1], ms[j - 1], ws[j], t);
    }
  }

  lemma Checks(w: World, w': World, t: Tid, u: Uid)
    requires Makes(w, ByThread(t, CheckExists), w') && w.threads[t].op == CommitOp(u)
    ensures w.threads[t].Inside? && u in PendingOn(w'.allocations, w.threads[t].node)
    ensures t in w'.threads && w'.threads[t].Inside? && w'.threads[t].node == w.threads[t].node
    ensures w'.threads[t].op == CommitOp(u)
  {
  }

  lemma Takes(w: World, w': World, t: Tid, u: Uid)
    requires WorldInv(w) && Makes(w, ByThread(t, TakeReservation), w') && w.threads[t].op == CommitOp(u)
    ensures w.threads[t].Inside? && t in w'.threads && w'.threads[t].Inside?
    ensures w'.threads[t].node == w.threads[t].node && w'.threads[t].op == CommitOp(u)
    ensures w'.threads[t].phase.Committing?
    ensures w'.threads[t].phase.a.NoRtCpu? <==> u !in PendingOn(w.allocations, w.threads[t].node)
  {
    hide NodeOk, PhasesOk, MutexesOk;
    NoPendingOutside(w, w.threads[t].node);
  }

  lemma WritesTaken(w: World, w': World, t: Tid, u: Uid, write: WriteOutcome)
    requires WorldInv(w) && Makes(w, ByThread(t, WriteCommit(write)), w') && write != Rejected
    requires w.threads[t].op == CommitOp(u) && w.threads[t].Inside? && w.threads[t].phase.Committing?
    ensures var n := w.threads[t].node;
            && n in w.store && n in w'.store && u in w'.store[n].spec.claims
            && w'.store[n].spec.claims[u] == w.threads[t].phase.a
            && (w.threads[t].phase.a.NoRtCpu? ==> w'.store[n].spec.util == Ledger(w.store[n].spec))
  {
    hide NodesOk, MutexesOk, CommittingOk;
    PhaseAt(w, t);
  }

  /**
   A commit checks for the claim's reservation, takes it, and writes, with moves of other
   threads and plugins in between.  It commits the claim without CPUs if and only if the
   reservation was removed after the check and before it was taken; then nothing is charged.
   */
  lemma VanishedExactlyIf(
      ws: seq<World>, ms: seq<Move>, i: nat, j: nat, l: nat, t: Tid, n: NodeName, u: Uid, write: WriteOutcome)
    requires Trace(ws, ms) && i < j < l < |ms| && WorldInv(ws[i])
    requires ms[i] == ByThread(t, CheckExists) && ms[j] == ByThread(t, TakeReservation)
    requires ms[l] == ByThread(t, WriteCommit(write))
    requires Waits(ms, i + 1, j, t) && Waits(ms, j + 1, l, t) && write != Rejected
    requires t in ws[i].threads && !ws[i].threads[t].Idle? && ws[i].threads[t].node == n
    requires ws[i].threads[t].op == CommitOp(u)
    ensures n in ws[l].store && n in ws[l + 1].store && u in ws[l + 1].store[n].spec.claims
    ensures ws[l + 1].store[n].spec.claims[u].NoRtCpu? <==> RemovedBetween(ws, ms, i + 1, j, u)
    ensures RemovedBetween(ws, ms, i + 1, j, u) ==> ws[l + 1].store[n].spec.util == Ledger(ws[l].store[n].spec)
  {
    hide WorldInv, Makes, RemovedBetween, PendingOn, Ledger;
    TraceKeepsInv(ws, ms, i, i + 1);
    Checks(ws[i], ws[i + 1], t, u);
    ReservationBetween(ws, ms, i + 1, j, t, n, u);
    Takes(ws[j], ws[j + 1], t, u);
    ThreadWaits(ws, ms, j + 1, l, t);
    TraceKeepsInv(ws, ms, j, l);
    WritesTaken(ws[l], ws[l + 1], t, u, write);
  }

  // ----- What becomes of the claim -----

  ghost predicate WithoutCpus(w: World, n: NodeName, u: Uid) {
    n in w.store && u in w.store[n].spec.claims && w.store[n].spec.claims[u].NoRtCpu?
  }

  lemma StaysWithoutCpus(w: World, m: Move, w': World, n: NodeName, u: Uid)
    requires WorldInv(w) && Makes(w, m, w') && WithoutCpus(w, n, u)
    ensures WithoutCpus(w', n, u)
  {
    hide Acts, PhaseOk, NodesOk, MutexesOk;
    if m.ByThread? && !(m.ev.GetMutex? || m.ev.Lock? || m.ev.Unlock?) {
      var e :| ActsInside(w, m.t, m.ev, e, w');
      var th := w.threads[m.t];
      PhaseAt(w, m.t);
      ActsWithoutCpus(w.store, w.allocations, th.node, th.op, th.phase, m.ev, e, n, u);
    }
  }

  lemma ActsWithoutCpus(
    store: map<NodeName, NodeObject>, a: Allocations, k: NodeName, op: Op, p: Phase, ev: Event, e: Effect,
    n: NodeName, u: Uid)
    requires PhaseOk(store, k, PendingOn(a, k), op, p) && Acts(store, a, k, op, p, ev, e)
    requires n in store && u in store[n].spec.claims && store[n].spec.claims[u].NoRtCpu?
    ensures n in e.store && u in e.store[n].spec.claims && e.store[n].spec.claims[u].NoRtCpu?
  {
    hide Admit, PackedBy, NilDereference, Todo, Profile, Charge, DischargeListed, OverlayOk, VisitingOk,
      RecordingOk, GoodBatch, PendingOn, Base, GoodCpuset, Fits;
    match ev
    case WriteCommit(_) =>
    case WriteRelease(_) =>
    case _ =>
  }

  lemma NotFetchedForRelease(w: World, n: NodeName, u: Uid, p: Phase, e: Effect)
    requires WithoutCpus(w, n, u)
    ensures !Acts(w.store, w.allocations, n, ReleaseOp(u), p, FetchForRelease, e)
  {
  }

  /** A claim committed without CPUs stays so for ever: no release of it gets past its type check. */
  lemma {:induction false} NeverReleased(ws: seq<World>, ms: seq<Move>, i: nat, j: nat, n: NodeName, u: Uid)
    requires Trace(ws, ms) && i <= j < |ws| && WorldInv(ws[i]) && WithoutCpus(ws[i], n, u)
    ensures WorldInv(ws[j]) && WithoutCpus(ws[j], n, u)
    ensures forall p, e :: !Acts(ws[j].store, ws[j].allocations, n, ReleaseOp(u), p, FetchForRelease, e)
    decreases j
  {
    hide WorldInv, Makes, WithoutCpus, Acts;
    if i < j {
      NeverReleased(ws, ms, i, j - 1, n, u);
      MakesKeepsInv(ws[j - 1], ms[j - 1], ws[j]);
      StaysWithoutCpus(ws[j - 1], ms[j - 1], ws[j], n, u);
    }
    forall p, e
      ensures !Acts(ws[j].store, ws[j].allocations, n, ReleaseOp(u), p, FetchForRelease, e)
    {
      NotFetchedForRelease(ws[j], n, u, p, e);
    }
  }

  /** Packing the batch of a probe gets to a claim that is committed without CPUs. */
  ghost predicate GetsToIt(w: World, n: NodeName, p: Phase, reqs: seq<Request>)
    requires p.Overlaying?
  {
    exists r :: 0 <= r < |reqs| && GetsTo(w, n, p, reqs, r)
  }

  ghost predicate GetsTo(w: World, n: NodeName, p: Phase, reqs: seq<Request>, r: nat)
    requires p.Overlaying? && r < |reqs|
  {
    WithoutCpus(w, n, reqs[r].uid) && Admit(Profile(p.util), Asks(Todo(reqs[..r], p.claims))).Some?
  }

  /** A probe's overlay has a claim without CPUs exactly if it is committed without CPUs. */
  lemma OverlaidWithoutCpus(w: World, t: Tid, u: Uid)
    requires WorldInv(w) && t in w.threads && w.threads[t].Inside? && w.threads[t].phase.Overlaying?
    ensures var th := w.threads[t];
            u in th.phase.claims && th.phase.claims[u].NoRtCpu? <==> WithoutCpus(w, th.node, u)
  {
    hide MutexesOk, NodesOk, GoodClaims, Fits, AddLoad;
    PhaseAt(w, t);
  }

  /**
   In every reachable world, a probe dereferences nil if and only if some claim of its batch
   is committed on the node without CPUs and the claims before it in the batch fit.
   */
  lemma PanicsExactlyIf(ws: seq<World>, ms: seq<Move>, i: nat, t: Tid, choices: seq<seq<CpuId>>, e: Effect)
    requires Trace(ws, ms) && Start(ws[0]) && i < |ws|
    requires t in ws[i].threads && ws[i].threads[t].Inside? && ws[i].threads[t].op.ProbeOp?
    requires var th := ws[i].threads[t];
             Acts(ws[i].store, ws[i].allocations, th.node, th.op, th.phase, Pack(choices), e)
    ensures e.phase.Panicked?
       <==> GetsToIt(ws[i], ws[i].threads[t].node, ws[i].threads[t].phase, ws[i].threads[t].op.reqs)
  {
    hide WorldInv, Makes, WithoutCpus, Admit, Profile, Todo, PackedBy, PendingOn;
    var th := ws[i].threads[t];
    StartInv(ws[0]);
    TraceKeepsInv(ws, ms, 0, i);
    forall r | 0 <= r < |th.op.reqs|
      ensures DereferencesAt(th.phase.claims, th.phase.util, th.op.reqs, r)
         <==> GetsTo(ws[i], th.node, th.phase, th.op.reqs, r)
    {
      OverlaidWithoutCpus(ws[i], t, th.op.reqs[r].uid);
    }
  }

  lemma StartInv(w: World)
    requires Start(w)
    ensures WorldInv(w)
  {
  }

  // ----- A run in which it happens -----

  lemma Extended(ws: seq<World>, ms: seq<Move>, m: Move, w: World)
    requires Trace(ws, ms) && Makes(ws[|ms|], m, w)
    ensures Trace(ws + [w], ms + [m])
  {
    hide Makes;
  }

  /** `w` after thread `t` got into node `n`, and the effect of what it did there. */
  function At(w: World, t: Tid, n: NodeName, op: Op, id: MutexId, e: Effect): World {
    World(e.store, e.allocations, w.submutex[n := id], w.owner[id := t], w.threads[t := Inside(n, op, id, e.phase)])
  }

  /** `w` after an operation that has left node `n`. */
  function Done(w: World, n: NodeName, id: MutexId, e: Effect): World {
    World(e.store, e.allocations, w.submutex[n := id], w.owner, w.threads)
  }

  /** Thread `t` gets and takes the node's mutex `id`, which nobody holds. */
  lemma Enters(ws: seq<World>, ms: seq<Move>, w: World, t: Tid, n: NodeName, op: Op, id: MutexId)
    returns (ws': seq<World>, ms': seq<Move>)
    requires Trace(ws, ms) && ws[|ms|] == w
    requires t in w.threads && w.threads[t].Idle? && id !in w.owner && (op.ProbeOp? ==> GoodBatch(op.reqs))
    requires if n in w.submutex then id == w.submutex[n] else id !in w.submutex.Values
    ensures Trace(ws', ms') && ws <= ws' && ms' == ms + [ByThread(t, GetMutex(n, op, id)), ByThread(t, Lock)]
    ensures ws'[|ms'|] == At(w, t, n, op, id, Effect(w.store, w.allocations, Entered))
  {
    hide Trace, GoodBatch;
    var w1 := w.(submutex := w.submutex[n := id], threads := w.threads[t := HasMutex(n, op, id)]);
    var w2 := At(w, t, n, op, id, Effect(w.store, w.allocations, Entered));
    assert Makes(w, ByThread(t, GetMutex(n, op, id)), w1);
    Extended(ws, ms, ByThread(t, GetMutex(n, op, id)), w1);
    ws', ms' := ws + [w1], ms + [ByThread(t, GetMutex(n, op, id))];
    assert w2.threads == w1.threads[t := Inside(n, op, id, Entered)];
    assert Makes(w1, ByThread(t, Lock), w2);
    Extended(ws', ms', ByThread(t, Lock), w2);
    ws', ms' := ws' + [w2], ms' + [ByThread(t, Lock)];
  }

  /** One more step of a thread inside its node. */
  lemma Inner(
      ws: seq<World>, ms: seq<Move>, w: World, t: Tid, n: NodeName, op: Op, id: MutexId, e: Effect, ev: Event,
      e': Effect)
    returns (ws': seq<World>, ms': seq<Move>)
    requires Trace(ws, ms) && ws[|ms|] == At(w, t, n, op, id, e)
    requires !(ev.GetMutex? || ev.Lock? || ev.Unlock?) && Acts(e.store, e.allocations, n, op, e.phase, ev, e')
    ensures Trace(ws', ms') && ws <= ws' && ms' == ms + [ByThread(t, ev)]
    ensures ws'[|ms'|] == At(w, t, n, op, id, e')
  {
    hide Acts, Trace;
    var w1, w2 := ws[|ms|], At(w, t, n, op, id, e');
    assert w2.threads == w1.threads[t := w1.threads[t].(phase := e'.phase)];
    assert ActsInside(w1, t, ev, e', w2);
    assert Makes(w1, ByThread(t, ev), w2);
    Extended(ws, ms, ByThread(t, ev), w2);
    ws', ms' := ws + [w2], ms + [ByThread(t, ev)];
  }

  /** Thread `t` unlocks its node again. */
  lemma Leaves(ws: seq<World>, ms: seq<Move>, w: World, t: Tid, n: NodeName, op: Op, id: MutexId, e: Effect)
    returns (ws': seq<World>, ms': seq<Move>)
    requires Trace(ws, ms) && ws[|ms|] == At(w, t, n, op, id, e) && e.phase.Leaving?
    requires t in w.threads && w.threads[t].Idle? && id !in w.owner
    ensures Trace(ws', ms') && ws <= ws' && ms' == ms + [ByThread(t, Unlock)]
    ensures ws'[|ms'|] == Done(w, n, id, e)
  {
    hide Trace;
    var w1, w2 := ws[|ms|], Done(w, n, id, e);
    assert w2.owner == w1.owner - {id} && w2.threads == w1.threads[t := Idle];
    assert Makes(w1, ByThread(t, Unlock), w2);
    Extended(ws, ms, ByThread(t, Unlock), w2);
    ws', ms' := ws + [w2], ms + [ByThread(t, Unlock)];
  }

  const BATCH := ProbeOp([HALF], "pod")
  const COMMIT := CommitOp("claim")
  const RESERVED: Claims := map["claim" := HALFCPU]

  lemma NothingNil()
    ensures !NilDereference(map[], IDLE, [HALF])
    ensures RESERVED["claim"] == HALFCPU && map["claim" := RESERVED["claim"]] == RESERVED
    ensures RESERVED - {"claim"} == map[]
  {
  }

  lemma ProbeFetches(store: map<NodeName, NodeObject>, a: Allocations, n: NodeName)
    requires n in store && store[n] == CPU0
    ensures Acts(store, a, n, BATCH, Entered, FetchForProbe, Effect(store, a, Overlaying(CPU0.spec, map[], IDLE, {})))
  {
    hide Ledger;
    IdleNode();
  }

  lemma ProbePacks(store: map<NodeName, NodeObject>, a: Allocations, n: NodeName)
    requires PendingOn(a, n) == map[]
    ensures Acts(
              store, a, n, BATCH, Overlaying(CPU0.spec, map[], IDLE, {}), Pack([[0]]),
              Effect(store, a, Recording(RESERVED)))
  {
    hide PendingOn, NilDereference, Admit, Profile, PackedBy, Todo, NewClaims, After;
    HalfPacked();
    HalfClaim();
    PackingRefined(IDLE, Asks([HALF]), [[0]]);
    NothingNil();
  }

  lemma ProbeSets(store: map<NodeName, NodeObject>, a: Allocations, n: NodeName)
    ensures Acts(
              store, a, n, BATCH, Recording(RESERVED), SetOne("claim"),
              Effect(store, Reserve(a, n, RESERVED), Recording(map[])))
  {
    hide Reserve;
    NothingNil();
  }

  /** A probe of the claim on a node where nothing is reserved, undisturbed. */
  lemma ProbeAlone(ws: seq<World>, ms: seq<Move>, w: World, t: Tid, n: NodeName, id: MutexId)
    returns (ws': seq<World>, ms': seq<Move>)
    requires Trace(ws, ms) && ws[|ms|] == w && t in w.threads && w.threads[t].Idle?
    requires n in w.store && w.store[n] == CPU0 && PendingOn(w.allocations, n) == map[]
    requires n !in w.submutex && id !in w.submutex.Values && id !in w.owner
    ensures Trace(ws', ms') && ws <= ws' && ms <= ms'
    ensures ws'[|ms'|] == Done(w, n, id, Effect(w.store, Reserve(w.allocations, n, RESERVED), Leaving))
  {
    hide Trace, PendingOn, Reserve, Acts, At, Done, GoodBatch;
    assert GoodBatch([HALF]) by {
      GoodHalf();
    }
    var store, a := w.store, w.allocations;
    var e0, e1 := Effect(store, a, Entered), Effect(store, a, Overlaying(CPU0.spec, map[], IDLE, {}));
    var e2, e3 := Effect(store, a, Recording(RESERVED)), Effect(store, Reserve(a, n, RESERVED), Recording(map[]));
    var e4 := Effect(store, Reserve(a, n, RESERVED), Leaving);
    ProbeFetches(store, a, n);
    ProbePacks(store, a, n);
    ProbeSets(store, a, n);
    Finishes(store, Reserve(a, n, RESERVED), n);
    ws', ms' := Enters(ws, ms, w, t, n, BATCH, id);
    ws', ms' := Inner(ws', ms', w, t, n, BATCH, id, e0, FetchForProbe, e1);
    ws', ms' := Inner(ws', ms', w, t, n, BATCH, id, e1, Pack([[0]]), e2);
    ws', ms' := Inner(ws', ms', w, t, n, BATCH, id, e2, SetOne("claim"), e3);
    ws', ms' := Inner(ws', ms', w, t, n, BATCH, id, e3, FinishRecording, e4);
    ws', ms' := Leaves(ws', ms', w, t, n, BATCH, id, e4);
  }

  lemma GoodHalf()
    ensures GoodBatch([HALF])
  {
  }

  lemma Finishes(store: map<NodeName, NodeObject>, a: Allocations, n: NodeName)
    ensures Acts(store, a, n, BATCH, Recording(map[]), FinishRecording, Effect(store, a, Leaving))
  {
  }

  lemma CommitFetches(store: map<NodeName, NodeObject>, a: Allocations, n: NodeName)
    requires n in store && store[n] == CPU0
    ensures Acts(store, a, n, COMMIT, Entered, FetchForCommit, Effect(store, a, Fetched(CPU0.spec)))
  {
  }

  lemma CommitChecks(store: map<NodeName, NodeObject>, a: Allocations, n: NodeName)
    requires PendingOn(a, n) == RESERVED
    ensures Acts(store, a, n, COMMIT, Fetched(CPU0.spec), CheckExists, Effect(store, a, Checked(CPU0.spec)))
  {
    hide PendingOn;
  }

  lemma CommitTakes(store: map<NodeName, NodeObject>, a: Allocations, n: NodeName, entry: AllocatedCpuset)
    requires PendingOn(a, n) == (if entry.RtCpu? then RESERVED else map[]) && (entry.RtCpu? ==> entry == HALFCPU)
    ensures Acts(
              store, a, n, COMMIT, Checked(CPU0.spec), TakeReservation,
              Effect(store, a, Committing(CPU0.spec, entry)))
  {
    hide PendingOn;
    NothingNil();
  }

  lemma CommitStores(store: map<NodeName, NodeObject>, a: Allocations, n: NodeName, entry: AllocatedCpuset)
    requires n in store && store[n] == CPU0
    ensures var store' := store[n := CPU0.(spec := Committed(CPU0.spec, "claim", entry))];
            Acts(store, a, n, COMMIT, Committing(CPU0.spec, entry), WriteCommit(Applied), Effect(store', a, Forgetting))
  {
    hide Committed;
  }

  lemma CommitForgets(store: map<NodeName, NodeObject>, a: Allocations, n: NodeName)
    ensures Acts(store, a, n, COMMIT, Forgetting, Forget, Effect(store, a - {"claim"}, Leaving))
  {
  }

  /** From the move `k` on, only thread `t` moves. */
  predicate OnlyBy(ms: seq<Move>, k: nat, t: Tid) {
    k <= |ms| && forall q :: k <= q < |ms| ==> ms[q].ByThread? && ms[q].t == t
  }

  lemma OnlyByMore(ms: seq<Move>, k: nat, t: Tid, more: seq<Move>)
    requires OnlyBy(ms, k, t) && forall m <- more :: m.ByThread? && m.t == t
    ensures OnlyBy(ms + more, k, t)
  {
  }

  /** A whole commit, undisturbed. */
  lemma CommitAlone(ws: seq<World>, ms: seq<Move>, w: World, t: Tid, n: NodeName, id: MutexId)
    returns (ws': seq<World>, ms': seq<Move>)
    requires Trace(ws, ms) && ws[|ms|] == w && t in w.threads && w.threads[t].Idle?
    requires n in w.store && w.store[n] == CPU0 && PendingOn(w.allocations, n) == RESERVED
    requires n in w.submutex && w.submutex[n] == id && id !in w.owner
    ensures Trace(ws', ms') && ws <= ws' && ms <= ms'
    ensures OnlyBy(ms', |ms|, t)
    ensures ws'[|ms'|]
            == Done(w, n, id, Effect(w.store[n := CPU0.(spec := Committed(CPU0.spec, "claim", HALFCPU))],
                                     w.allocations - {"claim"}, Leaving))
  {
    hide Trace, PendingOn, Acts, At, Done;
    var store, a := w.store, w.allocations;
    var store' := store[n := CPU0.(spec := Committed(CPU0.spec, "claim", HALFCPU))];
    var e0, e1 := Effect(store, a, Entered), Effect(store, a, Fetched(CPU0.spec));
    var e2 := Effect(store, a, Checked(CPU0.spec));
    var e3, e4 := Effect(store, a, Committing(CPU0.spec, HALFCPU)), Effect(store', a, Forgetting);
    var e5 := Effect(store', a - {"claim"}, Leaving);
    CommitFetches(store, a, n);
    CommitChecks(store, a, n);
    CommitTakes(store, a, n, HALFCPU);
    CommitStores(store, a, n, HALFCPU);
    CommitForgets(store', a, n);
    hide OnlyBy;
    assert OnlyBy(ms, |ms|, t) by {
      NoneYet(ms, t);
    }
    ws', ms' := Enters(ws, ms, w, t, n, COMMIT, id);
    OnlyByMore(ms, |ms|, t, [ByThread(t, GetMutex(n, COMMIT, id)), ByThread(t, Lock)]);
    ws', ms' := Mine(ws', ms', w, t, n, id, e0, FetchForCommit, e1, |ms|);
    ws', ms' := Mine(ws', ms', w, t, n, id, e1, CheckExists, e2, |ms|);
    ws', ms' := Mine(ws', ms', w, t, n, id, e2, TakeReservation, e3, |ms|);
    ws', ms' := Mine(ws', ms', w, t, n, id, e3, WriteCommit(Applied), e4, |ms|);
    ws', ms' := Mine(ws', ms', w, t, n, id, e4, Forget, e5, |ms|);
    OnlyByMore(ms', |ms|, t, [ByThread(t, Unlock)]);
    ws', ms' := Leaves(ws', ms', w, t, n, COMMIT, id, e5);
  }

  lemma NoneYet(ms: seq<Move>, t: Tid)
    ensures OnlyBy(ms, |ms|, t)
  {
  }

  lemma Mine(
      ws: seq<World>, ms: seq<Move>, w: World, t: Tid, n: NodeName, id: MutexId, e: Effect, ev: Event,
      e': Effect, k: nat)
    returns (ws': seq<World>, ms': seq<Move>)
    requires Trace(ws, ms) && ws[|ms|] == At(w, t, n, COMMIT, id, e) && OnlyBy(ms, k, t)
    requires !(ev.GetMutex? || ev.Lock? || ev.Unlock?) && Acts(e.store, e.allocations, n, COMMIT, e.phase, ev, e')
    ensures Trace(ws', ms') && ws <= ws' && ms <= ms' && OnlyBy(ms', k, t)
    ensures ws'[|ms'|] == At(w, t, n, COMMIT, id, e')
  {
    hide Trace, Acts, At, OnlyBy;
    ws', ms' := Inner(ws, ms, w, t, n, COMMIT, id, e, ev, e');
    OnlyByMore(ms, k, t, [ByThread(t, ev)]);
  }

  /** Two idle threads, and the claim reserved on both of two nodes. */
  lemma ReservedTwice() returns (ws: seq<World>, ms: seq<Move>)
    ensures Trace(ws, ms) && Start(ws[0])
    ensures var w := ws[|ms|];
            && w.store == map["n" := CPU0, "m" := CPU0] && w.submutex == map["n" := 1, "m" := 2] && w.owner == map[]
            && w.threads == map[1 := Idle, 2 := Idle]
            && PendingOn(w.allocations, "n") == RESERVED && PendingOn(w.allocations, "m") == RESERVED
  {
    hide PendingOn, Reserve, GoodBase;
    var threads: map<Tid, Thread> := map[1 := Idle, 2 := Idle];
    var w0 := World(map[], map[], map[], map[], threads);
    var w1 := w0.(store := map["n" := CPU0]);
    var w2 := w0.(store := map["n" := CPU0, "m" := CPU0]);
    GoodIdle();
    assert Makes(w0, ByPlugin("n", CPU0), w1);
    assert Makes(w1, ByPlugin("m", CPU0), w2);
    ws, ms := [w0, w1, w2], [ByPlugin("n", CPU0), ByPlugin("m", CPU0)];
    assert Trace(ws, ms);
    hide Trace, Makes;
    NothingPending("n");
    NothingPending("m");
    var a := Reserve(map[], "n", RESERVED);
    PendingReserved(map[], "n", RESERVED, "n");
    PendingReserved(map[], "n", RESERVED, "m");
    PendingReserved(a, "m", RESERVED, "n");
    PendingReserved(a, "m", RESERVED, "m");
    assert map[] + RESERVED == RESERVED;
    ws, ms := ProbeAlone(ws, ms, w2, 1, "n", 1);
    ws, ms := ProbeAlone(ws, ms, Done(w2, "n", 1, Effect(w2.store, a, Leaving)), 1, "m", 2);
  }

  lemma NothingPending(n: NodeName)
    ensures PendingOn(map[], n) == map[]
  {
  }

  lemma GoodIdle()
    ensures GoodBase(Base(CPU0.spec))
  {
    IdleNode();
  }

  /** The run up to the check of thread 1 on the first node. */
  lemma CheckedRun() returns (ws: seq<World>, ms: seq<Move>, w: World)
    ensures Trace(ws, ms) && Start(ws[0]) && ms != [] && ms[|ms| - 1] == ByThread(1, CheckExists)
    ensures w.store == map["n" := CPU0, "m" := CPU0] && w.submutex == map["n" := 1, "m" := 2] && w.owner == map[]
    ensures w.threads == map[1 := Idle, 2 := Idle]
    ensures PendingOn(w.allocations, "n") == RESERVED && PendingOn(w.allocations, "m") == RESERVED
    ensures ws[|ms|] == At(w, 1, "n", COMMIT, 1, Effect(w.store, w.allocations, Checked(CPU0.spec)))
    ensures ws[|ms| - 1] == At(w, 1, "n", COMMIT, 1, Effect(w.store, w.allocations, Fetched(CPU0.spec)))
  {
    hide Trace, PendingOn, Acts, At, Start;
    ws, ms := ReservedTwice();
    w := ws[|ms|];
    var store, a := w.store, w.allocations;
    var e0, e1 := Effect(store, a, Entered), Effect(store, a, Fetched(CPU0.spec));
    var e2 := Effect(store, a, Checked(CPU0.spec));
    CommitFetches(store, a, "n");
    CommitChecks(store, a, "n");
    ws, ms := Enters(ws, ms, w, 1, "n", COMMIT, 1);
    ws, ms := Inner(ws, ms, w, 1, "n", COMMIT, 1, e0, FetchForCommit, e1);
    ws, ms := Inner(ws, ms, w, 1, "n", COMMIT, 1, e1, CheckExists, e2);
  }

  function LostCommit(store: map<NodeName, NodeObject>): map<NodeName, NodeObject> {
    store["n" := CPU0.(spec := Committed(CPU0.spec, "claim", NoRtCpu))]
  }

  /** The rest of thread 1's commit, with the reservation gone. */
  lemma TakesNothing(ws: seq<World>, ms: seq<Move>, v: World, store: map<NodeName, NodeObject>, a: Allocations)
    returns (ws': seq<World>, ms': seq<Move>)
    requires Trace(ws, ms) && ws[|ms|] == At(v, 1, "n", COMMIT, 1, Effect(store, a, Checked(CPU0.spec)))
    requires "n" in store && store["n"] == CPU0 && PendingOn(a, "n") == map[]
    ensures Trace(ws', ms') && ws <= ws'
    ensures ms' == ms + [ByThread(1, TakeReservation), ByThread(1, WriteCommit(Applied))]
    ensures ws'[|ms'|] == At(v, 1, "n", COMMIT, 1, Effect(LostCommit(store), a, Forgetting))
  {
    hide Trace, PendingOn, Acts, At, Committed;
    var e3, e4 := Effect(store, a, Checked(CPU0.spec)), Effect(store, a, Committing(CPU0.spec, NoRtCpu));
    CommitTakes(store, a, "n", NoRtCpu);
    CommitStores(store, a, "n", NoRtCpu);
    ws', ms' := Inner(ws, ms, v, 1, "n", COMMIT, 1, e3, TakeReservation, e4);
    ws', ms' := Inner(
      ws', ms', v, 1, "n", COMMIT, 1, e4, WriteCommit(Applied), Effect(LostCommit(store), a, Forgetting));
  }

  /** Thread 2's commit, while thread 1 waits where it has checked. */
  lemma OtherCommits(ws: seq<World>, ms: seq<Move>, w: World) returns (ws': seq<World>, ms': seq<Move>)
    requires Trace(ws, ms) && ws[|ms|] == At(w, 1, "n", COMMIT, 1, Effect(w.store, w.allocations, Checked(CPU0.spec)))
    requires w.store == map["n" := CPU0, "m" := CPU0] && w.submutex == map["n" := 1, "m" := 2] && w.owner == map[]
    requires w.threads == map[1 := Idle, 2 := Idle] && PendingOn(w.allocations, "m") == RESERVED
    ensures Trace(ws', ms') && ws <= ws' && ms <= ms' && OnlyBy(ms', |ms|, 2)
    ensures ws'[|ms'|]
            == At(w, 1, "n", COMMIT, 1, Effect(OtherStore(w.store), w.allocations - {"claim"}, Checked(CPU0.spec)))
  {
    hide Trace, PendingOn, At, Done, Committed, OnlyBy;
    var e := Effect(w.store, w.allocations, Checked(CPU0.spec));
    var u := At(w, 1, "n", COMMIT, 1, e);
    Waiting(w, e);
    ws', ms' := CommitAlone(ws, ms, u, 2, "m", 2);
    Resumes(w, e, Effect(OtherStore(w.store), w.allocations - {"claim"}, Checked(CPU0.spec)));
  }

  function OtherStore(store: map<NodeName, NodeObject>): map<NodeName, NodeObject> {
    store["m" := CPU0.(spec := Committed(CPU0.spec, "claim", HALFCPU))]
  }

  /** The run up to the write, in terms of a world `w` in which both threads are idle. */
  lemma VanishedRun() returns (ws: seq<World>, ms: seq<Move>, i: nat, j: nat, w: World)
    ensures Trace(ws, ms) && Start(ws[0]) && i < j && |ms| == j + 2
    ensures ms[i] == ByThread(1, CheckExists) && ms[j] == ByThread(1, TakeReservation)
    ensures ms[j + 1] == ByThread(1, WriteCommit(Applied)) && OnlyBy(ms[..j], i + 1, 2)
    ensures w.submutex == map["n" := 1, "m" := 2] && w.owner == map[] && w.threads == map[1 := Idle, 2 := Idle]
    ensures PendingOn(w.allocations - {"claim"}, "n") == map[]
    ensures ws[j + 2]
            == At(w, 1, "n", COMMIT, 1, Effect(LostCommit(OtherStore(w.store)), w.allocations - {"claim"}, Forgetting))
  {
    hide Trace, PendingOn, At, Committed, OnlyBy, Start;
    ws, ms, w := CheckedRun();
    i := |ms| - 1;
    var checked := ms;
    ws, ms := OtherCommits(ws, ms, w);
    j := |ms|;
    var committed := ms;
    PendingRemoved(w.allocations, {"claim"}, "n");
    assert RESERVED - {"claim"} == map[];
    ws, ms := TakesNothing(ws, ms, w, OtherStore(w.store), w.allocations - {"claim"});
    assert ms[..j] == committed && ms[i] == checked[i];
  }

  /**
   The run: while thread 1 is between its check and its use of the reservation on one node,
   thread 2 commits the same claim on the other, and forgets it everywhere.
   */
  lemma VanishingRun() returns (ws: seq<World>, ms: seq<Move>, i: nat, j: nat)
    ensures Interleaved(ws) && Trace(ws, ms) && i < j && |ms| == j + 2
    ensures ms[i] == ByThread(1, CheckExists) && ms[j] == ByThread(1, TakeReservation)
    ensures ms[j + 1] == ByThread(1, WriteCommit(Applied))
    ensures Waits(ms, i + 1, j, 1) && OnlyBy(ms[..j], i + 1, 2)
    ensures WithoutCpus(ws[j + 2], "n", "claim")
  {
    hide Trace, PendingOn, At, OnlyBy, Start, WithoutCpus, Waits;
    var w: World;
    ws, ms, i, j, w := VanishedRun();
    Ends(w, Effect(LostCommit(OtherStore(w.store)), w.allocations - {"claim"}, Forgetting));
    WaitsForOther(ms, i + 1, j);
    TraceIsInterleaved(ws, ms);
  }

  lemma ProbeFetchesLost(store: map<NodeName, NodeObject>, a: Allocations)
    ensures var spec := Committed(CPU0.spec, "claim", NoRtCpu);
            Acts(LostCommit(store), a, "n", BATCH, Entered, FetchForProbe,
                 Effect(LostCommit(store), a, Overlaying(spec, spec.claims, Ledger(spec), {})))
  {
    hide Ledger, Charge;
  }

  lemma LostPackPanics(store: map<NodeName, NodeObject>, a: Allocations)
    requires PendingOn(a, "n") == map[]
    ensures var spec := Committed(CPU0.spec, "claim", NoRtCpu);
            Acts(store, a, "n", BATCH, Overlaying(spec, spec.claims, Ledger(spec), {}), Pack([]),
                 Effect(store, a, Panicked))
  {
    hide Ledger, Charge, PendingOn, Profile, PackedBy;
    var spec := Committed(CPU0.spec, "claim", NoRtCpu);
    assert DereferencesAt(spec.claims, Ledger(spec), [HALF], 0) by {
      assert [HALF][..0] == [];
      assert Todo([HALF][..0], spec.claims) == [];
      assert Asks([]) == [];
    }
  }

  /** The run goes on: thread 1 finishes, and thread 2's probe of the node for the claim panics. */
  lemma PanickingRun() returns (ws: seq<World>, ms: seq<Move>)
    ensures Interleaved(ws) && Trace(ws, ms) && ms != [] && ms[|ms| - 1] == ByThread(2, Pack([]))
    ensures 2 in ws[|ms|].threads && ws[|ms|].threads[2].Inside? && ws[|ms|].threads[2].node == "n"
    ensures ws[|ms|].threads[2].op == BATCH && ws[|ms|].threads[2].phase.Panicked?
  {
    hide Trace, PendingOn, Acts, Done, Start, LostCommit, OtherStore, GoodBatch;
    var i, j, w;
    ws, ms, i, j, w := VanishedRun();
    var spec, store, a := Committed(CPU0.spec, "claim", NoRtCpu), OtherStore(w.store), w.allocations - {"claim"};
    var e5, e6 := Effect(LostCommit(store), a, Forgetting), Effect(LostCommit(store), a - {"claim"}, Leaving);
    CommitForgets(LostCommit(store), a, "n");
    assert a - {"claim"} == a;
    assert GoodBatch([HALF]) by {
      GoodHalf();
    }
    ProbeFetchesLost(store, a);
    LostPackPanics(LostCommit(store), a);
    hide At;
    ws, ms := Inner(ws, ms, w, 1, "n", COMMIT, 1, e5, Forget, e6);
    ws, ms := Leaves(ws, ms, w, 1, "n", COMMIT, 1, e6);
    var v := Done(w, "n", 1, e6);
    AfterDone(w, e6);
    var e0 := Effect(LostCommit(store), a, Entered);
    var e1 := Effect(LostCommit(store), a, Overlaying(spec, spec.claims, Ledger(spec), {}));
    ws, ms := Enters(ws, ms, v, 2, "n", BATCH, 1);
    ws, ms := Inner(ws, ms, v, 2, "n", BATCH, 1, e0, FetchForProbe, e1);
    ws, ms := Inner(ws, ms, v, 2, "n", BATCH, 1, e1, Pack([]), Effect(LostCommit(store), a, Panicked));
    IsAt(v, Effect(LostCommit(store), a, Panicked));
    TraceIsInterleaved(ws, ms);
  }

  lemma AfterDone(w: World, e: Effect)
    requires w.submutex == map["n" := 1, "m" := 2] && w.owner == map[] && w.threads == map[1 := Idle, 2 := Idle]
    ensures var v := Done(w, "n", 1, e);
            && v.store == e.store && v.allocations == e.allocations && 2 in v.threads && v.threads[2].Idle?
            && 1 !in v.owner && "n" in v.submutex && v.submutex["n"] == 1
  {
  }

  lemma IsAt(v: World, e: Effect)
    ensures var u := At(v, 2, "n", BATCH, 1, e);
            2 in u.threads && u.threads[2] == Inside("n", BATCH, 1, e.phase)
  {
  }

  lemma WaitsForOther(ms: seq<Move>, i: nat, j: nat)
    requires i <= j <= |ms| && OnlyBy(ms[..j], i, 2)
    ensures Waits(ms, i, j, 1)
  {
    forall q | i <= q < j
      ensures !(ms[q].ByThread? && ms[q].t == 1)
    {
      assert ms[..j][q] == ms[q];
    }
  }

  lemma Waiting(w: World, e: Effect)
    requires w.submutex == map["n" := 1, "m" := 2] && w.owner == map[] && w.threads == map[1 := Idle, 2 := Idle]
    ensures var u := At(w, 1, "n", COMMIT, 1, e);
            && u.store == e.store && u.allocations == e.allocations && "m" in u.submutex
            && u.submutex["m"] == 2 && 2 !in u.owner
            && 2 in u.threads && u.threads[2].Idle?
  {
  }

  /** The other thread's commit leaves the waiting thread where it was. */
  lemma Resumes(w: World, e: Effect, e': Effect)
    requires w.submutex == map["n" := 1, "m" := 2] && w.owner == map[] && w.threads == map[1 := Idle, 2 := Idle]
    requires e'.phase == e.phase
    ensures Done(At(w, 1, "n", COMMIT, 1, e), "m", 2, Effect(e'.store, e'.allocations, Leaving))
            == At(w, 1, "n", COMMIT, 1, e')
  {
    var u := At(w, 1, "n", COMMIT, 1, e);
    assert u.submutex["m" := 2] == u.submutex;
  }

  lemma Ends(w: World, e: Effect)
    requires "n" in e.store && e.store["n"].spec == Committed(CPU0.spec, "claim", NoRtCpu)
    ensures WithoutCpus(At(w, 1, "n", COMMIT, 1, e), "n", "claim")
  {
  }

  lemma TraceIsInterleaved(ws: seq<World>, ms: seq<Move>)
    requires Trace(ws, ms) && Start(ws[0])
    ensures Interleaved(ws)
  {
    hide Makes;
  }
}
