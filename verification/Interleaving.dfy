/**
 The controller with its operations taken apart: threads that take a node's mutex, and
 then fetch, visit, reserve, check, write and forget in separate steps, while threads on
 other nodes do the same to the shared reservations in between.  A commit may find that
 the reservation it saw a step ago is gone; a probe may lay over reservations that are
 removed before it is done.
 */
module Interleaving {
  import opened Nas
  import opened Demand
  import opened Packing
  import opened Reservation
  import opened Cluster

  type Tid = nat
  type MutexId = nat

  datatype Op =
    | ProbeOp(reqs: seq<Request>, cgroup: string)
    | CommitOp(uid: Uid)
    | ReleaseOp(uid: Uid)

  /** How far an operation has come inside its node's critical section. */
  datatype Phase =
    | Entered
    | Overlaying(spec: NodeSpec, claims: Claims, util: UtilMap, seen: set<Uid>)
    | Visiting(spec: NodeSpec, claims: Claims, util: UtilMap, seen: set<Uid>, uid: Uid, entry: AllocatedCpuset)
    | Panicked
    | Recording(left: Claims)
    | Fetched(spec: NodeSpec)
    | Checked(spec: NodeSpec)
    | Committing(spec: NodeSpec, a: AllocatedCpuset)
    | Forgetting
    | Releasing(spec: NodeSpec)
    | Subtracted(spec: NodeSpec)
    | Leaving

  datatype Thread =
    | Idle
    | HasMutex(node: NodeName, op: Op, mutex: MutexId)
    | Inside(node: NodeName, op: Op, mutex: MutexId, phase: Phase)

  datatype World = World(
    store: map<NodeName, NodeObject>,
    allocations: Allocations,
    submutex: map<NodeName, MutexId>,
    owner: map<MutexId, Tid>,
    threads: map<Tid, Thread>)

  // ----- Steps -----

  datatype Event =
    | GetMutex(node: NodeName, op: Op, id: MutexId)
    | Lock
    | GiveUp
    | FetchForProbe
    | Visit(uid: Uid)
    | CallVisitor
    | Pack(choices: seq<seq<CpuId>>)
    | SetOne(uid: Uid)
    | FinishRecording
    | FetchForCommit
    | CheckExists
    | TakeReservation
    | WriteCommit(write: WriteOutcome)
    | Forget
    | FetchForRelease
    | DropPending
    | WriteRelease(write: WriteOutcome)
    | Unlock

  /** `PerNodeMutex.Get`: the node's mutex, created on first use. */
  ghost predicate GetsMutex(w: World, t: Tid, node: NodeName, op: Op, id: MutexId, w': World)
    requires t in w.threads
  {
    && w.threads[t].Idle? && (op.ProbeOp? ==> GoodBatch(op.reqs))
    && (if node in w.submutex then id == w.submutex[node] else id !in w.submutex.Values)
    && w' == w.(submutex := w.submutex[node := id], threads := w.threads[t := HasMutex(node, op, id)])
  }

  ghost predicate Locks(w: World, t: Tid, w': World)
    requires t in w.threads
  {
    && w.threads[t].HasMutex?
    && var th := w.threads[t];
       && th.mutex !in w.owner
       && w' == w.(owner := w.owner[th.mutex := t],
                   threads := w.threads[t := Inside(th.node, th.op, th.mutex, Entered)])
  }

  ghost predicate Unlocks(w: World, t: Tid, w': World)
    requires t in w.threads
  {
    && w.threads[t].Inside? && w.threads[t].phase.Leaving?
    && w' == w.(owner := w.owner - {w.threads[t].mutex}, threads := w.threads[t := Idle])
  }

  /** What a step inside the critical section does to the store, the reservations and the thread's own phase. */
  datatype Effect = Effect(store: map<NodeName, NodeObject>, allocations: Allocations, phase: Phase)

  function Written(
      store: map<NodeName, NodeObject>, n: NodeName, spec: NodeSpec, write: WriteOutcome): map<NodeName,
      NodeObject>
    requires n in store
  {
    if write.Rejected? then store else store[n := store[n].(spec := spec)]
  }

  /**
   Packing the batch reaches a claim that is committed without CPUs, and dereferences nil;
   a claim before it that does not fit ends the packing first.
   */
  ghost predicate NilDereference(claims: Claims, util: UtilMap, reqs: seq<Request>) {
    exists i :: 0 <= i < |reqs| && DereferencesAt(claims, util, reqs, i)
  }

  ghost predicate DereferencesAt(claims: Claims, util: UtilMap, reqs: seq<Request>, i: nat)
    requires i < |reqs|
  {
    && reqs[i].uid in claims && claims[reqs[i].uid].NoRtCpu?
    && Admit(Profile(util), Asks(Todo(reqs[..i], claims))).Some?
  }

  /**
   The steps inside a critical section; `e` is the effect of event `ev` in phase `p` of operation
   `op` on node `n`.
   */
  ghost predicate Acts(
      store: map<NodeName, NodeObject>, a: Allocations, n: NodeName, op: Op, p: Phase, ev: Event, e: Effect)
  {
    match ev
    case GiveUp =>
      // The object cannot be fetched, is not ready, or does not call for anything to be done.
      && (p.Entered? || p.Fetched?) && e == Effect(store, a, Leaving)
    case FetchForProbe =>
      && p.Entered? && op.ProbeOp? && n in store && store[n].ready
      && e == Effect(store, a, Overlaying(store[n].spec, store[n].spec.claims, Ledger(store[n].spec), {}))
    case Visit(uid) =>
      // The entry is read under the store's lock, which is dropped before the visitor is called.
      && p.Overlaying? && uid in PendingOn(a, n) && uid !in p.seen
      && e == Effect(store, a, Visiting(p.spec, p.claims, p.util, p.seen, uid, PendingOn(a, n)[uid]))
    case CallVisitor =>
      && p.Visiting?
      && if p.uid in p.claims then
           e == Effect(store, a - {p.uid}, Overlaying(p.spec, p.claims, p.util, p.seen + {p.uid}))
         else
           e == Effect(
                  store, a,
                  Overlaying(p.spec, p.claims[p.uid := p.entry], Charge(p.util, p.entry.Cpus()), p.seen + {p.uid}))
    case Pack(choices) =>
      && p.Overlaying? && op.ProbeOp? && PendingOn(a, n).Keys <= p.seen
      && var todo := Todo(op.reqs, p.claims);
         if NilDereference(p.claims, p.util, op.reqs) then
           e == Effect(store, a, Panicked)
         else if Admit(Profile(p.util), Asks(todo)).Some? then
           && PackedBy(p.util, Asks(todo), choices)
           && e == Effect(store, a, Recording(NewClaims(todo, choices, op.cgroup)))
         else
           e == Effect(store, a, Leaving)
    case SetOne(uid) =>
      && p.Recording? && uid in p.left
      && e == Effect(store, Reserve(a, n, map[uid := p.left[uid]]), Recording(p.left - {uid}))
    case FetchForCommit =>
      && p.Entered? && op.CommitOp? && n in store && store[n].ready && op.uid !in store[n].spec.claims
      && e == Effect(store, a, Fetched(store[n].spec))
    case CheckExists =>
      && p.Fetched? && op.CommitOp? && op.uid in PendingOn(a, n)
      && e == Effect(store, a, Checked(p.spec))
    case TakeReservation =>
      // The reservation may have been removed since it was checked; then the zero value is taken.
      && p.Checked? && op.CommitOp?
      && e == Effect(
                store, a,
                Committing(p.spec, if op.uid in PendingOn(a, n) then PendingOn(a, n)[op.uid] else NoRtCpu))
    case WriteCommit(write) =>
      && p.Committing? && op.CommitOp? && n in store
      && e == Effect(
                Written(store, n, Committed(p.spec, op.uid, p.a), write), a,
                if write.Applied? then Forgetting else Leaving)
    case Forget =>
      && p.Forgetting? && op.CommitOp? && e == Effect(store, a - {op.uid}, Leaving)
    case FetchForRelease =>
      && p.Entered? && op.ReleaseOp? && n in store
      && op.uid in store[n].spec.claims && store[n].spec.claims[op.uid].RtCpu?
      && e == Effect(store, a, Releasing(store[n].spec))
    case DropPending =>
      && p.Releasing? && op.ReleaseOp? && e == Effect(store, a - {op.uid}, Subtracted(p.spec))
    case WriteRelease(write) =>
      && p.Subtracted? && op.ReleaseOp? && n in store && op.uid in p.spec.claims
      && e == Effect(Written(store, n, Released(p.spec, op.uid), write), a, Leaving)
    case FinishRecording => p.Recording? && p.left == map[] && e == Effect(store, a, Leaving)
    case GetMutex(_, _, _) => false
    case Lock => false
    case Unlock => false
  }

  ghost predicate Step(w: World, t: Tid, ev: Event, w': World) {
    && t in w.threads
    && match ev
       case GetMutex(node, op, id) => GetsMutex(w, t, node, op, id, w')
       case Lock => Locks(w, t, w')
       case Unlock => Unlocks(w, t, w')
       case _ => exists e :: ActsInside(w, t, ev, e, w')
  }

  ghost predicate ActsInside(w: World, t: Tid, ev: Event, e: Effect, w': World)
    requires t in w.threads
  {
    && w.threads[t].Inside?
    && var th := w.threads[t];
       && Acts(w.store, w.allocations, th.node, th.op, th.phase, ev, e)
       && w' == w.(store := e.store, allocations := e.allocations, threads := w.threads[t := th.(phase := e.phase)])
  }

  /** Two versions of a node's object that differ at most in what the plugin owns. */
  ghost predicate SameLedger(s: NodeSpec, s': NodeSpec) {
    s.claims == s'.claims && s.util == s'.util && Base(s) == Base(s')
  }

  /** A new node appears, or its plugin rewrites the fields it owns, at any time. */
  ghost predicate Environment(w: World, n: NodeName, obj: NodeObject, w': World) {
    && w' == w.(store := w.store[n := obj])
    && if n in w.store then SameLedger(w.store[n].spec, obj.spec)
       else GoodBase(Base(obj.spec)) && obj.spec.claims == map[] && obj.spec.util == map[]
  }

  ghost predicate Start(w: World) {
    w.store == map[] && w.allocations == map[] && w.submutex == map[] && w.owner == map[]
    && forall t <- w.threads :: w.threads[t].Idle?
  }

  /** A step of a thread, or a write of a plugin. */
  datatype Move =
    | ByThread(t: Tid, ev: Event)
    | ByPlugin(n: NodeName, obj: NodeObject)

  ghost predicate Makes(w: World, m: Move, w': World) {
    match m
    case ByThread(t, ev) => Step(w, t, ev, w')
    case ByPlugin(n, obj) => Environment(w, n, obj, w')
  }

  ghost predicate Moves(w: World, w': World) {
    exists m :: Makes(w, m, w')
  }

  ghost predicate Interleaved(ws: seq<World>) {
    && ws != [] && Start(ws[0])
    && forall i :: 0 <= i < |ws| - 1 ==> Moves(ws[i], ws[i + 1])
  }

  // ----- What a phase may rely on -----

  /** The claims a probe goes by, together with what is still pending, stay below the threshold. */
  ghost predicate OverlayOk(spec: NodeSpec, pend: Claims, claims: Claims, util: UtilMap, seen: set<Uid>) {
    && SubMap(spec.claims, claims)
    && GoodClaims(claims, Base(spec).Keys)
    && util == AddLoad(Base(spec), claims)
    && (forall u <- claims :: u in spec.claims || (u in seen && claims[u].RtCpu?))
    && (forall u <- pend :: u in seen ==> u in claims)
    && (forall u <- pend :: u in claims && u !in spec.claims ==> claims[u] == pend[u])
    && Fits(Base(spec), pend + claims)
  }

  /** The entry a visitor is called with is covered by the bound, whether or not it is still pending. */
  ghost predicate VisitingOk(
      spec: NodeSpec, pend: Claims, claims: Claims, seen: set<Uid>, uid: Uid, entry: AllocatedCpuset)
  {
    && uid !in seen && entry.RtCpu?
    && GoodCpuset(entry, Base(spec).Keys)
    && (uid in pend && uid !in spec.claims ==> pend[uid] == entry)
    && (uid !in claims ==> Fits(Base(spec), pend + claims[uid := entry]))
  }

  /** The reservations still to be recorded are new, and are covered by the bound already. */
  ghost predicate RecordingOk(spec: NodeSpec, pend: Claims, left: Claims) {
    && (forall u <- left :: u !in pend && u !in spec.claims)
    && AllRtCpu(left)
    && GoodClaims(left, Base(spec).Keys)
    && Fits(Base(spec), pend + spec.claims + left)
  }

  /** The cpuset about to be committed is covered by the bound, whether or not it is still pending. */
  ghost predicate CommittingOk(spec: NodeSpec, pend: Claims, uid: Uid, a: AllocatedCpuset) {
    && uid !in spec.claims
    && GoodCpuset(a, Base(spec).Keys)
    && Fits(Base(spec), Everything(spec, pend)[uid := a])
  }

  ghost predicate PhaseOk(store: map<NodeName, NodeObject>, n: NodeName, pend: Claims, op: Op, p: Phase) {
    && (op.ProbeOp? ==> GoodBatch(op.reqs))
    && match p
       case Entered => true
       case Overlaying(spec, claims, util, seen) =>
         && n in store && SameLedger(store[n].spec, spec) && OverlayOk(spec, pend, claims, util, seen)
       case Visiting(spec, claims, util, seen, uid, entry) =>
         && n in store && SameLedger(store[n].spec, spec)
         && OverlayOk(spec, pend, claims, util, seen) && VisitingOk(spec, pend, claims, seen, uid, entry)
       case Panicked => true
       case Recording(left) => n in store && RecordingOk(store[n].spec, pend, left)
       case Fetched(spec) => n in store && SameLedger(store[n].spec, spec) && (op.CommitOp? ==> op.uid !in spec.claims)
       case Checked(spec) => n in store && SameLedger(store[n].spec, spec) && (op.CommitOp? ==> op.uid !in spec.claims)
       case Committing(spec, a) =>
         && n in store && SameLedger(store[n].spec, spec) && op.CommitOp?
         && CommittingOk(spec, pend, op.uid, a)
       case Forgetting => true
       case Releasing(spec) =>
         && n in store && SameLedger(store[n].spec, spec) && op.ReleaseOp? && op.uid in spec.claims
         && spec.claims[op.uid].RtCpu?
       case Subtracted(spec) =>
         && n in store && SameLedger(store[n].spec, spec) && op.ReleaseOp? && op.uid in spec.claims
         && spec.claims[op.uid].RtCpu? && op.uid !in pend
       case Leaving => true
  }

  ghost predicate MutexesOk(w: World) {
    && (forall n <- w.submutex, n' <- w.submutex :: w.submutex[n] == w.submutex[n'] ==> n == n')
    && (forall t <- w.threads :: !w.threads[t].Idle? ==>
          w.threads[t].node in w.submutex && w.submutex[w.threads[t].node] == w.threads[t].mutex)
    && (forall t <- w.threads :: w.threads[t].Inside? ==>
          w.threads[t].mutex in w.owner && w.owner[w.threads[t].mutex] == t)
    && (forall t <- w.threads :: w.threads[t].HasMutex? && w.threads[t].op.ProbeOp? ==> GoodBatch(w.threads[t].op.reqs))
  }

  ghost predicate NodesOk(w: World) {
    && (forall n <- w.store :: NodeOk(w.store[n].spec, PendingOn(w.allocations, n)))
    && EntriesOk(w.store, w.allocations)
  }

  /** Reservations exist only for known nodes, and none is the zero value. */
  ghost predicate EntriesOk(store: map<NodeName, NodeObject>, a: Allocations) {
    forall u <- a, n <- a[u] :: n in store && a[u][n].RtCpu?
  }

  ghost predicate PhasesOk(w: World) {
    forall t <- w.threads :: w.threads[t].Inside? ==>
      PhaseOk(
        w.store, w.threads[t].node, PendingOn(w.allocations, w.threads[t].node), w.threads[t].op,
        w.threads[t].phase)
  }

  ghost predicate WorldInv(w: World) {
    MutexesOk(w) && NodesOk(w) && PhasesOk(w)
  }

  /** At most one operation is inside a node at a time. */
  lemma MutualExclusion(w: World, t: Tid, t': Tid)
    requires MutexesOk(w)
    requires t in w.threads && t' in w.threads && w.threads[t].Inside? && w.threads[t'].Inside?
    requires w.threads[t].node == w.threads[t'].node
    ensures t == t'
  {
  }

  // ----- Stability: other nodes can only take reservations away -----

  lemma UnionMonotone(m: Claims, m': Claims, r: Claims)
    requires SubMap(m, m')
    ensures SubMap(m + r, m' + r)
  {
  }

  lemma FitsUnion(b: UtilMap, pend: Claims, pend': Claims, r: Claims)
    requires SubMap(pend', pend) && GoodClaims(pend, b.Keys) && GoodClaims(r, b.Keys) && Fits(b, pend + r)
    ensures Fits(b, pend' + r)
  {
    UnionMonotone(pend', pend, r);
    GoodClaimsUnion(pend, r, b.Keys);
    FitsMonotone(b, pend' + r, pend + r);
  }

  lemma NodeClaimsGood(spec: NodeSpec, pend: Claims)
    requires NodeOk(spec, pend)
    ensures GoodClaims(pend, Base(spec).Keys) && GoodClaims(spec.claims, Base(spec).Keys)
  {
  }

  lemma VisitingStable(
      spec: NodeSpec, pend: Claims, pend': Claims, claims: Claims, seen: set<Uid>, uid: Uid,
      entry: AllocatedCpuset)
    requires VisitingOk(spec, pend, claims, seen, uid, entry) && SubMap(pend', pend)
    requires GoodClaims(pend, Base(spec).Keys) && GoodClaims(claims, Base(spec).Keys)
    ensures VisitingOk(spec, pend', claims, seen, uid, entry)
  {
    hide GoodClaims, Fits;
    if uid !in claims {
      GoodClaimsInsert(claims, uid, entry, Base(spec).Keys);
      FitsUnion(Base(spec), pend, pend', claims[uid := entry]);
    }
  }

  lemma OverlayStable(spec: NodeSpec, pend: Claims, pend': Claims, claims: Claims, util: UtilMap, seen: set<Uid>)
    requires OverlayOk(spec, pend, claims, util, seen) && SubMap(pend', pend) && GoodClaims(pend, Base(spec).Keys)
    ensures OverlayOk(spec, pend', claims, util, seen) && GoodClaims(claims, Base(spec).Keys)
  {
    hide GoodClaims, Fits;
    FitsUnion(Base(spec), pend, pend', claims);
  }

  lemma RecordingStable(spec: NodeSpec, pend: Claims, pend': Claims, left: Claims)
    requires RecordingOk(spec, pend, left) && SubMap(pend', pend)
    requires GoodClaims(pend, Base(spec).Keys) && GoodClaims(spec.claims, Base(spec).Keys)
    ensures RecordingOk(spec, pend', left)
  {
    hide GoodClaims, Fits;
    GoodClaimsUnion(spec.claims, left, Base(spec).Keys);
    assert pend + spec.claims + left == pend + (spec.claims + left);
    assert pend' + spec.claims + left == pend' + (spec.claims + left);
    FitsUnion(Base(spec), pend, pend', spec.claims + left);
  }

  lemma CommittingStable(spec: NodeSpec, pend: Claims, pend': Claims, uid: Uid, a: AllocatedCpuset)
    requires CommittingOk(spec, pend, uid, a) && SubMap(pend', pend)
    requires GoodClaims(pend, Base(spec).Keys) && GoodClaims(spec.claims, Base(spec).Keys)
    ensures CommittingOk(spec, pend', uid, a)
  {
    hide GoodClaims, Fits;
    GoodClaimsInsert(spec.claims, uid, a, Base(spec).Keys);
    UnionUpdate(pend, spec.claims, uid, a);
    UnionUpdate(pend', spec.claims, uid, a);
    FitsUnion(Base(spec), pend, pend', spec.claims[uid := a]);
  }

  /** A phase keeps what it relies on while other threads remove reservations. */
  lemma PhaseStable(store: map<NodeName, NodeObject>, n: NodeName, pend: Claims, pend': Claims, op: Op, p: Phase)
    requires PhaseOk(store, n, pend, op, p) && SubMap(pend', pend)
    requires n in store ==> NodeOk(store[n].spec, pend)
    ensures PhaseOk(store, n, pend', op, p)
  {
    hide NodeOk, GoodClaims, GoodBatch, OverlayOk, VisitingOk, RecordingOk, CommittingOk;
    if n in store {
      NodeClaimsGood(store[n].spec, pend);
    }
    match p
    case Overlaying(spec, claims, util, seen) =>
      OverlayStable(spec, pend, pend', claims, util, seen);
    case Visiting(spec, claims, util, seen, uid, entry) =>
      OverlayStable(spec, pend, pend', claims, util, seen);
      VisitingStable(spec, pend, pend', claims, seen, uid, entry);
    case Recording(left) =>
      RecordingStable(store[n].spec, pend, pend', left);
    case Committing(spec, a) =>
      CommittingStable(spec, pend, pend', op.uid, a);
    case _ =>
  }

  lemma SameLedgerNodeOk(s: NodeSpec, s': NodeSpec, pend: Claims)
    requires NodeOk(s, pend) && SameLedger(s, s')
    ensures NodeOk(s', pend)
  {
  }

  // ----- Steps inside the critical section -----

  /** What every step on node `n` guarantees: its own node in order, and elsewhere at most fewer reservations. */
  ghost predicate EffectOk(store: map<NodeName, NodeObject>, a: Allocations, n: NodeName, op: Op, e: Effect) {
    && e.store.Keys == store.Keys
    && (n in store ==> NodeOk(e.store[n].spec, PendingOn(e.allocations, n)))
    && PhaseOk(e.store, n, PendingOn(e.allocations, n), op, e.phase)
    && (forall m <- store :: m != n ==> e.store[m] == store[m])
    && (forall m :: m != n ==> SubMap(PendingOn(e.allocations, m), PendingOn(a, m)))
    && (n !in store ==> PendingOn(e.allocations, n) == map[])
    && AllRtCpu(PendingOn(e.allocations, n))
  }

  lemma VisitOk(spec: NodeSpec, pend: Claims, claims: Claims, util: UtilMap, seen: set<Uid>, uid: Uid)
    requires NodeOk(spec, pend) && OverlayOk(spec, pend, claims, util, seen) && AllRtCpu(pend)
    requires uid in pend && uid !in seen
    ensures VisitingOk(spec, pend, claims, seen, uid, pend[uid])
  {
    hide LedgerExact, Fits;
    assert GoodCpuset(pend[uid], Base(spec).Keys);
    if uid !in claims {
      assert pend + claims[uid := pend[uid]] == pend + claims;
    }
  }

  lemma VisitorRemoves(
      spec: NodeSpec, pend: Claims, claims: Claims, util: UtilMap, seen: set<Uid>, uid: Uid,
      entry: AllocatedCpuset)
    requires NodeOk(spec, pend) && OverlayOk(spec, pend, claims, util, seen)
    requires VisitingOk(spec, pend, claims, seen, uid, entry) && uid in claims
    ensures uid in spec.claims && OverlayOk(spec, pend - {uid}, claims, util, seen + {uid})
  {
    hide NodeOk, LedgerExact, Fits;
    NodeClaimsGood(spec, pend);
    FitsUnion(Base(spec), pend, pend - {uid}, claims);
  }

  lemma VisitorAdds(
      spec: NodeSpec, pend: Claims, claims: Claims, util: UtilMap, seen: set<Uid>, uid: Uid,
      entry: AllocatedCpuset)
    requires OverlayOk(spec, pend, claims, util, seen)
    requires VisitingOk(spec, pend, claims, seen, uid, entry) && uid !in claims
    ensures OverlayOk(spec, pend, claims[uid := entry], Charge(util, entry.Cpus()), seen + {uid})
  {
    hide LedgerExact, Fits, AddLoad, Charge, GoodClaims;
    AddLoadInsert(Base(spec), claims, uid, entry);
    GoodClaimsInsert(claims, uid, entry, Base(spec).Keys);
  }

  /** When every pending claim was visited, the overlay accounts for all that is committed or pending. */
  lemma OverlayCovers(spec: NodeSpec, pend: Claims, claims: Claims, util: UtilMap, seen: set<Uid>, k: CpuId)
    requires OverlayOk(spec, pend, claims, util, seen) && pend.Keys <= seen && k in util
    ensures SubMap(Everything(spec, pend), claims)
    ensures k in Base(spec) && util[k] >= Base(spec)[k] + Load(Everything(spec, pend), k)
  {
    assert SubMap(Everything(spec, pend), claims);
    LoadMonotone(Everything(spec, pend), claims, Base(spec).Keys, k);
  }

  /** A packing that succeeds on the overlay may be recorded. */
  lemma PackOk(spec: NodeSpec, pend: Claims, claims: Claims, util: UtilMap, seen: set<Uid>,
               reqs: seq<Request>, choices: seq<seq<CpuId>>, cgroup: string)
    requires NodeOk(spec, pend) && OverlayOk(spec, pend, claims, util, seen) && pend.Keys <= seen && GoodBatch(reqs)
    requires PackedBy(util, Asks(Todo(reqs, claims)), choices)
    ensures RecordingOk(spec, pend, NewClaims(Todo(reqs, claims), choices, cgroup))
  {
    hide NodeOk, LedgerExact, PackedBy, GoodClaims, Fits;
    var b, todo := Base(spec), Todo(reqs, claims);
    var made := NewClaims(todo, choices, cgroup);
    NewClaimsDisjoint(claims, reqs, choices, cgroup);
    OverlayAbsorbs(spec.claims, pend, claims, made);
    PackingFits(b, claims, todo, choices, cgroup);
    PackedPlacements(util, Asks(todo), choices);
    NewClaimsServe(b.Keys, todo, choices, cgroup);
    GoodClaimsUnion(claims, made, b.Keys);
    MadeRtCpu(todo, choices, cgroup);
    FitsMonotone(b, pend + spec.claims + made, claims + made);
  }

  lemma NewClaimsDisjoint(claims: Claims, reqs: seq<Request>, choices: seq<seq<CpuId>>, cgroup: string)
    requires GoodBatch(reqs) && |choices| == |Todo(reqs, claims)|
    ensures var todo := Todo(reqs, claims);
            && GoodBatch(todo)
            && (forall i :: 0 <= i < |todo| ==> todo[i].uid !in claims)
            && (forall u <- NewClaims(todo, choices, cgroup) :: u !in claims)
  {
    hide Todo, NewClaims;
    var todo := Todo(reqs, claims);
    TodoProperties(reqs, claims);
    assert forall i :: 0 <= i < |todo| ==> todo[i] in todo;
    NewClaimsKeys(todo, choices, cgroup);
  }

  /** An overlay that has taken in everything pending covers it. */
  lemma OverlayAbsorbs(committed: Claims, pend: Claims, claims: Claims, made: Claims)
    requires SubMap(committed, claims)
    requires forall u <- pend :: u in claims && (u !in committed ==> claims[u] == pend[u])
    ensures pend + claims == claims
    ensures SubMap(pend + committed + made, claims + made)
  {
  }

  lemma SetOk(spec: NodeSpec, pend: Claims, left: Claims, uid: Uid)
    requires NodeOk(spec, pend) && RecordingOk(spec, pend, left) && uid in left
    ensures NodeOk(spec, pend[uid := left[uid]])
    ensures RecordingOk(spec, pend[uid := left[uid]], left - {uid})
    ensures left[uid].RtCpu?
  {
    hide LedgerExact, GoodCpuset;
    var b, pend' := Base(spec), pend[uid := left[uid]];
    NodeClaimsGood(spec, pend);
    SetMoves(spec.claims, pend, left, uid);
    GoodClaimsInsert(pend, uid, left[uid], b.Keys);
    GoodClaimsUnion(pend', spec.claims, b.Keys);
    GoodClaimsUnion(pend + spec.claims, left, b.Keys);
    FitsMonotone(b, pend' + spec.claims, pend + spec.claims + left);
  }

  /** Recording a reservation moves it from what is left to what is pending. */
  lemma SetMoves(committed: Claims, pend: Claims, left: Claims, uid: Uid)
    requires uid in left && forall u <- left :: u !in pend && u !in committed
    ensures pend[uid := left[uid]] + committed + (left - {uid}) == pend + committed + left
    ensures SubMap(pend[uid := left[uid]] + committed, pend + committed + left)
  {
  }

  /** Taking the reservation, or the zero value if it is gone, is covered by the bound. */
  lemma TakeOk(spec: NodeSpec, pend: Claims, uid: Uid)
    requires NodeOk(spec, pend) && uid !in spec.claims
    ensures CommittingOk(spec, pend, uid, if uid in pend then pend[uid] else NoRtCpu)
  {
    var all := Everything(spec, pend);
    if uid in pend {
      assert all[uid := pend[uid]] == all;
    } else {
      forall k | k in Base(spec)
        ensures Load(all[uid := NoRtCpu], k) == Load(all, k)
      {
        LoadInsert(all, uid, NoRtCpu, k);
      }
    }
  }

  lemma PendingDropped(store: map<NodeName, NodeObject>, a: Allocations, n: NodeName, uid: Uid)
    requires n in store ==> NodeOk(store[n].spec, PendingOn(a, n))
    ensures forall m :: SubMap(PendingOn(a - {uid}, m), PendingOn(a, m))
    ensures PendingOn(a - {uid}, n) == PendingOn(a, n) - {uid}
    ensures n in store ==> NodeOk(store[n].spec, PendingOn(a - {uid}, n))
  {
    hide NodeOk;
    forall m
      ensures SubMap(PendingOn(a - {uid}, m), PendingOn(a, m))
    {
      PendingRemoved(a, {uid}, m);
    }
    PendingRemoved(a, {uid}, n);
    if n in store {
      NodeOkShrinks(store[n].spec, PendingOn(a, n), PendingOn(a - {uid}, n));
    }
  }

  lemma VisitorActsOk(store: map<NodeName, NodeObject>, a: Allocations, n: NodeName, op: Op, p: Phase, e: Effect)
    requires n in store ==> NodeOk(store[n].spec, PendingOn(a, n))
    requires n !in store ==> PendingOn(a, n) == map[]
    requires AllRtCpu(PendingOn(a, n))
    requires PhaseOk(store, n, PendingOn(a, n), op, p)
    requires Acts(store, a, n, op, p, CallVisitor, e)
    ensures EffectOk(store, a, n, op, e)
  {
    hide NodeOk, OverlayOk, VisitingOk, GoodBatch, Charge;
    var pend := PendingOn(a, n);
    SameLedgerNodeOk(store[n].spec, p.spec, pend);
    if p.uid in p.claims {
      VisitorRemoves(p.spec, pend, p.claims, p.util, p.seen, p.uid, p.entry);
      PendingDropped(store, a, n, p.uid);
    } else {
      VisitorAdds(p.spec, pend, p.claims, p.util, p.seen, p.uid, p.entry);
    }
  }

  lemma PackActsOk(
      store: map<NodeName, NodeObject>, a: Allocations, n: NodeName, op: Op, p: Phase, choices: seq<seq<CpuId>>,
      e: Effect)
    requires n in store ==> NodeOk(store[n].spec, PendingOn(a, n))
    requires n !in store ==> PendingOn(a, n) == map[]
    requires AllRtCpu(PendingOn(a, n))
    requires PhaseOk(store, n, PendingOn(a, n), op, p)
    requires Acts(store, a, n, op, p, Pack(choices), e)
    ensures EffectOk(store, a, n, op, e)
  {
    hide NodeOk, OverlayOk, RecordingOk, PackedBy, Admit, GoodBatch, Todo, Profile, NilDereference, NewClaims;
    var pend := PendingOn(a, n);
    SameLedgerNodeOk(store[n].spec, p.spec, pend);
    if e.phase.Recording? {
      PackOk(p.spec, pend, p.claims, p.util, p.seen, op.reqs, choices, op.cgroup);
      SameLedgerRecording(p.spec, store[n].spec, pend, e.phase.left);
    }
  }

  lemma SetActsOk(
      store: map<NodeName, NodeObject>, a: Allocations, n: NodeName, op: Op, p: Phase, uid: Uid, e: Effect)
    requires n in store ==> NodeOk(store[n].spec, PendingOn(a, n))
    requires n !in store ==> PendingOn(a, n) == map[]
    requires AllRtCpu(PendingOn(a, n))
    requires PhaseOk(store, n, PendingOn(a, n), op, p)
    requires Acts(store, a, n, op, p, SetOne(uid), e)
    ensures EffectOk(store, a, n, op, e)
  {
    hide NodeOk, RecordingOk, GoodBatch, PendingOn, Reserve;
    var pend := PendingOn(a, n);
    SetOk(store[n].spec, pend, p.left, uid);
    forall m
      ensures PendingOn(e.allocations, m) == if m == n then pend[uid := p.left[uid]] else PendingOn(a, m)
    {
      PendingReserved(a, n, map[uid := p.left[uid]], m);
    }
  }

  lemma ProbeActsOk(
      store: map<NodeName, NodeObject>, a: Allocations, n: NodeName, op: Op, p: Phase, ev: Event, e: Effect)
    requires n in store ==> NodeOk(store[n].spec, PendingOn(a, n))
    requires n !in store ==> PendingOn(a, n) == map[]
    requires AllRtCpu(PendingOn(a, n))
    requires PhaseOk(store, n, PendingOn(a, n), op, p)
    requires Acts(store, a, n, op, p, ev, e)
    requires ev.FetchForProbe? || ev.Visit? || ev.CallVisitor? || ev.Pack? || ev.SetOne?
    ensures EffectOk(store, a, n, op, e)
  {
    hide NodeOk, OverlayOk, VisitingOk, RecordingOk, CommittingOk, PackedBy, Admit, GoodBatch, LedgerExact,
      Todo, Profile, Everything, Charge, NilDereference;
    var pend := PendingOn(a, n);
    match ev
    case FetchForProbe =>
      OverlayStarts(store[n].spec, pend);
    case Visit(uid) =>
      SameLedgerNodeOk(store[n].spec, p.spec, pend);
      VisitOk(p.spec, pend, p.claims, p.util, p.seen, uid);
    case CallVisitor =>
      VisitorActsOk(store, a, n, op, p, e);
    case Pack(choices) =>
      PackActsOk(store, a, n, op, p, choices, e);
    case SetOne(uid) =>
      SetActsOk(store, a, n, op, p, uid, e);
  }

  lemma TakeActsOk(
      store: map<NodeName, NodeObject>, a: Allocations, n: NodeName, op: Op, p: Phase, e: Effect)
    requires n in store ==> NodeOk(store[n].spec, PendingOn(a, n))
    requires n !in store ==> PendingOn(a, n) == map[]
    requires AllRtCpu(PendingOn(a, n))
    requires PhaseOk(store, n, PendingOn(a, n), op, p)
    requires Acts(store, a, n, op, p, TakeReservation, e)
    ensures EffectOk(store, a, n, op, e)
  {
    hide NodeOk, CommittingOk, PendingOn;
    SameLedgerNodeOk(store[n].spec, p.spec, PendingOn(a, n));
    TakeOk(p.spec, PendingOn(a, n), op.uid);
    SameLedgerCommitting(p.spec, store[n].spec, PendingOn(a, n), op.uid, e.phase.a);
  }

  lemma SameLedgerCommitting(s: NodeSpec, s': NodeSpec, pend: Claims, uid: Uid, a: AllocatedCpuset)
    requires CommittingOk(s, pend, uid, a) && SameLedger(s', s)
    ensures CommittingOk(s', pend, uid, a)
  {
  }

  lemma WriteActsOk(
      store: map<NodeName, NodeObject>, a: Allocations, n: NodeName, op: Op, p: Phase, write: WriteOutcome,
      e: Effect)
    requires n in store ==> NodeOk(store[n].spec, PendingOn(a, n))
    requires n !in store ==> PendingOn(a, n) == map[]
    requires AllRtCpu(PendingOn(a, n))
    requires PhaseOk(store, n, PendingOn(a, n), op, p)
    requires Acts(store, a, n, op, p, WriteCommit(write), e)
    ensures EffectOk(store, a, n, op, e)
  {
    hide NodeOk, CommittingOk, PendingOn, Committed;
    SameLedgerNodeOk(store[n].spec, p.spec, PendingOn(a, n));
    CommitOk(p.spec, PendingOn(a, n), op.uid, p.a);
  }

  lemma CommitActsOk(
      store: map<NodeName, NodeObject>, a: Allocations, n: NodeName, op: Op, p: Phase, ev: Event, e: Effect)
    requires n in store ==> NodeOk(store[n].spec, PendingOn(a, n))
    requires n !in store ==> PendingOn(a, n) == map[]
    requires AllRtCpu(PendingOn(a, n))
    requires PhaseOk(store, n, PendingOn(a, n), op, p)
    requires Acts(store, a, n, op, p, ev, e)
    requires ev.TakeReservation? || ev.WriteCommit? || ev.Forget?
    ensures EffectOk(store, a, n, op, e)
  {
    hide NodeOk, PhaseOk, EffectOk;
    match ev
    case TakeReservation => TakeActsOk(store, a, n, op, p, e);
    case WriteCommit(write) => WriteActsOk(store, a, n, op, p, write, e);
    case Forget => ForgetActsOk(store, a, n, op, p, e);
  }

  lemma ForgetActsOk(
      store: map<NodeName, NodeObject>, a: Allocations, n: NodeName, op: Op, p: Phase, e: Effect)
    requires n in store ==> NodeOk(store[n].spec, PendingOn(a, n))
    requires n !in store ==> PendingOn(a, n) == map[]
    requires AllRtCpu(PendingOn(a, n))
    requires PhaseOk(store, n, PendingOn(a, n), op, p)
    requires Acts(store, a, n, op, p, Forget, e)
    ensures EffectOk(store, a, n, op, e)
  {
    hide NodeOk;
    PendingDropped(store, a, n, op.uid);
  }

  lemma ReleaseActsOk(
      store: map<NodeName, NodeObject>, a: Allocations, n: NodeName, op: Op, p: Phase, ev: Event, e: Effect)
    requires n in store ==> NodeOk(store[n].spec, PendingOn(a, n))
    requires n !in store ==> PendingOn(a, n) == map[]
    requires AllRtCpu(PendingOn(a, n))
    requires PhaseOk(store, n, PendingOn(a, n), op, p)
    requires Acts(store, a, n, op, p, ev, e)
    requires ev.DropPending? || ev.WriteRelease?
    ensures EffectOk(store, a, n, op, e)
  {
    hide NodeOk, LedgerExact;
    match ev
    case DropPending =>
      PendingDropped(store, a, n, op.uid);
    case WriteRelease(write) =>
      SameLedgerNodeOk(store[n].spec, p.spec, PendingOn(a, n));
      NodeOkRelease(p.spec, PendingOn(a, n), op.uid);
  }

  /** Every step inside a critical section keeps its own node in order and only shrinks what is pending elsewhere. */
  lemma ActsOk(store: map<NodeName, NodeObject>, a: Allocations, n: NodeName, op: Op, p: Phase, ev: Event, e: Effect)
    requires n in store ==> NodeOk(store[n].spec, PendingOn(a, n))
    requires n !in store ==> PendingOn(a, n) == map[]
    requires AllRtCpu(PendingOn(a, n))
    requires PhaseOk(store, n, PendingOn(a, n), op, p)
    requires Acts(store, a, n, op, p, ev, e)
    ensures EffectOk(store, a, n, op, e)
  {
    hide NodeOk;
    if ev.FetchForProbe? || ev.Visit? || ev.CallVisitor? || ev.Pack? || ev.SetOne? {
      hide *;
      ProbeActsOk(store, a, n, op, p, ev, e);
    } else if ev.TakeReservation? || ev.WriteCommit? || ev.Forget? {
      hide *;
      CommitActsOk(store, a, n, op, p, ev, e);
    } else if ev.DropPending? || ev.WriteRelease? {
      hide *;
      ReleaseActsOk(store, a, n, op, p, ev, e);
    }
  }

  lemma OverlayStarts(spec: NodeSpec, pend: Claims)
    requires NodeOk(spec, pend)
    ensures OverlayOk(spec, pend, spec.claims, Ledger(spec), {})
  {
  }

  lemma SameLedgerRecording(s: NodeSpec, s': NodeSpec, pend: Claims, left: Claims)
    requires RecordingOk(s, pend, left) && SameLedger(s', s)
    ensures RecordingOk(s', pend, left)
  {
  }

  lemma CommitOk(spec: NodeSpec, pend: Claims, uid: Uid, a: AllocatedCpuset)
    requires NodeOk(spec, pend) && CommittingOk(spec, pend, uid, a)
    ensures NodeOk(Committed(spec, uid, a), pend)
  {
    NodeOkCommit(spec, pend, uid, a);
  }

  // ----- Every interleaving -----

  lemma InsideStepNodesOk(w: World, t: Tid, ev: Event, e: Effect, w': World)
    requires WorldInv(w) && t in w.threads && ActsInside(w, t, ev, e, w')
    requires EffectOk(w.store, w.allocations, w.threads[t].node, w.threads[t].op, e)
    ensures NodesOk(w')
  {
    hide NodeOk, PhaseOk, Acts, MutexesOk, PhasesOk, PendingOn;
    var n := w.threads[t].node;
    forall m | m in w'.store
      ensures NodeOk(w'.store[m].spec, PendingOn(w'.allocations, m))
    {
      if m != n {
        NodeOkShrinks(w.store[m].spec, PendingOn(w.allocations, m), PendingOn(w'.allocations, m));
      }
    }
    EffectEntriesOk(w, n, w.threads[t].op, e);
  }

  lemma EffectEntriesOk(w: World, n: NodeName, op: Op, e: Effect)
    requires NodesOk(w) && EffectOk(w.store, w.allocations, n, op, e)
    ensures EntriesOk(e.store, e.allocations)
  {
    hide NodeOk, PhaseOk, PendingOn;
    forall u, m | u in e.allocations && m in e.allocations[u]
      ensures m in e.store && e.allocations[u][m].RtCpu?
    {
      EntryIsPending(e.allocations, u, m);
      NoPendingOutside(w, m);
      assert u in PendingOn(e.allocations, m);
      if m != n {
        assert SubMap(PendingOn(e.allocations, m), PendingOn(w.allocations, m));
      }
    }
  }

  lemma EntryIsPending(a: Allocations, u: Uid, n: NodeName)
    requires u in a && n in a[u]
    ensures u in PendingOn(a, n) && PendingOn(a, n)[u] == a[u][n]
  {
  }

  lemma InsideStepPhasesOk(w: World, t: Tid, ev: Event, e: Effect, w': World)
    requires WorldInv(w) && t in w.threads && ActsInside(w, t, ev, e, w')
    requires EffectOk(w.store, w.allocations, w.threads[t].node, w.threads[t].op, e)
    ensures PhasesOk(w')
  {
    hide NodeOk, PhaseOk, Acts;
    var n := w.threads[t].node;
    forall t' | t' in w'.threads && w'.threads[t'].Inside?
      ensures PhaseOk(
                w'.store, w'.threads[t'].node, PendingOn(w'.allocations, w'.threads[t'].node), w'.threads[t'].op,
                w'.threads[t'].phase)
    {
      if t' != t {
        var th' := w.threads[t'];
        if th'.node == n {
          MutualExclusion(w, t, t');
          assert false;
        }
        PhaseStable(
          w.store, th'.node, PendingOn(w.allocations, th'.node), PendingOn(w'.allocations, th'.node), th'.op,
          th'.phase);
        PhaseElsewhere(w.store, w'.store, th'.node, PendingOn(w'.allocations, th'.node), th'.op, th'.phase);
      }
    }
  }

  lemma InsideStepKeepsInv(w: World, t: Tid, ev: Event, e: Effect, w': World)
    requires WorldInv(w) && t in w.threads && ActsInside(w, t, ev, e, w')
    ensures WorldInv(w')
  {
    hide NodeOk, PhaseOk, Acts, NodesOk, PhasesOk, EffectOk;
    var th := w.threads[t];
    NoPendingOutside(w, th.node);
    PhaseAt(w, t);
    ActsOk(w.store, w.allocations, th.node, th.op, th.phase, ev, e);
    InsideStepNodesOk(w, t, ev, e, w');
    InsideStepPhasesOk(w, t, ev, e, w');
  }

  lemma PhaseAt(w: World, t: Tid)
    requires PhasesOk(w) && t in w.threads && w.threads[t].Inside?
    ensures PhaseOk(
              w.store, w.threads[t].node, PendingOn(w.allocations, w.threads[t].node), w.threads[t].op,
              w.threads[t].phase)
  {
  }

  lemma NoPendingOutside(w: World, n: NodeName)
    requires NodesOk(w)
    ensures n in w.store ==> NodeOk(w.store[n].spec, PendingOn(w.allocations, n))
    ensures n !in w.store ==> PendingOn(w.allocations, n) == map[]
    ensures AllRtCpu(PendingOn(w.allocations, n))
  {
  }

  /** A phase does not depend on other nodes' objects, nor on what the plugin owns of its own. */
  lemma PhaseElsewhere(
      store: map<NodeName, NodeObject>, store': map<NodeName, NodeObject>, n: NodeName, pend: Claims, op: Op,
      p: Phase)
    requires PhaseOk(store, n, pend, op, p) && store.Keys <= store'.Keys
    requires n in store ==> SameLedger(store[n].spec, store'[n].spec)
    ensures PhaseOk(store', n, pend, op, p)
  {
  }

  lemma EnvironmentKeepsInv(w: World, n: NodeName, obj: NodeObject, w': World)
    requires WorldInv(w) && Environment(w, n, obj, w')
    ensures WorldInv(w')
  {
    hide MutexesOk, NodesOk, PhasesOk, GoodBase, Base;
    EnvironmentNodesOk(w, n, obj, w');
    PhasesElsewhere(w, w');
    SameMutexesOk(w, w');
  }

  lemma SameMutexesOk(w: World, w': World)
    requires MutexesOk(w) && w'.threads == w.threads && w'.submutex == w.submutex && w'.owner == w.owner
    ensures MutexesOk(w')
  {
    hide GoodBatch;
  }

  lemma EnvironmentNodesOk(w: World, n: NodeName, obj: NodeObject, w': World)
    requires NodesOk(w) && Environment(w, n, obj, w')
    ensures NodesOk(w')
  {
    hide NodeOk, GoodBase, Base, Ledger, PendingOn;
    NoPendingOutside(w, n);
    if n in w.store {
      SameLedgerNodeOk(w.store[n].spec, obj.spec, PendingOn(w.allocations, n));
    } else {
      NewNodeOk(obj.spec);
    }
  }

  lemma PhasesElsewhere(w: World, w': World)
    requires PhasesOk(w) && w'.threads == w.threads && w'.allocations == w.allocations
    requires w.store.Keys <= w'.store.Keys && forall n <- w.store :: SameLedger(w.store[n].spec, w'.store[n].spec)
    ensures PhasesOk(w')
  {
  }

  lemma EnteredOk(store: map<NodeName, NodeObject>, n: NodeName, pend: Claims, op: Op)
    requires op.ProbeOp? ==> GoodBatch(op.reqs)
    ensures PhaseOk(store, n, pend, op, Entered)
  {
  }

  lemma MutexStepMutexesOk(w: World, t: Tid, ev: Event, w': World)
    requires MutexesOk(w) && Step(w, t, ev, w') && (ev.GetMutex? || ev.Lock? || ev.Unlock?)
    ensures MutexesOk(w') && w'.store == w.store && w'.allocations == w.allocations
    ensures ev.Lock? && w.threads[t].op.ProbeOp? ==> GoodBatch(w.threads[t].op.reqs)
  {
    hide GoodBatch;
  }

  lemma MutexStepPhasesOk(w: World, t: Tid, ev: Event, w': World)
    requires PhasesOk(w) && Step(w, t, ev, w') && (ev.GetMutex? || ev.Lock? || ev.Unlock?)
    requires ev.Lock? && w.threads[t].op.ProbeOp? ==> GoodBatch(w.threads[t].op.reqs)
    ensures PhasesOk(w')
  {
    hide PhaseOk, PendingOn, GoodBatch;
    if ev.Lock? {
      var th := w.threads[t];
      EnteredOk(w.store, th.node, PendingOn(w.allocations, th.node), th.op);
    }
  }

  lemma SameNodesOk(w: World, w': World)
    requires NodesOk(w) && w'.store == w.store && w'.allocations == w.allocations
    ensures NodesOk(w')
  {
    hide NodeOk, EntriesOk;
  }

  lemma MutexStepKeepsInv(w: World, t: Tid, ev: Event, w': World)
    requires WorldInv(w) && Step(w, t, ev, w') && (ev.GetMutex? || ev.Lock? || ev.Unlock?)
    ensures WorldInv(w')
  {
    hide MutexesOk, NodesOk, PhasesOk, Step;
    MutexStepMutexesOk(w, t, ev, w');
    MutexStepPhasesOk(w, t, ev, w');
    SameNodesOk(w, w');
  }

  lemma MovesKeepInv(w: World, w': World)
    requires WorldInv(w) && Moves(w, w')
    ensures WorldInv(w')
  {
    var m :| Makes(w, m, w');
    MakesKeepsInv(w, m, w');
  }

  lemma MakesKeepsInv(w: World, m: Move, w': World)
    requires WorldInv(w) && Makes(w, m, w')
    ensures WorldInv(w')
  {
    hide WorldInv, Acts, GetsMutex, Locks, Unlocks;
    match m
    case ByThread(t, ev) =>
      if ev.GetMutex? || ev.Lock? || ev.Unlock? {
        MutexStepKeepsInv(w, t, ev, w');
      } else {
        var e :| ActsInside(w, t, ev, e, w');
        InsideStepKeepsInv(w, t, ev, e, w');
      }
    case ByPlugin(n, obj) =>
      EnvironmentKeepsInv(w, n, obj, w');
  }

  lemma {:induction false} InterleavingKeepsInv(ws: seq<World>, i: nat)
    requires Interleaved(ws) && i < |ws|
    ensures WorldInv(ws[i])
  {
    if i > 0 {
      InterleavingKeepsInv(ws, i - 1);
      MovesKeepInv(ws[i - 1], ws[i]);
    }
  }

  /**
   Capacity safety under every interleaving: however the steps of operations on different
   nodes alternate, on every CPU the base utilisation plus the shares of everything
   committed or pending on the node stays below the threshold, and no two operations are
   inside the same node.
   */
  lemma InterleavedCapacity(ws: seq<World>, i: nat, n: NodeName, k: CpuId)
    requires Interleaved(ws) && i < |ws|
    requires n in ws[i].store && k in Base(ws[i].store[n].spec)
    ensures var spec := ws[i].store[n].spec;
            Base(spec)[k] + Load(PendingOn(ws[i].allocations, n) + spec.claims, k) < THRESHOLD
    ensures forall t <- ws[i].threads, t' <- ws[i].threads ::
              ws[i].threads[t].Inside? && ws[i].threads[t'].Inside?
              && ws[i].threads[t].node == ws[i].threads[t'].node ==>
                t == t'
  {
    InterleavingKeepsInv(ws, i);
    NoPendingOutside(ws[i], n);
  }

  /**
   In every interleaving a probe that has visited all pending claims goes by a ledger that covers
   the node's whole load.
   */
  lemma ProbeSeesWholeLoad(ws: seq<World>, i: nat, t: Tid, k: CpuId)
    requires Interleaved(ws) && i < |ws| && t in ws[i].threads && ws[i].threads[t].Inside?
    requires var th := ws[i].threads[t];
             th.phase.Overlaying? && PendingOn(ws[i].allocations, th.node).Keys <= th.phase.seen && k in th.phase.util
    ensures var th := ws[i].threads[t];
            && th.node in ws[i].store
            && var spec := ws[i].store[th.node].spec;
               && k in Base(spec)
               && th.phase.util[k] >= Base(spec)[k] + Load(PendingOn(ws[i].allocations, th.node) + spec.claims, k)
  {
    InterleavingKeepsInv(ws, i);
    var th := ws[i].threads[t];
    OverlayCovers(
      th.phase.spec, PendingOn(ws[i].allocations, th.node), th.phase.claims, th.phase.util, th.phase.seen, k);
  }
}
