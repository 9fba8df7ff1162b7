/**
 Claim requests, the reservations made for them, and the invariant of a single node:
 its ledger is the sum of its claims, and base load, committed claims and pending
 reservations together stay below the threshold on every CPU.
 */
module Reservation {
  import opened Nas
  import opened Demand
  import opened Partition
  import opened Packing

  datatype Request = Request(uid: Uid, count: nat, runtime: int, period: int)

  /** What claim parameters are taken to satisfy; the driver itself checks only the count. */
  predicate GoodRequest(r: Request) {
    r.count >= 1 && r.runtime >= 0 && r.period > 0
  }

  predicate GoodBatch(reqs: seq<Request>) {
    && (forall i :: 0 <= i < |reqs| ==> GoodRequest(reqs[i]))
    && (forall i, j :: 0 <= i < j < |reqs| ==> reqs[i].uid != reqs[j].uid)
  }

  function AskOf(r: Request): Ask {
    Ask(r.count, if r.period == 0 then 0 else Share(r.runtime, r.period))
  }

  function Asks(reqs: seq<Request>): (asks: seq<Ask>)
    ensures |asks| == |reqs| && forall i :: 0 <= i < |asks| ==> asks[i] == AskOf(reqs[i])
  {
    seq(|reqs|, i requires 0 <= i < |reqs| => AskOf(reqs[i]))
  }

  function Uids(reqs: seq<Request>): (uids: seq<Uid>)
    ensures |uids| == |reqs| && forall i :: 0 <= i < |uids| ==> uids[i] == reqs[i].uid
  {
    seq(|reqs|, i requires 0 <= i < |reqs| => reqs[i].uid)
  }

  /** The requests of a batch that `known` does not already serve, in order. */
  function Todo(reqs: seq<Request>, known: Claims): seq<Request> {
    if reqs == [] then []
    else
      var last := reqs[|reqs| - 1];
      Todo(reqs[..|reqs| - 1], known) + if last.uid in known then [] else [last]
  }

  function Devices(c: seq<CpuId>, r: Request): (cpus: seq<AllocatedCpu>)
    ensures |cpus| == |c|
    ensures forall i :: 0 <= i < |c| ==> cpus[i] == AllocatedCpu(c[i], r.runtime, r.period)
  {
    seq(|c|, i requires 0 <= i < |c| => AllocatedCpu(c[i], r.runtime, r.period))
  }

  /** The reservations that serve `todo` on the chosen CPUs. */
  function NewClaims(todo: seq<Request>, choices: seq<seq<CpuId>>, cgroup: string): Claims
    requires |choices| == |todo|
  {
    if todo == [] then map[]
    else
      var i := |todo| - 1;
      NewClaims(todo[..i], choices[..i], cgroup)[todo[i].uid := RtCpu(Devices(choices[i], todo[i]), cgroup)]
  }

  /** `a` reserves exactly what `r` asked for. */
  ghost predicate Serves(a: AllocatedCpuset, r: Request) {
    && a.RtCpu?
    && |a.cpuset| == r.count
    && Distinct(IdSeq(a.cpuset))
    && forall c <- a.cpuset :: c.runtime == r.runtime && c.period == r.period
  }

  lemma {:induction false} TodoProperties(reqs: seq<Request>, known: Claims)
    requires GoodBatch(reqs)
    ensures GoodBatch(Todo(reqs, known))
    ensures forall r :: r in Todo(reqs, known) <==> r in reqs && r.uid !in known
  {
    if reqs != [] {
      var front, last := reqs[..|reqs| - 1], reqs[|reqs| - 1];
      TodoProperties(front, known);
      assert reqs == front + [last];
    }
  }

  /** The requests left stand in the order of the batch. */
  lemma {:induction false} TodoKeepsOrder(reqs: seq<Request>, known: Claims) returns (p: seq<nat>)
    ensures |p| == |Todo(reqs, known)|
    ensures forall i :: 0 <= i < |p| ==> p[i] < |reqs| && reqs[p[i]] == Todo(reqs, known)[i]
    ensures forall i, j :: 0 <= i < j < |p| ==> p[i] < p[j]
  {
    p := [];
    if reqs != [] {
      var n := |reqs| - 1;
      p := TodoKeepsOrder(reqs[..n], known);
      if reqs[n].uid !in known {
        p := p + [n];
      }
    }
  }

  // ----- Packing as a change of claims -----

  lemma {:induction false} ShareOnDevices(c: seq<CpuId>, r: Request, k: CpuId)
    requires r.period > 0 && Distinct(c)
    ensures ShareOn(Devices(c, r), k) == if k in c then Share(r.runtime, r.period) else 0
  {
    if c != [] {
      var front := c[..|c| - 1];
      assert Devices(c, r)[..|c| - 1] == Devices(front, r);
      ShareOnDevices(front, r, k);
      assert c == front + [c[|c| - 1]];
    }
  }

  lemma DevicesGood(c: seq<CpuId>, r: Request, cgroup: string, keys: set<CpuId>)
    requires GoodRequest(r) && Distinct(c) && Elements(c) <= keys
    ensures GoodCpuset(RtCpu(Devices(c, r), cgroup), keys)
    ensures |c| == r.count ==> Serves(RtCpu(Devices(c, r), cgroup), r)
  {
  }

  /** Placing a claim on the ledger and charging its reservation are the same thing. */
  lemma PlaceIsCharge(u: UtilMap, c: seq<CpuId>, r: Request)
    requires GoodRequest(r) && Distinct(c) && Elements(c) <= u.Keys
    ensures Charge(u, Devices(c, r)) == Place(u, c, Share(r.runtime, r.period))
  {
    DevicesGood(c, r, "", u.Keys);
    assert GoodCpuset(RtCpu(Devices(c, r), ""), u.Keys);
    ChargeAdds(u, Devices(c, r));
    forall k | k in u
      ensures u[k] + ShareOn(Devices(c, r), k) == Place(u, c, Share(r.runtime, r.period))[k]
    {
      ShareOnDevices(c, r, k);
    }
  }

  lemma {:induction false} NewClaimsKeys(todo: seq<Request>, choices: seq<seq<CpuId>>, cgroup: string)
    requires |choices| == |todo|
    ensures NewClaims(todo, choices, cgroup).Keys == Elements(Uids(todo))
  {
    if todo != [] {
      var i := |todo| - 1;
      NewClaimsKeys(todo[..i], choices[..i], cgroup);
      assert Uids(todo) == Uids(todo[..i]) + [todo[i].uid];
    }
  }

  /** Every new reservation is on distinct CPUs of the node and serves its request exactly. */
  lemma {:induction false} NewClaimsServe(
      keys: set<CpuId>, todo: seq<Request>, choices: seq<seq<CpuId>>, cgroup: string)
    requires GoodBatch(todo) && |choices| == |todo|
    requires forall i :: 0 <= i < |todo| ==>
               Distinct(choices[i]) && Elements(choices[i]) <= keys && |choices[i]| == todo[i].count
    ensures GoodClaims(NewClaims(todo, choices, cgroup), keys)
    ensures forall i :: 0 <= i < |todo| ==>
              var made := NewClaims(todo, choices, cgroup);
              todo[i].uid in made && Serves(made[todo[i].uid], todo[i])
  {
    if todo != [] {
      var i := |todo| - 1;
      NewClaimsServe(keys, todo[..i], choices[..i], cgroup);
      DevicesGood(choices[i], todo[i], cgroup, keys);
      var before := NewClaims(todo[..i], choices[..i], cgroup);
      GoodClaimsInsert(before, todo[i].uid, RtCpu(Devices(choices[i], todo[i]), cgroup), keys);
      forall j | 0 <= j < i
        ensures var made := NewClaims(todo, choices, cgroup);
                todo[j].uid in made && Serves(made[todo[j].uid], todo[j])
      {
        assert todo[..i][j] == todo[j];
      }
    }
  }

  /**
   Packing on top of the claims `known` amounts to adding the new reservations to them:
   the ledger the scheduler updates CPU by CPU is the recomputed sum.
   */
  lemma {:induction false} PackingAddsClaims(
      b: UtilMap, known: Claims, todo: seq<Request>, choices: seq<seq<CpuId>>, cgroup: string)
    requires GoodBatch(todo) && forall i :: 0 <= i < |todo| ==> todo[i].uid !in known
    requires PackedBy(AddLoad(b, known), Asks(todo), choices)
    ensures After(AddLoad(b, known), Asks(todo), choices) == AddLoad(b, known + NewClaims(todo, choices, cgroup))
  {
    if todo == [] {
      assert known + map[] == known;
    } else {
      var i := |todo| - 1;
      assert Asks(todo)[..i] == Asks(todo[..i]);
      PackingAddsClaims(b, known, todo[..i], choices[..i], cgroup);
      NewClaimsKeys(todo[..i], choices[..i], cgroup);
      assert Asks(todo)[i] == AskOf(todo[i]);
      PlacingAddsClaim(b, known, NewClaims(todo[..i], choices[..i], cgroup), todo[i], choices[i], cgroup);
    }
  }

  /** No reservation is the zero value. */
  ghost predicate AllRtCpu(m: Claims) {
    forall u <- m :: m[u].RtCpu?
  }

  lemma {:induction false} MadeRtCpu(todo: seq<Request>, choices: seq<seq<CpuId>>, cgroup: string)
    requires |choices| == |todo|
    ensures AllRtCpu(NewClaims(todo, choices, cgroup))
  {
    if todo != [] {
      MadeRtCpu(todo[..|todo| - 1], choices[..|todo| - 1], cgroup);
    }
  }

  lemma {:induction false} MadeUnderCgroup(todo: seq<Request>, choices: seq<seq<CpuId>>, cgroup: string)
    requires |choices| == |todo|
    ensures forall u <- NewClaims(todo, choices, cgroup) ::
              NewClaims(todo, choices, cgroup)[u].RtCpu? && NewClaims(todo, choices, cgroup)[u].cgroupUID == cgroup
  {
    if todo != [] {
      MadeUnderCgroup(todo[..|todo| - 1], choices[..|todo| - 1], cgroup);
    }
  }

  lemma PlacingAddsClaim(b: UtilMap, known: Claims, before: Claims, r: Request, c: seq<CpuId>, cgroup: string)
    requires GoodRequest(r) && r.uid !in known && r.uid !in before
    requires Placement(AddLoad(b, known + before), Share(r.runtime, r.period), r.count, c)
    ensures Place(AddLoad(b, known + before), c, Share(r.runtime, r.period))
         == AddLoad(b, known + before[r.uid := RtCpu(Devices(c, r), cgroup)])
  {
    var a := RtCpu(Devices(c, r), cgroup);
    PlacementElements(AddLoad(b, known + before), Share(r.runtime, r.period), r.count, c);
    DevicesGood(c, r, cgroup, b.Keys);
    PlaceIsCharge(AddLoad(b, known + before), c, r);
    AddLoadInsert(b, known + before, r.uid, a);
    UnionUpdate(known, before, r.uid, a);
  }

  lemma PackingFits(b: UtilMap, known: Claims, todo: seq<Request>, choices: seq<seq<CpuId>>, cgroup: string)
    requires GoodBatch(todo) && forall i :: 0 <= i < |todo| ==> todo[i].uid !in known
    requires PackedBy(AddLoad(b, known), Asks(todo), choices) && Fits(b, known)
    ensures Fits(b, known + NewClaims(todo, choices, cgroup))
  {
    PackingAddsClaims(b, known, todo, choices, cgroup);
    PackingKeepsBound(AddLoad(b, known), Asks(todo), choices);
    assert forall k <- b :: AddLoad(b, known + NewClaims(todo, choices, cgroup))[k] < THRESHOLD;
  }

  // ----- The invariant of one node -----

  ghost function Base(spec: NodeSpec): UtilMap {
    InitUtil(spec.allocatable)
  }

  /** The ledger is the base load plus the committed claims. */
  ghost predicate LedgerExact(spec: NodeSpec) {
    Ledger(spec) == AddLoad(Base(spec), spec.claims)
  }

  /** Committed claims and pending reservations of a node, each claim once. */
  ghost function Everything(spec: NodeSpec, pend: Claims): Claims {
    pend + spec.claims
  }

  /** The last conjunct but one says that a node with claims has its ledger written down. */
  ghost predicate NodeOk(spec: NodeSpec, pend: Claims) {
    && GoodBase(Base(spec))
    && GoodClaims(Everything(spec, pend), Base(spec).Keys)
    && GoodClaims(pend, Base(spec).Keys)
    && LedgerExact(spec)
    && (spec.claims != map[] ==> spec.util == Ledger(spec))
    && Fits(Base(spec), Everything(spec, pend))
  }

  /** Losing pending reservations keeps a node in order. */
  lemma NodeOkShrinks(spec: NodeSpec, pend: Claims, pend': Claims)
    requires NodeOk(spec, pend) && SubMap(pend', pend)
    ensures NodeOk(spec, pend')
  {
    assert SubMap(Everything(spec, pend'), Everything(spec, pend));
    FitsMonotone(Base(spec), Everything(spec, pend'), Everything(spec, pend));
  }

  /** The object written by a commit of `a` for `uid`. */
  function Committed(spec: NodeSpec, uid: Uid, a: AllocatedCpuset): NodeSpec {
    spec.(claims := spec.claims[uid := a], util := Charge(Ledger(spec), a.Cpus()))
  }

  /** The object written by a release of `uid`; unlike the others this operation does not initialise the ledger. */
  function Released(spec: NodeSpec, uid: Uid): NodeSpec
    requires uid in spec.claims
  {
    spec.(claims := spec.claims - {uid}, util := DischargeListed(spec.util, spec.claims[uid].Cpus()))
  }

  /** A ledger once written and still empty belongs to a node without CPUs. */
  lemma StoredLedger(spec: NodeSpec)
    requires spec.util.Keys == Base(spec).Keys
    ensures Ledger(spec) == spec.util
  {
  }

  /** Commit writes a ledger that agrees with the claims it writes. */
  lemma CommittedExact(spec: NodeSpec, uid: Uid, a: AllocatedCpuset)
    requires LedgerExact(spec) && uid !in spec.claims && GoodCpuset(a, Base(spec).Keys)
    ensures LedgerExact(Committed(spec, uid, a))
    ensures Committed(spec, uid, a).util == Ledger(Committed(spec, uid, a))
  {
    AddLoadInsert(Base(spec), spec.claims, uid, a);
    StoredLedger(Committed(spec, uid, a));
  }

  /** Release writes a ledger that agrees with the claims it leaves; its clamp never fires. */
  lemma ReleasedExact(spec: NodeSpec, uid: Uid)
    requires GoodBase(Base(spec)) && GoodClaims(spec.claims, Base(spec).Keys)
    requires LedgerExact(spec) && uid in spec.claims && spec.util == Ledger(spec)
    ensures LedgerExact(Released(spec, uid))
    ensures Released(spec, uid).util == Ledger(Released(spec, uid))
    ensures DischargeListed(Ledger(spec), spec.claims[uid].Cpus()) == Discharge(Ledger(spec), spec.claims[uid].Cpus())
    ensures Released(spec, uid).util.Keys == Ledger(spec).Keys
    ensures forall k <- Ledger(spec) ::
              Released(spec, uid).util[k] == Ledger(spec)[k] - ShareOn(spec.claims[uid].Cpus(), k)
  {
    var cpus := spec.claims[uid].Cpus();
    AddLoadRemove(Base(spec), spec.claims, uid);
    StoredLedger(Released(spec, uid));
    forall k | k in Base(spec)
      ensures Load(spec.claims, k) == ShareOn(cpus, k) + Load(spec.claims - {uid}, k)
    {
      LoadRemove(spec.claims, uid, k);
    }
  }

  /**
   Turning a reservation into a committed claim keeps the node in order even though the
   threshold is not looked at again, provided the bound covered the reservation.
   */
  lemma NodeOkCommit(spec: NodeSpec, pend: Claims, uid: Uid, a: AllocatedCpuset)
    requires NodeOk(spec, pend) && uid !in spec.claims && GoodCpuset(a, Base(spec).Keys)
    requires Fits(Base(spec), Everything(spec, pend)[uid := a])
    ensures NodeOk(Committed(spec, uid, a), pend)
  {
    CommittedClaimsGood(spec, pend);
    CommittedExact(spec, uid, a);
    EverythingCommitted(spec, pend, uid, a);
  }

  lemma UnionUpdate(m: Claims, m': Claims, uid: Uid, a: AllocatedCpuset)
    ensures m + m'[uid := a] == (m + m')[uid := a]
  {
  }

  lemma EverythingCommitted(spec: NodeSpec, pend: Claims, uid: Uid, a: AllocatedCpuset)
    requires GoodClaims(Everything(spec, pend), Base(spec).Keys) && GoodCpuset(a, Base(spec).Keys)
    ensures Everything(Committed(spec, uid, a), pend) == Everything(spec, pend)[uid := a]
    ensures GoodClaims(Everything(Committed(spec, uid, a), pend), Base(spec).Keys)
  {
    UnionUpdate(pend, spec.claims, uid, a);
    GoodClaimsInsert(Everything(spec, pend), uid, a, Base(spec).Keys);
  }

  lemma CommittedClaimsGood(spec: NodeSpec, pend: Claims)
    requires GoodClaims(Everything(spec, pend), Base(spec).Keys)
    ensures GoodClaims(spec.claims, Base(spec).Keys)
  {
  }

  lemma NodeOkRelease(spec: NodeSpec, pend: Claims, uid: Uid)
    requires NodeOk(spec, pend) && uid in spec.claims && uid !in pend
    ensures NodeOk(Released(spec, uid), pend)
  {
    CommittedClaimsGood(spec, pend);
    ReleasedExact(spec, uid);
    UnionRemove(pend, spec.claims, uid);
    FitsMonotone(Base(spec), Everything(spec, pend) - {uid}, Everything(spec, pend));
  }

  lemma UnionRemove(m: Claims, m': Claims, uid: Uid)
    requires uid !in m
    ensures m + (m' - {uid}) == m + m' - {uid}
  {
  }

  /** Release undoes commit: the claims and the ledger are what they were. */
  lemma ReleaseUndoesCommit(spec: NodeSpec, uid: Uid, a: AllocatedCpuset)
    requires GoodBase(Base(spec)) && GoodClaims(spec.claims, Base(spec).Keys)
    requires LedgerExact(spec) && uid !in spec.claims && GoodCpuset(a, Base(spec).Keys)
    ensures Released(Committed(spec, uid, a), uid).claims == spec.claims
    ensures Ledger(Released(Committed(spec, uid, a), uid)) == Ledger(spec)
  {
    CommittedExact(spec, uid, a);
    ReleasedExact(Committed(spec, uid, a), uid);
    assert spec.claims[uid := a] - {uid} == spec.claims;
  }

  // ----- Probing -----

  /** The claims and the ledger a probe works on: pending reservations laid over committed ones. */
  ghost function OverlayUtil(spec: NodeSpec, pend: Claims): UtilMap {
    AddLoad(Ledger(spec), pend - spec.claims.Keys)
  }

  lemma UnionPick(m: Claims, m': Claims, u: Uid)
    requires u in m && u !in m'
    ensures m == (m - {u})[u := m[u]]
    ensures m + m' == (m - {u} + m')[u := m[u]]
  {
  }

  lemma {:induction false} LoadUnion(m: Claims, m': Claims, k: CpuId)
    requires forall u <- m :: u !in m'
    ensures Load(m + m', k) == Load(m, k) + Load(m', k)
    decreases |m|
  {
    if m == map[] {
      assert m + m' == m';
    } else {
      var u := Pick(m);
      LoadUnion(m - {u}, m', k);
      LoadInsert(m - {u} + m', u, m[u], k);
      LoadInsert(m - {u}, u, m[u], k);
      UnionPick(m, m', u);
    }
  }

  lemma UnionReordered(m: Claims, m': Claims)
    ensures m + m' == m' + (m - m'.Keys)
  {
  }

  /** The overlay's ledger accounts for everything committed or pending on the node. */
  lemma OverlayExact(spec: NodeSpec, pend: Claims)
    requires LedgerExact(spec)
    ensures OverlayUtil(spec, pend) == AddLoad(Base(spec), Everything(spec, pend))
  {
    var extra := pend - spec.claims.Keys;
    UnionReordered(pend, spec.claims);
    forall k | k in Base(spec)
      ensures Load(Everything(spec, pend), k) == Load(spec.claims, k) + Load(extra, k)
    {
      LoadUnion(spec.claims, extra, k);
    }
  }

  /** What a successful probe of a node adds to its pending reservations. */
  ghost function Reserved(
      spec: NodeSpec, pend: Claims, reqs: seq<Request>, choices: seq<seq<CpuId>>, cgroup: string): Claims
    requires |choices| == |Todo(reqs, Everything(spec, pend))|
  {
    NewClaims(Todo(reqs, Everything(spec, pend)), choices, cgroup)
  }

  lemma TodoOf(spec: NodeSpec, pend: Claims, reqs: seq<Request>)
    requires GoodBatch(reqs)
    ensures var todo := Todo(reqs, Everything(spec, pend));
            GoodBatch(todo) && forall i :: 0 <= i < |todo| ==> todo[i].uid !in Everything(spec, pend)
  {
    var todo := Todo(reqs, Everything(spec, pend));
    TodoProperties(reqs, Everything(spec, pend));
    assert forall i :: 0 <= i < |todo| ==> todo[i] in todo;
  }

  lemma ReservedIsNew(spec: NodeSpec, pend: Claims, reqs: seq<Request>, choices: seq<seq<CpuId>>, cgroup: string)
    requires GoodBatch(reqs)
    requires |choices| == |Todo(reqs, Everything(spec, pend))|
    ensures forall u <- Reserved(spec, pend, reqs, choices, cgroup) :: u !in Everything(spec, pend)
    ensures Everything(spec, pend + Reserved(spec, pend, reqs, choices, cgroup))
         == Everything(spec, pend) + Reserved(spec, pend, reqs, choices, cgroup)
  {
    var todo := Todo(reqs, Everything(spec, pend));
    TodoOf(spec, pend, reqs);
    NewClaimsKeys(todo, choices, cgroup);
    UnionDisjoint(pend, spec.claims, NewClaims(todo, choices, cgroup));
  }

  lemma UnionDisjoint(m: Claims, m': Claims, m'': Claims)
    requires forall u <- m'' :: u !in m + m'
    ensures m + m'' + m' == m + m' + m''
  {
  }

  /**
   The utilisation map a successful probe stores is base plus everything committed or
   pending on the node afterwards, and stays below the threshold.
   */
  lemma ProbeExact(spec: NodeSpec, pend: Claims, reqs: seq<Request>, choices: seq<seq<CpuId>>, cgroup: string)
    requires NodeOk(spec, pend) && GoodBatch(reqs)
    requires PackedBy(OverlayUtil(spec, pend), Asks(Todo(reqs, Everything(spec, pend))), choices)
    ensures var pend' := pend + Reserved(spec, pend, reqs, choices, cgroup);
            && After(OverlayUtil(spec, pend), Asks(Todo(reqs, Everything(spec, pend))), choices)
               == AddLoad(Base(spec), Everything(spec, pend'))
            && Fits(Base(spec), Everything(spec, pend'))
  {
    OverlayExact(spec, pend);
    TodoOf(spec, pend, reqs);
    ReservedIsNew(spec, pend, reqs, choices, cgroup);
    var todo := Todo(reqs, Everything(spec, pend));
    PackingAddsClaims(Base(spec), Everything(spec, pend), todo, choices, cgroup);
    PackingFits(Base(spec), Everything(spec, pend), todo, choices, cgroup);
  }

  lemma PackedPlacements(u: UtilMap, asks: seq<Ask>, choices: seq<seq<CpuId>>)
    requires PackedBy(u, asks, choices)
    ensures After(u, asks, choices).Keys == u.Keys
    ensures forall i :: 0 <= i < |asks| ==>
              Distinct(choices[i]) && Elements(choices[i]) <= u.Keys && |choices[i]| == asks[i].count
  {
  }

  /** The reservations a probe makes serve their requests exactly. */
  lemma ProbeServes(spec: NodeSpec, pend: Claims, reqs: seq<Request>, choices: seq<seq<CpuId>>, cgroup: string)
    requires LedgerExact(spec) && GoodBatch(reqs)
    requires PackedBy(OverlayUtil(spec, pend), Asks(Todo(reqs, Everything(spec, pend))), choices)
    ensures GoodClaims(Reserved(spec, pend, reqs, choices, cgroup), Base(spec).Keys)
    ensures forall r <- Todo(reqs, Everything(spec, pend)) ::
              r.uid in Reserved(spec, pend, reqs, choices, cgroup)
              && Serves(Reserved(spec, pend, reqs, choices, cgroup)[r.uid], r)
  {
    var todo := Todo(reqs, Everything(spec, pend));
    TodoOf(spec, pend, reqs);
    PackedPlacements(OverlayUtil(spec, pend), Asks(todo), choices);
    OverlayExact(spec, pend);
    NewClaimsServe(Base(spec).Keys, todo, choices, cgroup);
  }

  /** A successful probe keeps the node in order. */
  lemma NodeOkProbe(spec: NodeSpec, pend: Claims, reqs: seq<Request>, choices: seq<seq<CpuId>>, cgroup: string)
    requires NodeOk(spec, pend) && GoodBatch(reqs)
    requires PackedBy(OverlayUtil(spec, pend), Asks(Todo(reqs, Everything(spec, pend))), choices)
    ensures NodeOk(spec, pend + Reserved(spec, pend, reqs, choices, cgroup))
  {
    ProbeExact(spec, pend, reqs, choices, cgroup);
    ProbeServes(spec, pend, reqs, choices, cgroup);
    ReservedIsNew(spec, pend, reqs, choices, cgroup);
    GoodClaimsUnion(pend, Reserved(spec, pend, reqs, choices, cgroup), Base(spec).Keys);
    GoodClaimsUnion(Everything(spec, pend), Reserved(spec, pend, reqs, choices, cgroup), Base(spec).Keys);
  }
}
