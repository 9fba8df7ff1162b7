/**
 How much of each CPU a set of claims takes, and what it means for a node's
 ledger to agree with its claims.
 */
module Demand {
  import opened Nas

  /** A distinguished key of a non-empty map; every sum below recurses along it. */
  ghost function Pick<K, V>(m: map<K, V>): (k: K)
    requires m != map[]
    ensures k in m
  {
    assert m.Keys != {};
    var k :| k in m.Keys;
    k
  }

  /** The share of CPU `k` taken by all claims of `m` together. */
  ghost function Load(m: Claims, k: CpuId): int {
    if m == map[] then 0
    else
      var u := Pick(m);
      ShareOn(m[u].Cpus(), k) + Load(m - {u}, k)
  }

  predicate Distinct<T(==)>(s: seq<T>) {
    forall i, j :: 0 <= i < j < |s| ==> s[i] != s[j]
  }

  function Elements<T>(s: seq<T>): set<T> {
    set x <- s
  }

  function IdSeq(cpus: seq<AllocatedCpu>): (ids: seq<CpuId>)
    ensures |ids| == |cpus|
    ensures forall i :: 0 <= i < |ids| ==> ids[i] == cpus[i].id
  {
    seq(|cpus|, i requires 0 <= i < |cpus| => cpus[i].id)
  }

  /** Distinct CPUs of the ledger, all with the same usable runtime and period. */
  ghost predicate GoodCpuset(a: AllocatedCpuset, keys: set<CpuId>) {
    && Distinct(IdSeq(a.Cpus()))
    && Ids(a.Cpus()) <= keys
    && (forall c <- a.Cpus() :: GoodCpu(c))
    && (forall c <- a.Cpus() :: c.runtime == a.Cpus()[0].runtime && c.period == a.Cpus()[0].period)
  }

  ghost predicate GoodClaims(m: Claims, keys: set<CpuId>) {
    forall u <- m :: GoodCpuset(m[u], keys)
  }

  lemma GoodClaimsInsert(m: Claims, u: Uid, a: AllocatedCpuset, keys: set<CpuId>)
    requires GoodClaims(m, keys) && GoodCpuset(a, keys)
    ensures GoodClaims(m[u := a], keys)
  {
  }

  lemma GoodClaimsUnion(m: Claims, m': Claims, keys: set<CpuId>)
    requires GoodClaims(m, keys) && GoodClaims(m', keys)
    ensures GoodClaims(m + m', keys)
  {
  }

  ghost predicate GoodBase(b: UtilMap) {
    forall k <- b :: 0 <= b[k] < THRESHOLD
  }

  ghost predicate SubMap(m: Claims, m': Claims) {
    m.Keys <= m'.Keys && forall u <- m :: m[u] == m'[u]
  }

  /** Base utilisation plus the shares of the claims of `m`, CPU by CPU. */
  ghost function AddLoad(b: UtilMap, m: Claims): UtilMap {
    map k | k in b :: b[k] + Load(m, k)
  }

  /** The capacity bound: no CPU reaches the threshold. */
  ghost predicate Fits(b: UtilMap, m: Claims) {
    forall k <- b :: b[k] + Load(m, k) < THRESHOLD
  }

  // ----- Sums over claims -----

  /** The sum does not depend on the order in which claims are taken out. */
  lemma {:induction false} LoadRemove(m: Claims, u: Uid, k: CpuId)
    requires u in m
    ensures Load(m, k) == ShareOn(m[u].Cpus(), k) + Load(m - {u}, k)
  {
    var v := Pick(m);
    if v != u {
      LoadRemove(m - {v}, u, k);
      LoadRemove(m - {u}, v, k);
      assert m - {v} - {u} == m - {u} - {v};
    }
  }

  lemma LoadInsert(m: Claims, u: Uid, a: AllocatedCpuset, k: CpuId)
    requires u !in m
    ensures Load(m[u := a], k) == Load(m, k) + ShareOn(a.Cpus(), k)
  {
    LoadRemove(m[u := a], u, k);
    assert m[u := a] - {u} == m;
  }

  lemma {:induction false} LoadNonNegative(m: Claims, keys: set<CpuId>, k: CpuId)
    requires GoodClaims(m, keys)
    ensures Load(m, k) >= 0
  {
    if m != map[] {
      var u := Pick(m);
      ShareOnNonNegative(m[u].Cpus(), k);
      LoadNonNegative(m - {u}, keys, k);
    }
  }

  lemma {:induction false} LoadMonotone(m: Claims, m': Claims, keys: set<CpuId>, k: CpuId)
    requires GoodClaims(m', keys) && SubMap(m, m')
    ensures Load(m, k) <= Load(m', k)
    decreases |m|
  {
    if m == map[] {
      LoadNonNegative(m', keys, k);
    } else {
      var u := Pick(m);
      LoadRemove(m', u, k);
      LoadMonotone(m - {u}, m' - {u}, keys, k);
    }
  }

  lemma FitsMonotone(b: UtilMap, m: Claims, m': Claims)
    requires GoodClaims(m', b.Keys) && SubMap(m, m') && Fits(b, m')
    ensures Fits(b, m)
  {
    forall k | k in b
      ensures b[k] + Load(m, k) < THRESHOLD
    {
      LoadMonotone(m, m', b.Keys, k);
    }
  }

  /** Recording a claim and charging its entries one by one is the same as recomputing the sum. */
  lemma AddLoadInsert(b: UtilMap, m: Claims, u: Uid, a: AllocatedCpuset)
    requires u !in m && GoodCpuset(a, b.Keys)
    ensures AddLoad(b, m[u := a]) == Charge(AddLoad(b, m), a.Cpus())
  {
    ChargeAdds(AddLoad(b, m), a.Cpus());
    forall k | k in b
      ensures b[k] + Load(m[u := a], k) == b[k] + Load(m, k) + ShareOn(a.Cpus(), k)
    {
      LoadInsert(m, u, a, k);
    }
  }

  /** Subtracting a recorded claim with clamps is the same as recomputing the sum without it. */
  lemma AddLoadRemove(b: UtilMap, m: Claims, u: Uid)
    requires u in m && GoodBase(b) && GoodClaims(m, b.Keys)
    ensures AddLoad(b, m - {u}) == Discharge(AddLoad(b, m), m[u].Cpus())
    ensures AddLoad(b, m - {u}) == DischargeListed(AddLoad(b, m), m[u].Cpus())
  {
    var cpus := m[u].Cpus();
    var full := AddLoad(b, m);
    assert GoodCpuset(m[u], b.Keys);
    assert forall c <- cpus :: GoodCpu(c);
    forall k | k in b
      ensures full[k] == ShareOn(cpus, k) + AddLoad(b, m - {u})[k] && AddLoad(b, m - {u})[k] >= 0
    {
      LoadRemove(m, u, k);
      LoadNonNegative(m - {u}, b.Keys, k);
    }
    DischargeSubtracts(full, cpus);
    assert forall k <- b :: Discharge(full, cpus)[k] == AddLoad(b, m - {u})[k];
  }

  // ----- Totals -----

  ghost function Total(u: UtilMap): int {
    if u == map[] then 0
    else
      var k := Pick(u);
      u[k] + Total(u - {k})
  }

  lemma {:induction false} TotalRemove(u: UtilMap, k: CpuId)
    requires k in u
    ensures Total(u) == u[k] + Total(u - {k})
  {
    var v := Pick(u);
    if v != k {
      TotalRemove(u - {v}, k);
      TotalRemove(u - {k}, v);
      assert u - {v} - {k} == u - {k} - {v};
    }
  }

  lemma TotalUpdate(u: UtilMap, k: CpuId, x: int)
    requires k in u
    ensures Total(u[k := x]) == Total(u) - u[k] + x
  {
    TotalRemove(u, k);
    TotalRemove(u[k := x], k);
    assert u[k := x] - {k} == u - {k};
  }

  function Shares(cpus: seq<AllocatedCpu>): (s: seq<int>)
    ensures |s| == |cpus|
    ensures forall i :: 0 <= i < |s| ==> s[i] == CpuShare(cpus[i])
  {
    seq(|cpus|, i requires 0 <= i < |cpus| => CpuShare(cpus[i]))
  }

  function Sum(s: seq<int>): int {
    if s == [] then 0 else Sum(s[..|s| - 1]) + s[|s| - 1]
  }

  lemma {:induction false} SumUniform(s: seq<int>, x: int)
    requires forall i :: 0 <= i < |s| ==> s[i] == x
    ensures Sum(s) == |s| * x
  {
    if s != [] {
      SumUniform(s[..|s| - 1], x);
    }
  }

  /** Conservation: charging a claim grows the ledger by the sum of the claim's shares. */
  lemma {:induction false} ChargeTotal(u: UtilMap, cpus: seq<AllocatedCpu>)
    requires Ids(cpus) <= u.Keys
    ensures Charge(u, cpus).Keys == u.Keys
    ensures Total(Charge(u, cpus)) == Total(u) + Sum(Shares(cpus))
  {
    if cpus != [] {
      var front := cpus[..|cpus| - 1];
      var last := cpus[|cpus| - 1];
      assert last in cpus;
      assert forall c <- front :: c in cpus;
      ChargeTotal(u, front);
      assert Shares(cpus)[..|cpus| - 1] == Shares(front);
      var u' := Charge(u, front);
      if last.period != 0 {
        TotalUpdate(u', last.id, u'[last.id] + CpuShare(last));
      }
    }
  }
}
