/**
 How far the per-mille ledger is from the real bandwidth: each claim's share is
 truncated, so a CPU can be given more than its ledger says.
 */
module Bandwidth {
  import opened Nas
  import opened Demand
  import opened Packing
  import opened Reservation
  import opened Cluster

  /** The bandwidth of an entry in per mille, not truncated. */
  function ExactShare(cpu: AllocatedCpu): real {
    if cpu.period == 0 then 0.0 else (cpu.runtime * 1000) as real / cpu.period as real
  }

  function ExactOn(cpus: seq<AllocatedCpu>, k: CpuId): real {
    if cpus == [] then 0.0
    else
      var last := cpus[|cpus| - 1];
      ExactOn(cpus[..|cpus| - 1], k) + if last.id == k then ExactShare(last) else 0.0
  }

  function EntriesOn(cpus: seq<AllocatedCpu>, k: CpuId): nat {
    if cpus == [] then 0
    else EntriesOn(cpus[..|cpus| - 1], k) + if cpus[|cpus| - 1].id == k then 1 else 0
  }

  ghost function ExactLoad(m: Claims, k: CpuId): real {
    if m == map[] then 0.0
    else
      var u := Pick(m);
      ExactOn(m[u].Cpus(), k) + ExactLoad(m - {u}, k)
  }

  /** How many claims of `m` use CPU `k`. */
  ghost function Hosted(m: Claims, k: CpuId): nat {
    |set u | u in m && k in Ids(m[u].Cpus())|
  }

  /** The entry's per-mille share is a whole number. */
  predicate Whole(cpu: AllocatedCpu) {
    cpu.period != 0 && cpu.runtime * 1000 % cpu.period == 0
  }

  predicate WholeOn(cpus: seq<AllocatedCpu>, k: CpuId) {
    forall i :: 0 <= i < |cpus| && cpus[i].id == k ==> Whole(cpus[i])
  }

  lemma ShareTruncates(cpu: AllocatedCpu)
    requires GoodCpu(cpu)
    ensures CpuShare(cpu) as real <= ExactShare(cpu) < CpuShare(cpu) as real + 1.0
    ensures ExactShare(cpu) == CpuShare(cpu) as real <==> Whole(cpu)
  {
    var a, p := cpu.runtime * 1000, cpu.period;
    ShareNonNegative(cpu.runtime, p);
    var q, r := a / p, a % p;
    assert a == q * p + r && 0 <= r < p;
    Quotient(a, p, q, r);
  }

  lemma Quotient(a: int, p: int, q: int, r: int)
    requires p > 0 && a == q * p + r && 0 <= r < p
    ensures q as real <= a as real / p as real < q as real + 1.0
    ensures a as real / p as real == q as real <==> r == 0
  {
    assert a as real == q as real * p as real + r as real;
    assert a as real / p as real == q as real + r as real / p as real;
  }

  lemma {:induction false} OnOneClaim(cpus: seq<AllocatedCpu>, k: CpuId)
    requires Distinct(IdSeq(cpus)) && forall c <- cpus :: GoodCpu(c)
    ensures ShareOn(cpus, k) as real <= ExactOn(cpus, k)
    ensures k in Ids(cpus) ==> ExactOn(cpus, k) < ShareOn(cpus, k) as real + 1.0
    ensures k !in Ids(cpus) ==> ExactOn(cpus, k) == ShareOn(cpus, k) as real
    ensures ExactOn(cpus, k) == ShareOn(cpus, k) as real <==> WholeOn(cpus, k)
  {
    if cpus != [] {
      var front, last := cpus[..|cpus| - 1], cpus[|cpus| - 1];
      assert cpus == front + [last];
      assert last in cpus;
      assert Distinct(IdSeq(front)) by {
        assert forall i :: 0 <= i < |front| ==> IdSeq(front)[i] == IdSeq(cpus)[i];
      }
      OnOneClaim(front, k);
      ShareTruncates(last);
      if last.id == k {
        assert k !in Ids(front) by {
          assert forall i :: 0 <= i < |front| ==> IdSeq(cpus)[i] != IdSeq(cpus)[|cpus| - 1];
        }
      }
    }
  }

  /** Every claim of `m` has a whole per-mille share on CPU `k`. */
  ghost predicate AllWhole(m: Claims, k: CpuId) {
    forall u <- m :: WholeOn(m[u].Cpus(), k)
  }

  lemma HostedRemove(m: Claims, u: Uid, k: CpuId)
    requires u in m
    ensures Hosted(m, k) == Hosted(m - {u}, k) + if k in Ids(m[u].Cpus()) then 1 else 0
  {
    var all, rest := set v | v in m && k in Ids(m[v].Cpus()), set v | v in m - {u} && k in Ids((m - {u})[v].Cpus());
    assert all == if k in Ids(m[u].Cpus()) then rest + {u} else rest;
  }

  /**
   The ledger's sum is below the real bandwidth by less than one per mille for each
   claim on the CPU, and it is exact if and only if all the shares are whole.
   */
  lemma {:induction false} LoadTruncates(m: Claims, keys: set<CpuId>, k: CpuId)
    requires GoodClaims(m, keys)
    ensures Load(m, k) as real <= ExactLoad(m, k) <= (Load(m, k) + Hosted(m, k)) as real
    ensures Hosted(m, k) > 0 ==> ExactLoad(m, k) < (Load(m, k) + Hosted(m, k)) as real
    ensures ExactLoad(m, k) == Load(m, k) as real <==> AllWhole(m, k)
  {
    hide GoodClaims, Hosted, AllWhole, WholeOn, GoodCpu, Distinct, Ids, ShareOn, ExactOn;
    if m == map[] {
      NothingHosted(k);
    } else {
      var u := Pick(m);
      GoodWithout(m, u, keys);
      LoadTruncates(m - {u}, keys, k);
      OnOneClaim(m[u].Cpus(), k);
      HostedRemove(m, u, k);
      AllWholeRemove(m, u, k);
    }
  }

  lemma NothingHosted(k: CpuId)
    ensures Hosted(map[], k) == 0 && AllWhole(map[], k)
  {
  }

  lemma AllWholeRemove(m: Claims, u: Uid, k: CpuId)
    requires u in m
    ensures AllWhole(m, k) <==> AllWhole(m - {u}, k) && WholeOn(m[u].Cpus(), k)
  {
    var rest := m - {u};
    if AllWhole(rest, k) && WholeOn(m[u].Cpus(), k) {
      forall v | v in m
        ensures WholeOn(m[v].Cpus(), k)
      {
        assert v == u || (v in rest && rest[v] == m[v]);
      }
    }
    if AllWhole(m, k) {
      forall v | v in rest
        ensures WholeOn(rest[v].Cpus(), k)
      {
        assert rest[v] == m[v] && WholeOn(m[v].Cpus(), k);
      }
    }
  }

  lemma GoodWithout(m: Claims, u: Uid, keys: set<CpuId>)
    requires GoodClaims(m, keys) && u in m
    ensures GoodClaims(m - {u}, keys)
    ensures Distinct(IdSeq(m[u].Cpus())) && forall c <- m[u].Cpus() :: GoodCpu(c)
  {
  }

  /**
   In every reachable state, the real bandwidth handed out on a CPU with no base load
   stays below 949 per mille plus one for each claim there, and within 949 if the shares
   are whole.
   */
  lemma RealBandwidth(states: seq<State>, actions: seq<Action>, i: nat, n: NodeName, k: CpuId)
    requires Run(states, actions) && i < |states|
    requires n in states[i].store && k in Base(states[i].store[n].spec) && Base(states[i].store[n].spec)[k] == 0
    ensures var all := Everything(states[i].store[n].spec, PendingOn(states[i].allocations, n));
            && (Hosted(all, k) > 0 ==> ExactLoad(all, k) < (949 + Hosted(all, k)) as real)
            && (AllWhole(all, k) ==> ExactLoad(all, k) <= 949.0)
            && (Hosted(all, k) <= 51 ==> ExactLoad(all, k) < 1000.0)
  {
    var spec := states[i].store[n].spec;
    RunKeepsInv(states, actions, i);
    InvAt(states[i], n);
    LoadTruncates(Everything(spec, PendingOn(states[i].allocations, n)), Base(spec).Keys, k);
  }

  /** A claim with a zero share fits any CPUs below the threshold and changes nothing. */
  lemma ZeroShareIsFree(v: seq<int>, count: nat)
    requires Sorted(v) && count <= |v| && forall i :: 0 <= i < |v| ==> v[i] < THRESHOLD
    ensures Step(v, Ask(count, 0)) == Some(v)
  {
    assert Raised(v[..count], 0) == v[..count];
    InsertAllFront(v, count);
  }
}
