/**
 Runs that fill one CPU with claims whose shares are truncated: how many claims it takes to
 hand out more than a full CPU.
 */
module Overload {
  import opened Nas
  import opened Demand
  import opened Partition
  import opened Packing
  import opened Reservation
  import opened Cluster
  import opened Decimal
  import opened Bandwidth
  import opened HalfCpu

  const PERIOD := 2000000

  /** A claim for one CPU, with the given runtime in every period. */
  function Entry(runtime: nat): AllocatedCpuset {
    RtCpu([AllocatedCpu(0, runtime, PERIOD)], "pod")
  }

  function RequestFor(i: nat, runtime: nat): Request {
    Request(Itoa(i), 1, runtime, PERIOD)
  }

  /** One claim on CPU 0 for each runtime; the claims are numbered. */
  ghost function Filling(runtimes: seq<nat>): Claims {
    if runtimes == [] then map[]
    else
      var i := |runtimes| - 1;
      Filling(runtimes[..i])[Itoa(|runtimes|) := Entry(runtimes[i])]
  }

  /** What the ledger says of them, and what they really take, in per mille. */
  function LedgerSum(runtimes: seq<nat>): int {
    if runtimes == [] then 0 else LedgerSum(runtimes[..|runtimes| - 1]) + runtimes[|runtimes| - 1] / 2000
  }

  function RealSum(runtimes: seq<nat>): real {
    if runtimes == [] then 0.0 else RealSum(runtimes[..|runtimes| - 1]) + runtimes[|runtimes| - 1] as real / 2000.0
  }

  lemma {:induction false} FillingKeys(runtimes: seq<nat>, i: nat)
    requires Itoa(i) in Filling(runtimes)
    ensures i <= |runtimes|
  {
    hide Itoa;
    if runtimes != [] {
      AtoiOfItoa(i);
      AtoiOfItoa(|runtimes|);
      if i != |runtimes| {
        FillingKeys(runtimes[..|runtimes| - 1], i);
      }
    }
  }

  lemma FillingNew(runtimes: seq<nat>)
    requires runtimes != []
    ensures Itoa(|runtimes|) !in Filling(runtimes[..|runtimes| - 1])
  {
    if Itoa(|runtimes|) in Filling(runtimes[..|runtimes| - 1]) {
      FillingKeys(runtimes[..|runtimes| - 1], |runtimes|);
    }
  }

  lemma EntryLoads(runtime: nat)
    ensures GoodCpuset(Entry(runtime), {0})
    ensures ShareOn(Entry(runtime).Cpus(), 0) == runtime / 2000 && Share(runtime, PERIOD) == runtime / 2000
    ensures ExactOn(Entry(runtime).Cpus(), 0) == runtime as real / 2000.0
    ensures 0 in Ids(Entry(runtime).Cpus())
  {
    var cpus := Entry(runtime).Cpus();
    assert cpus[..0] == [];
    ShareNonNegative(runtime, PERIOD);
    assert runtime * 1000 / PERIOD == runtime / 2000;
    assert ExactShare(cpus[0]) == (runtime * 1000) as real / PERIOD as real == runtime as real / 2000.0;
    assert IdSeq(cpus) == [0];
    assert cpus[0] in cpus;
  }

  lemma {:induction false} ExactLoadRemove(m: Claims, u: Uid, k: CpuId)
    requires u in m
    ensures ExactLoad(m, k) == ExactOn(m[u].Cpus(), k) + ExactLoad(m - {u}, k)
  {
    var v := Pick(m);
    if v != u {
      ExactLoadRemove(m - {v}, u, k);
      ExactLoadRemove(m - {u}, v, k);
      assert m - {v} - {u} == m - {u} - {v};
    }
  }

  /** The claims are well-formed, all on CPU 0, and load the ledger and the CPU as summed. */
  lemma {:induction false} FillingLoads(runtimes: seq<nat>)
    ensures GoodClaims(Filling(runtimes), {0}) && Hosted(Filling(runtimes), 0) == |runtimes|
    ensures Load(Filling(runtimes), 0) == LedgerSum(runtimes)
    ensures ExactLoad(Filling(runtimes), 0) == RealSum(runtimes)
  {
    hide GoodClaims, GoodCpuset, Hosted, ShareOn, ExactOn, Entry, Itoa, Ids;
    if runtimes == [] {
      NothingFilled();
    } else {
      var i, u := |runtimes| - 1, Itoa(|runtimes|);
      var m, full := Filling(runtimes[..i]), Filling(runtimes);
      FillingLoads(runtimes[..i]);
      FillingNew(runtimes);
      EntryLoads(runtimes[i]);
      Taken(m, u, Entry(runtimes[i]));
      LoadInsert(m, u, Entry(runtimes[i]), 0);
      ExactLoadRemove(full, u, 0);
      HostedRemove(full, u, 0);
      GoodClaimsInsert(m, u, Entry(runtimes[i]), {0});
    }
  }

  lemma Taken(m: Claims, u: Uid, a: AllocatedCpuset)
    requires u !in m
    ensures m[u := a] - {u} == m
  {
  }

  lemma NothingFilled()
    ensures GoodClaims(map[], {0}) && Hosted(map[], 0) == 0
  {
    NothingHosted(0);
  }

  lemma {:induction false} SumsGrow(runtimes: seq<nat>)
    ensures LedgerSum(runtimes) >= 0
  {
    if runtimes != [] {
      SumsGrow(runtimes[..|runtimes| - 1]);
    }
  }

  // ----- Runs -----

  const FIRST := EMPTY.(store := map["node" := CPU0])

  /** A probe of one more claim fits, and reserves the claim on CPU 0. */
  lemma FillsOneMore(s: State, runtimes: seq<nat>) returns (s': State)
    requires runtimes != [] && LedgerSum(runtimes) < THRESHOLD
    requires Inv(s) && s.store == FIRST.store && PendingOn(s.allocations, "node") == Filling(runtimes[..|runtimes| - 1])
    ensures Next(s, Probe("node", true, [RequestFor(|runtimes|, runtimes[|runtimes| - 1])], "pod", [[0]]), s')
    ensures Inv(s') && s'.store == FIRST.store && PendingOn(s'.allocations, "node") == Filling(runtimes)
  {
    hide Inv, Admit, Profile, PackedBy, After, NewClaims, Todo, Stale, PendingOn, Filling, LedgerSum,
      OverlayUtil, Everything, Itoa;
    var i := |runtimes| - 1;
    var x, r := LedgerSum(runtimes[..i]), RequestFor(|runtimes|, runtimes[i]);
    FilledUtil(s, runtimes[..i]);
    FillingNew(runtimes);
    assert LedgerSum(runtimes) == x + runtimes[i] / 2000 by {
      SumOfLast(runtimes);
    }
    OneMoreFits(x, runtimes[i], r);
    NothingStale(s, runtimes[..i]);
    GoodOne(|runtimes|, runtimes[i]);
    UnplacedOne(s, r, runtimes[..i]);
    PackingRefined(map[0 := x], Asks([r]), [[0]]);
    s' := Probed(s, "node", [r], "pod", [[0]]);
    ProbedPending(s, "node", [r], "pod", [[0]], "node");
    FilledBy(runtimes, r);
    NextKeepsInv(s, Probe("node", true, [r], "pod", [[0]]), s');
  }

  lemma FilledUtil(s: State, runtimes: seq<nat>)
    requires s.store == FIRST.store && PendingOn(s.allocations, "node") == Filling(runtimes)
    ensures ProbeUtil(s, "node") == map[0 := LedgerSum(runtimes)]
  {
    hide PendingOn, Filling, LedgerSum, OverlayUtil;
    FilledOverlay(Filling(runtimes), LedgerSum(runtimes)) by {
      FillingLoads(runtimes);
    }
  }

  lemma FilledOverlay(m: Claims, sum: int)
    requires Load(m, 0) == sum
    ensures OverlayUtil(CPU0.spec, m) == map[0 := sum]
  {
    hide Load, InitUtil;
    IdleNode();
    EverythingPending(m);
    OverlayExact(CPU0.spec, m) by {
      NothingCommitted();
    }
  }

  lemma EverythingPending(m: Claims)
    ensures Everything(CPU0.spec, m) == m
  {
  }

  lemma NothingCommitted()
    ensures LedgerExact(CPU0.spec)
  {
    IdleNode();
  }

  lemma OneMoreFits(x: int, runtime: nat, r: Request)
    requires x + runtime / 2000 < THRESHOLD && r.count == 1 && r.runtime == runtime && r.period == PERIOD
    ensures PackedBy(map[0 := x], Asks([r]), [[0]])
  {
    hide Share, Fitting;
    var u: UtilMap, share := map[0 := x], runtime / 2000;
    EntryLoads(runtime);
    assert AskOf(r) == Ask(1, share);
    OnlyCpuFits(x, share);
    assert PackedBy(u, [], []);
    PackedByAppend(u, [], [], Ask(1, share), [0]);
    assert [] + [Ask(1, share)] == Asks([r]) && [] + [[0]] == [[0]];
  }

  lemma OnlyCpuFits(x: int, share: int)
    requires x + share < THRESHOLD
    ensures WorstFit(map[0 := x], share, 1, [0])
  {
  }

  lemma SumOfLast(runtimes: seq<nat>)
    requires runtimes != []
    ensures LedgerSum(runtimes) == LedgerSum(runtimes[..|runtimes| - 1]) + runtimes[|runtimes| - 1] / 2000
  {
  }

  lemma NothingStale(s: State, runtimes: seq<nat>)
    requires s.store == FIRST.store
    ensures Stale(s, "node") == {} && s.allocations - Stale(s, "node") == s.allocations
  {
  }

  lemma GoodOne(i: nat, runtime: nat)
    ensures GoodBatch([RequestFor(i, runtime)])
  {
  }

  lemma UnplacedOne(s: State, r: Request, runtimes: seq<nat>)
    requires s.store == FIRST.store && PendingOn(s.allocations, "node") == Filling(runtimes)
    requires r.uid !in Filling(runtimes)
    ensures Unplaced(s, "node", [r]) == [r]
  {
    hide PendingOn, Filling;
    var known := Everything(CPU0.spec, Filling(runtimes));
    assert [r][..0] == [];
    assert Todo([r][..0], known) == [];
  }

  lemma FilledBy(runtimes: seq<nat>, r: Request)
    requires runtimes != [] && r == RequestFor(|runtimes|, runtimes[|runtimes| - 1])
    ensures var m: Claims, us: set<Uid> := Filling(runtimes[..|runtimes| - 1]), {};
            m - us + NewClaims([r], [[0]], "pod") == Filling(runtimes)
  {
    hide Itoa, NewClaims, Entry;
    MadeOne(r, runtimes[|runtimes| - 1]);
    OneMore(Filling(runtimes[..|runtimes| - 1]), r.uid, Entry(runtimes[|runtimes| - 1]));
  }

  lemma MadeOne(r: Request, runtime: nat)
    requires r.count == 1 && r.runtime == runtime && r.period == PERIOD
    ensures NewClaims([r], [[0]], "pod") == map[r.uid := Entry(runtime)]
  {
    assert [r][..0] == [] && [[0]][..0] == [];
    assert NewClaims([r][..0], [[0]][..0], "pod") == map[];
    assert Devices([0], r) == Entry(runtime).cpuset;
  }

  lemma OneMore(m: Claims, u: Uid, a: AllocatedCpuset)
    ensures var us: set<Uid> := {}; m - us + map[u := a] == m[u := a]
  {
  }

  /** Whatever the runtimes, as long as the ledger's sum stays below the threshold, a run reserves all of the claims. */
  lemma {:induction false} FillingRun(runtimes: seq<nat>) returns (states: seq<State>, actions: seq<Action>)
    requires LedgerSum(runtimes) < THRESHOLD
    ensures Run(states, actions) && |actions| == |runtimes| + 1
    ensures var s := states[|runtimes| + 1];
            Inv(s) && s.store == FIRST.store && PendingOn(s.allocations, "node") == Filling(runtimes)
    decreases |runtimes|
  {
    hide Inv, PendingOn, Next;
    if runtimes == [] {
      Begins();
      states, actions := [EMPTY, FIRST], [Join("node", CPU0)];
    } else {
      var i := |runtimes| - 1;
      SumsGrow(runtimes[..i]);
      states, actions := FillingRun(runtimes[..i]);
      var s' := FillsOneMore(states[i + 1], runtimes);
      states := states + [s'];
      actions := actions + [Probe("node", true, [RequestFor(|runtimes|, runtimes[i])], "pod", [[0]])];
    }
  }

  lemma Begins()
    ensures Next(EMPTY, Join("node", CPU0), FIRST) && Inv(FIRST)
    ensures PendingOn(FIRST.allocations, "node") == map[]
  {
    IdleNode();
    JoinKeepsInv(EMPTY, "node", CPU0);
    assert EMPTY.store["node" := CPU0] == FIRST.store;
  }

  // ----- How many claims it takes -----

  /** A claim just below 20, 19 and 1 per mille of a CPU. */
  function Mixed(i: nat): nat {
    if i < 13 then 39999 else if i < 52 then 37999 else 1999
  }

  function Mix(n: nat): (runtimes: seq<nat>)
    ensures |runtimes| == n && forall i :: 0 <= i < n ==> runtimes[i] == Mixed(i)
  {
    seq(n, i requires 0 <= i < n => Mixed(i))
  }

  lemma {:induction false} MixSums(n: nat)
    ensures LedgerSum(Mix(n)) == if n <= 13 then 19 * n else if n <= 52 then 247 + 18 * (n - 13) else 949
    ensures n >= 52 ==> RealSum(Mix(n)) == 1000.974 + 0.9995 * (n - 52) as real
    ensures n <= 13 ==> RealSum(Mix(n)) == 19.9995 * n as real
    ensures 13 <= n <= 52 ==> RealSum(Mix(n)) == 259.9935 + 18.9995 * (n - 13) as real
  {
    if n > 0 {
      MixSums(n - 1);
      assert Mix(n)[..n - 1] == Mix(n - 1);
    }
  }

  /** In this run, `count` claims together take a whole CPU or more. */
  ghost predicate Overloads(states: seq<State>, actions: seq<Action>, i: nat, n: NodeName, k: CpuId, count: nat) {
    && Run(states, actions) && i < |states|
    && n in states[i].store && k in Base(states[i].store[n].spec) && Base(states[i].store[n].spec)[k] == 0
    && Hosted(EverythingOn(states[i], n), k) == count
    && ExactLoad(EverythingOn(states[i], n), k) >= 1000.0
  }

  ghost predicate NeverOverloads(count: nat) {
    forall states, actions, i, n, k :: !Overloads(states, actions, i, n, k, count)
  }

  /**
   With up to 51 claims no run ever hands out a whole CPU or more; with 52 or any larger
   number some run does.
   */
  lemma OverloadedExactlyFrom(count: nat)
    ensures NeverOverloads(count) <==> count <= 51
  {
    hide Overloads;
    if count <= 51 {
      forall states, actions, i, n, k
        ensures !Overloads(states, actions, i, n, k, count)
      {
        FewNeverOverload(states, actions, i, n, k, count);
      }
    } else {
      MixSums(count);
      var states, actions := FillingRun(Mix(count));
      MixOverloads(states, actions, count);
    }
  }

  lemma FewNeverOverload(states: seq<State>, actions: seq<Action>, i: nat, n: NodeName, k: CpuId, count: nat)
    requires count <= 51
    ensures !Overloads(states, actions, i, n, k, count)
  {
    hide Run, Hosted, ExactLoad, Base;
    if Overloads(states, actions, i, n, k, count) {
      RealBandwidth(states, actions, i, n, k);
    }
  }

  lemma MixOverloads(states: seq<State>, actions: seq<Action>, count: nat)
    requires count >= 52 && Run(states, actions) && |actions| == count + 1
    requires var s := states[count + 1];
             s.store == FIRST.store && PendingOn(s.allocations, "node") == Filling(Mix(count))
    ensures Overloads(states, actions, count + 1, "node", 0, count)
  {
    hide Next, PendingOn, Filling, Load, ExactLoad, Hosted, Mix;
    MixSums(count);
    FillingLoads(Mix(count));
    IdleNode();
    EverythingPending(Filling(Mix(count)));
    var s := states[count + 1];
    assert s.store["node"] == CPU0;
    assert EverythingOn(s, "node") == Filling(Mix(count));
    assert ExactLoad(EverythingOn(s, "node"), 0) == 1000.974 + 0.9995 * (count - 52) as real >= 1000.0;
    assert Base(CPU0.spec)[0] == 0;
  }

  function Tiny(n: nat): (runtimes: seq<nat>)
    ensures |runtimes| == n && forall i :: 0 <= i < n ==> runtimes[i] == 1999
  {
    seq(n, _ => 1999)
  }

  lemma {:induction false} TinySums(n: nat)
    ensures LedgerSum(Tiny(n)) == 0 && RealSum(Tiny(n)) == 0.9995 * n as real
  {
    if n > 0 {
      TinySums(n - 1);
      assert Tiny(n)[..n - 1] == Tiny(n - 1);
    }
  }

  /**
   Nothing bounds the number of claims: for every `n` some run reserves `n` of them on one CPU
   without any load on the ledger.
   */
  lemma TinyClaims(n: nat) returns (states: seq<State>, actions: seq<Action>)
    ensures Run(states, actions) && |actions| == n + 1 && "node" in states[n + 1].store
    ensures var all := EverythingOn(states[n + 1], "node");
            && Hosted(all, 0) == n && Load(all, 0) == 0 && ExactLoad(all, 0) == 0.9995 * n as real
  {
    hide Run, PendingOn, Filling, Inv;
    TinySums(n);
    states, actions := FillingRun(Tiny(n));
    FillingLoads(Tiny(n));
    EverythingPending(Filling(Tiny(n)));
  }
}
