/**
 When packing a batch greedily, claim by claim, loses nothing: with equal shares worst fit
 succeeds whenever any packing of the batch exists.  With unequal shares it may not.
 */
module Completeness {
  import opened Nas
  import opened Demand
  import opened Partition
  import opened Packing
  import opened Reservation
  import opened Cluster

  /** What the asks put on CPU `k` if they are served on the CPUs of `d`. */
  ghost function Extra(asks: seq<Ask>, d: seq<set<CpuId>>, k: CpuId): int
    requires |d| == |asks|
  {
    if asks == [] then 0
    else (if k in d[0] then asks[0].share else 0) + Extra(asks[1..], d[1..], k)
  }

  /** `d` serves every ask with as many CPUs as it needs, and overloads none of them. */
  ghost predicate Serving(u: UtilMap, asks: seq<Ask>, d: seq<set<CpuId>>): (serving: bool)
    ensures serving ==> |d| == |asks|
  {
    && |d| == |asks|
    && (forall i :: 0 <= i < |d| ==> |d[i]| == asks[i].count && d[i] <= u.Keys)
    && (forall i, k :: 0 <= i < |d| && k in d[i] ==> u[k] + Extra(asks, d, k) < THRESHOLD)
  }

  /** The batch fits on the node somehow, in whatever order its claims are placed. */
  ghost predicate Packable(u: UtilMap, asks: seq<Ask>) {
    exists d :: Serving(u, asks, d)
  }

  // ----- What is packed greedily is a packing -----

  lemma {:induction false} ExtraNonNegative(asks: seq<Ask>, d: seq<set<CpuId>>, k: CpuId)
    requires |d| == |asks| && forall i :: 0 <= i < |asks| ==> asks[i].share >= 0
    ensures Extra(asks, d, k) >= 0
  {
    if asks != [] {
      ExtraNonNegative(asks[1..], d[1..], k);
    }
  }

  lemma {:induction false} ExtraAppend(asks: seq<Ask>, d: seq<set<CpuId>>, a: Ask, c: set<CpuId>, k: CpuId)
    requires |d| == |asks|
    ensures Extra(asks + [a], d + [c], k) == Extra(asks, d, k) + if k in c then a.share else 0
  {
    if asks == [] {
      assert (asks + [a])[1..] == [] && (d + [c])[1..] == [];
    } else {
      assert (asks + [a])[1..] == asks[1..] + [a] && (d + [c])[1..] == d[1..] + [c];
      ExtraAppend(asks[1..], d[1..], a, c, k);
    }
  }

  function Sets(choices: seq<seq<CpuId>>): (d: seq<set<CpuId>>)
    ensures |d| == |choices| && forall i :: 0 <= i < |d| ==> d[i] == Elements(choices[i])
  {
    seq(|choices|, i requires 0 <= i < |choices| => Elements(choices[i]))
  }

  lemma {:induction false} PackedIsServing(u: UtilMap, asks: seq<Ask>, choices: seq<seq<CpuId>>)
    requires PackedBy(u, asks, choices) && forall i :: 0 <= i < |asks| ==> asks[i].share >= 0
    ensures Serving(u, asks, Sets(choices))
    ensures After(u, asks, choices).Keys == u.Keys
    ensures forall k <- u :: After(u, asks, choices)[k] == u[k] + Extra(asks, Sets(choices), k)
    decreases |asks|
  {
    if asks != [] {
      var n := |asks| - 1;
      var front, before := asks[..n], choices[..n];
      PackedIsServing(u, front, before);
      assert asks == front + [asks[n]] && Sets(choices) == Sets(before) + [Elements(choices[n])];
      ServingMore(u, front, Sets(before), asks[n], choices[n], After(u, front, before));
    }
  }

  /** A placement on what has been served so far serves one ask more. */
  lemma ServingMore(u: UtilMap, asks: seq<Ask>, d: seq<set<CpuId>>, a: Ask, c: seq<CpuId>, v: UtilMap)
    requires Serving(u, asks, d) && a.share >= 0 && Placement(v, a.share, a.count, c)
    requires v.Keys == u.Keys && forall k <- u :: v[k] == u[k] + Extra(asks, d, k)
    ensures Serving(u, asks + [a], d + [Elements(c)])
    ensures var v' := Place(v, c, a.share);
            v'.Keys == u.Keys && forall k <- u :: v'[k] == u[k] + Extra(asks + [a], d + [Elements(c)], k)
  {
    var d' := d + [Elements(c)];
    PlacementElements(v, a.share, a.count, c);
    DistinctCardinality(c);
    forall k
      ensures Extra(asks + [a], d', k) == Extra(asks, d, k) + if k in Elements(c) then a.share else 0
    {
      ExtraAppend(asks, d, a, Elements(c), k);
    }
    forall i, k | 0 <= i < |d'| && k in d'[i]
      ensures u[k] + Extra(asks + [a], d', k) < THRESHOLD
    {
      if k in Elements(c) {
        ChosenFits(v, a, c, k);
      } else {
        assert k in d[i];
      }
    }
  }

  lemma ChosenFits(u: UtilMap, a: Ask, c: seq<CpuId>, k: CpuId)
    requires Placement(u, a.share, a.count, c) && k in Elements(c)
    ensures k in u && u[k] + a.share < THRESHOLD
  {
    var i :| 0 <= i < |c| && c[i] == k;
    assert c[i] in Fitting(u, a.share);
  }

  lemma Member<T>(s: set<T>) returns (x: T)
    requires s != {}
    ensures x in s
  {
    x :| x in s;
  }

  lemma LeastLoaded(u: UtilMap, ks: set<CpuId>) returns (k: CpuId)
    requires ks != {} && ks <= u.Keys
    ensures k in ks && forall j <- ks :: u[k] <= u[j]
    decreases |ks|
  {
    k := Member(ks);
    if ks != {k} {
      assert ks - {k} != {};
      var j := LeastLoaded(u, ks - {k});
      if u[j] < u[k] {
        k := j;
      }
    }
  }

  /** Wherever enough CPUs have room, there is a worst-fit choice. */
  lemma {:induction false} WorstFitExists(u: UtilMap, s: int, n: nat) returns (c: seq<CpuId>)
    requires n <= |Fitting(u, s)|
    ensures WorstFit(u, s, n, c)
  {
    if n == 0 {
      c := [];
    } else {
      var before := WorstFitExists(u, s, n - 1);
      DistinctCardinality(before);
      var others := Fitting(u, s) - Elements(before);
      assert others != {} by {
        FewerThan(Elements(before), Fitting(u, s));
      }
      var k := LeastLoaded(u, others);
      c := before + [k];
      OneMoreFits(u, s, n, before, k);
    }
  }

  lemma FewerThan(a: set<CpuId>, b: set<CpuId>)
    requires |a| < |b|
    ensures b - a != {}
  {
    if b - a == {} {
      assert forall x <- b :: x in a || x in b - a;
      CardinalityMonotone(b, a);
    }
  }

  lemma OneMoreFits(u: UtilMap, s: int, n: nat, before: seq<CpuId>, k: CpuId)
    requires n > 0 && WorstFit(u, s, n - 1, before)
    requires k in Fitting(u, s) && k !in before && forall j :: j in Fitting(u, s) && j !in before ==> u[k] <= u[j]
    ensures WorstFit(u, s, n, before + [k])
  {
    var c := before + [k];
    forall i, j | 0 <= i < |c| && j in u && j !in c
      ensures u[c[i]] <= u[j]
    {
      if i == n - 1 && j !in Fitting(u, s) {
        assert u[k] + s < THRESHOLD <= u[j] + s;
      }
    }
    forall i, j | 0 <= i < j < |c|
      ensures u[c[i]] <= u[c[j]] && c[i] != c[j]
    {
    }
  }

  /** What `Admit` accepts can be packed by worst fit. */
  lemma {:induction false} AdmittedIsPacked(u: UtilMap, asks: seq<Ask>) returns (choices: seq<seq<CpuId>>)
    requires Admit(Profile(u), asks).Some?
    ensures PackedBy(u, asks, choices)
    decreases |asks|
  {
    if asks == [] {
      choices := [];
    } else {
      var n := |asks| - 1;
      var before := AdmittedIsPacked(u, asks[..n]);
      assert asks == asks[..n] + [asks[n]];
      var c := NextIsPacked(u, asks[..n], asks[n], before);
      choices := before + [c];
    }
  }

  lemma NextIsPacked(u: UtilMap, front: seq<Ask>, a: Ask, before: seq<seq<CpuId>>) returns (c: seq<CpuId>)
    requires Admit(Profile(u), front + [a]).Some? && PackedBy(u, front, before)
    ensures PackedBy(u, front + [a], before + [c])
  {
    hide PackedBy, Profile, Fitting, WorstFit;
    var all := front + [a];
    assert all[..|front|] == front && all[|front|] == a;
    PackingRefined(u, front, before);
    StepStuck(After(u, front, before), a);
    c := WorstFitExists(After(u, front, before), a.share, a.count);
    PackedByAppend(u, front, before, a, c);
  }

  /** The verdict on a batch is that of the greedy loop: some run of worst fit serves all of it. */
  lemma AdmitsWhatGreedyPacks(u: UtilMap, asks: seq<Ask>)
    ensures Admit(Profile(u), asks).Some? <==> exists choices :: PackedBy(u, asks, choices)
  {
    hide Admit, Profile;
    var admitted := Admit(Profile(u), asks).Some?;
    if admitted {
      var choices := AdmittedIsPacked(u, asks);
      assert exists choices :: PackedBy(u, asks, choices);
    }
    if exists choices :: PackedBy(u, asks, choices) {
      var choices :| PackedBy(u, asks, choices);
      PackingRefined(u, asks, choices);
      assert admitted;
    }
  }

  // ----- Exchanging CPUs of the first claim -----

  ghost predicate AllShare(asks: seq<Ask>, s: int) {
    forall i :: 0 <= i < |asks| ==> asks[i].share == s
  }

  function Swapped(c: set<CpuId>, k: CpuId, j: CpuId): set<CpuId> {
    c - {k} + {j}
  }

  /** Some ask uses `k` and not `j`. */
  ghost predicate Separates(d: seq<set<CpuId>>, i: nat, k: CpuId, j: CpuId) {
    i < |d| && k in d[i] && j !in d[i]
  }

  lemma {:induction false} ExtraUpdate(asks: seq<Ask>, d: seq<set<CpuId>>, i: nat, c: set<CpuId>, k: CpuId)
    requires |d| == |asks| && i < |d|
    ensures Extra(asks, d[i := c], k)
         == Extra(asks, d, k) - (if k in d[i] then asks[i].share else 0) + if k in c then asks[i].share else 0
  {
    if i > 0 {
      assert d[i := c][1..] == d[1..][i - 1 := c];
      ExtraUpdate(asks[1..], d[1..], i - 1, c, k);
    } else {
      assert d[i := c][1..] == d[1..];
    }
  }

  /** If every ask that uses `k` uses `j` too, `j` gets at least as much. */
  lemma {:induction false} ExtraCovered(asks: seq<Ask>, d: seq<set<CpuId>>, k: CpuId, j: CpuId)
    requires |d| == |asks| && forall i :: 0 <= i < |asks| ==> asks[i].share >= 0
    requires forall i :: 0 <= i < |d| ==> !Separates(d, i, k, j)
    ensures Extra(asks, d, k) <= Extra(asks, d, j)
  {
    if asks != [] {
      assert !Separates(d, 0, k, j);
      forall i | 0 <= i < |d[1..]|
        ensures !Separates(d[1..], i, k, j)
      {
        assert !Separates(d, i + 1, k, j);
      }
      ExtraCovered(asks[1..], d[1..], k, j);
    }
  }

  /**
   In a packing with equal shares, the first claim may exchange a CPU `j` for one `k` that is
   not more loaded: another claim takes `j` for `k` in return, or `k` has room.
   */
  lemma Exchange(u: UtilMap, asks: seq<Ask>, s: int, d: seq<set<CpuId>>, k: CpuId, j: CpuId)
    returns (d': seq<set<CpuId>>)
    requires AllShare(asks, s) && s >= 0 && Serving(u, asks, d) && d != []
    requires k in u && k !in d[0] && j in d[0] && u[k] <= u[j]
    ensures Serving(u, asks, d') && d'[0] == Swapped(d[0], j, k)
  {
    var first := d[0 := Swapped(d[0], j, k)];
    forall x
      ensures Extra(asks, first, x) == Extra(asks, d, x) + (if x == k then s else 0) - if x == j then s else 0
    {
      ExtraUpdate(asks, d, 0, Swapped(d[0], j, k), x);
    }
    SwapSize(d[0], j, k);
    if i :| 0 <= i < |d| && Separates(d, i, k, j) {
      d' := first[i := Swapped(d[i], k, j)];
      forall x
        ensures Extra(asks, d', x) == Extra(asks, d, x)
      {
        ExtraUpdate(asks, first, i, Swapped(d[i], k, j), x);
      }
      SwapSize(d[i], k, j);
      ExchangedFits(u, asks, d, d', k, j);
    } else {
      d' := first;
      forall i | 0 <= i < |d[1..]|
        ensures !Separates(d[1..], i, k, j)
      {
        assert !Separates(d, i + 1, k, j);
      }
      ExtraCovered(asks[1..], d[1..], k, j);
      MovedFits(u, asks, s, d, d', k, j);
    }
  }

  lemma SwapSize(c: set<CpuId>, k: CpuId, j: CpuId)
    requires k in c && j !in c
    ensures |Swapped(c, k, j)| == |c|
  {
  }

  ghost predicate UsedIn(d: seq<set<CpuId>>, x: CpuId) {
    exists i :: 0 <= i < |d| && x in d[i]
  }

  lemma UsedFits(u: UtilMap, asks: seq<Ask>, d: seq<set<CpuId>>, x: CpuId)
    requires Serving(u, asks, d) && UsedIn(d, x)
    ensures x in u && u[x] + Extra(asks, d, x) < THRESHOLD
  {
  }

  lemma ExchangedFits(u: UtilMap, asks: seq<Ask>, d: seq<set<CpuId>>, d': seq<set<CpuId>>, k: CpuId, j: CpuId)
    requires Serving(u, asks, d) && |d'| == |d|
    requires forall i :: 0 <= i < |d'| ==> |d'[i]| == |d[i]| && d'[i] <= d[i] + {k, j}
    requires UsedIn(d, k) && UsedIn(d, j)
    requires forall x :: Extra(asks, d', x) == Extra(asks, d, x)
    ensures Serving(u, asks, d')
  {
    UsedFits(u, asks, d, k);
    UsedFits(u, asks, d, j);
    forall i, x | 0 <= i < |d'| && x in d'[i]
      ensures x in u && u[x] + Extra(asks, d', x) < THRESHOLD
    {
      assert UsedIn(d, x);
      UsedFits(u, asks, d, x);
    }
  }

  lemma MovedFits(u: UtilMap, asks: seq<Ask>, s: int, d: seq<set<CpuId>>, d': seq<set<CpuId>>, k: CpuId, j: CpuId)
    requires s >= 0 && Serving(u, asks, d) && d != [] && |d'| == |d| && k in u && j in d[0] && k !in d[0]
    requires u[k] <= u[j]
    requires d' == d[0 := Swapped(d[0], j, k)] && |d'[0]| == |d[0]|
    requires forall x :: Extra(asks, d', x) == Extra(asks, d, x) + (if x == k then s else 0) - if x == j then s else 0
    requires Extra(asks, d, k) + s <= Extra(asks, d, j)
    ensures Serving(u, asks, d')
  {
    assert UsedIn(d, j);
    UsedFits(u, asks, d, j);
    forall i, x | 0 <= i < |d'| && x in d'[i]
      ensures x in u && u[x] + Extra(asks, d', x) < THRESHOLD
    {
      if x != k {
        assert x in d[i] && UsedIn(d, x);
        UsedFits(u, asks, d, x);
      }
    }
  }

  /** So the first claim may be served on least loaded CPUs. */
  lemma {:induction false} FirstMayBeLeast(u: UtilMap, asks: seq<Ask>, s: int, d: seq<set<CpuId>>, c: set<CpuId>)
    returns (d': seq<set<CpuId>>)
    requires AllShare(asks, s) && s >= 0 && Serving(u, asks, d) && d != []
    requires |c| == |d[0]| && c <= u.Keys && forall k, j :: k in c && j in u && j !in c ==> u[k] <= u[j]
    ensures Serving(u, asks, d') && d'[0] == c
    decreases |c - d[0]|
  {
    if c <= d[0] {
      if d[0] != c {
        assert c < d[0];
        SmallerSubset(c, d[0]);
      }
      d' := d;
    } else {
      assert c - d[0] != {} by {
        NothingBeyond(c, d[0]);
      }
      var k := Member(c - d[0]);
      assert d[0] - c != {} by {
        NotWithin(d[0], c, k);
      }
      var j := Member(d[0] - c);
      assert j in u;
      var e := Exchange(u, asks, s, d, k, j);
      assert c - e[0] == c - d[0] - {k};
      d' := FirstMayBeLeast(u, asks, s, e, c);
    }
  }

  lemma NothingBeyond(a: set<CpuId>, b: set<CpuId>)
    ensures a - b == {} ==> a <= b
  {
    if a - b == {} {
      assert forall x <- a :: x in b || x in a - b;
    }
  }

  lemma SmallerSubset(a: set<CpuId>, b: set<CpuId>)
    requires a < b
    ensures |a| < |b|
  {
    assert b - a != {} by {
      NothingBeyond(b, a);
    }
    var x := Member(b - a);
    CardinalityMonotone(a, b - {x});
  }

  lemma NotWithin(a: set<CpuId>, b: set<CpuId>, k: CpuId)
    requires |a| == |b| && k in b && k !in a
    ensures a - b != {}
  {
    if a - b == {} {
      assert forall x <- a :: x in b || x in a - b;
      assert a <= b - {k};
      CardinalityMonotone(a, b - {k});
    }
  }

  // ----- With equal shares -----

  /** Taking the batch's first claim first. */
  lemma {:induction false} AdmitFirst(v: seq<int>, a: Ask, asks: seq<Ask>)
    ensures Admit(v, [a] + asks) == if Step(v, a).None? then None else Admit(Step(v, a).value, asks)
    decreases |asks|
  {
    var all := [a] + asks;
    if asks == [] {
      assert all[..0] == [];
      assert Admit(v, all[..0]) == Some(v);
    } else {
      var n := |asks| - 1;
      assert all[..|all| - 1] == [a] + asks[..n];
      AdmitFirst(v, a, asks[..n]);
    }
  }

  lemma FirstHasRoom(u: UtilMap, asks: seq<Ask>, s: int, d: seq<set<CpuId>>)
    requires AllShare(asks, s) && s >= 0 && Serving(u, asks, d) && d != []
    ensures |Fitting(u, s)| >= asks[0].count
  {
    forall k | k in d[0]
      ensures k in Fitting(u, s)
    {
      ExtraNonNegative(asks[1..], d[1..], k);
    }
    CardinalityMonotone(d[0], Fitting(u, s));
  }

  /** What is left of a packing serves the other claims on the ledger after the first. */
  lemma RestServes(u: UtilMap, asks: seq<Ask>, d: seq<set<CpuId>>, c: seq<CpuId>)
    requires Serving(u, asks, d) && d != [] && d[0] == Elements(c)
    ensures Serving(Place(u, c, asks[0].share), asks[1..], d[1..])
  {
    var u' := Place(u, c, asks[0].share);
    forall i, k | 0 <= i < |d[1..]| && k in d[1..][i]
      ensures k in u' && u'[k] + Extra(asks[1..], d[1..], k) < THRESHOLD
    {
      assert k in d[i + 1];
      assert k in c <==> k in d[0];
    }
  }

  lemma {:induction false} PackableIsAdmitted(u: UtilMap, asks: seq<Ask>, s: int, d: seq<set<CpuId>>)
    requires AllShare(asks, s) && s >= 0 && Serving(u, asks, d)
    ensures Admit(Profile(u), asks).Some?
    decreases |asks|
  {
    if asks != [] {
      FirstHasRoom(u, asks, s, d);
      var c := WorstFitExists(u, s, asks[0].count);
      DistinctCardinality(c);
      PlacementElements(u, s, asks[0].count, c);
      LeastElements(u, s, asks[0].count, c);
      var d' := FirstMayBeLeast(u, asks, s, d, Elements(c));
      RestServes(u, asks, d', c);
      PackableIsAdmitted(Place(u, c, s), asks[1..], s, d'[1..]);
      StepRefined(u, asks[0], c);
      AdmitFirst(Profile(u), asks[0], asks[1..]);
      assert asks == [asks[0]] + asks[1..];
    }
  }

  lemma LeastElements(u: UtilMap, s: int, n: int, c: seq<CpuId>)
    requires WorstFit(u, s, n, c)
    ensures forall k, j :: k in Elements(c) && j in u && j !in Elements(c) ==> u[k] <= u[j]
  {
    forall k, j | k in Elements(c) && j in u && j !in Elements(c)
      ensures u[k] <= u[j]
    {
      var i :| 0 <= i < |c| && c[i] == k;
      assert j !in c;
    }
  }

  /**
   With equal shares the greedy scheduler is complete: it admits a batch, whatever the
   claims' counts, if and only if the batch fits on the node at all.
   */
  lemma EqualSharesComplete(u: UtilMap, asks: seq<Ask>, s: int)
    requires AllShare(asks, s) && s >= 0
    ensures Admit(Profile(u), asks).Some? <==> Packable(u, asks)
  {
    if Admit(Profile(u), asks).Some? {
      var choices := AdmittedIsPacked(u, asks);
      PackedIsServing(u, asks, choices);
    }
    if d :| Serving(u, asks, d) {
      PackableIsAdmitted(u, asks, s, d);
    }
  }

  /** Whatever the shares, what is admitted fits. */
  lemma AdmittedFits(u: UtilMap, asks: seq<Ask>)
    requires forall i :: 0 <= i < |asks| ==> asks[i].share >= 0
    ensures Admit(Profile(u), asks).Some? ==> Packable(u, asks)
  {
    if Admit(Profile(u), asks).Some? {
      var choices := AdmittedIsPacked(u, asks);
      PackedIsServing(u, asks, choices);
    }
  }

  /** So a node is marked only if it is down or no placement whatever has room for the batch. */
  lemma EqualSharesMarked(s: State, n: NodeName, reachable: bool, reqs: seq<Request>, share: int)
    requires n in s.store && AllShare(Asks(Unplaced(s, n, reqs)), share) && share >= 0
    ensures Suitable(s, n, reachable, reqs)
       <==> Up(s, n, reachable) && Packable(ProbeUtil(s, n), Asks(Unplaced(s, n, reqs)))
  {
    EqualSharesComplete(ProbeUtil(s, n), Asks(Unplaced(s, n, reqs)), share);
  }

  // ----- With unequal shares -----

  const TWOIDLE: UtilMap := map[0 := 0, 1 := 0]
  const UNEVEN: seq<Ask> := [Ask(1, 400), Ask(1, 400), Ask(1, 800)]

  /**
   Claims of 400, 400 and 800 per mille fit on two idle CPUs, the first two together; but
   worst fit puts them apart, and the node is marked.
   */
  lemma UnequalSharesIncomplete()
    ensures Packable(TWOIDLE, UNEVEN) && Admit(Profile(TWOIDLE), UNEVEN).None?
  {
    UnevenServed();
    UnevenRefused();
  }

  lemma UnevenServed()
    ensures Serving(TWOIDLE, UNEVEN, [{0}, {0}, {1}])
  {
    var d: seq<set<CpuId>> := [{0}, {0}, {1}];
    assert UNEVEN[1..] == [Ask(1, 400), Ask(1, 800)];
    assert UNEVEN[1..][1..] == [Ask(1, 800)] && UNEVEN[1..][1..][1..] == [];
    assert d[1..] == [{0}, {1}] && d[1..][1..] == [{1}] && d[1..][1..][1..] == [];
    forall k
      ensures Extra(UNEVEN, d, k) == if k == 0 then 800 else if k == 1 then 800 else 0
    {
      assert Extra(UNEVEN[1..][1..][1..], d[1..][1..][1..], k) == 0;
      assert Extra(UNEVEN[1..][1..], d[1..][1..], k) == if k == 1 then 800 else 0;
      assert Extra(UNEVEN[1..], d[1..], k) == if k == 0 then 400 else if k == 1 then 800 else 0;
    }
  }

  lemma UnevenRefused()
    ensures Admit(Profile(TWOIDLE), UNEVEN).None?
  {
    var v := Profile(TWOIDLE);
    IdleProfile();
    assert UNEVEN[..0] == [] && UNEVEN[..2][..1] == UNEVEN[..1] && UNEVEN[..1][..0] == [];
    assert Admit(v, UNEVEN[..1]) == Step([0, 0], Ask(1, 400));
    FirstStep();
    assert Admit(v, UNEVEN[..2]) == Step([0, 400], Ask(1, 400));
    SecondStep();
    assert Admit(v, UNEVEN[..2]) == Some([400, 400]);
  }

  lemma IdleProfile()
    ensures Profile(TWOIDLE) == [0, 0]
  {
    ProfileRemove(TWOIDLE, 0);
    assert TWOIDLE - {0} == map[1 := 0];
    ProfileRemove(map[1 := 0], 1);
    assert map[1 := 0] - {1} == map[];
  }

  lemma FirstStep()
    ensures Step([0, 0], Ask(1, 400)) == Some([0, 400])
  {
    assert Raised([0, 0][..1], 400) == [400] && [0, 0][1..] == [0];
    assert Insert(400, [0]) == [0] + Insert(400, [0][1..]) == [0, 400];
  }

  lemma SecondStep()
    ensures Step([0, 400], Ask(1, 400)) == Some([400, 400])
  {
    assert Raised([0, 400][..1], 400) == [400] && [0, 400][1..] == [400];
    assert Insert(400, [400]) == [400, 400];
  }
}
