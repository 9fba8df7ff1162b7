/**
 Choosing CPUs for one claim (`cpuPartitioning`): which CPUs have room, the stable
 sort by score, and why the two policies are the right greedy choices.
 */
module Partition {
  import opened Nas
  import opened Demand

  /** The CPUs on which a request of `req` per mille has room. */
  function Fitting(u: UtilMap, req: int): set<CpuId> {
    set k | k in u && u[k] + req < THRESHOLD
  }

  /** `c` lists `n` distinct CPUs of the ledger, each with room for the request. */
  ghost predicate Placement(u: UtilMap, req: int, n: int, c: seq<CpuId>) {
    |c| == n && Distinct(c) && forall i :: 0 <= i < |c| ==> c[i] in Fitting(u, req)
  }

  lemma PlacementElements(u: UtilMap, s: int, n: int, c: seq<CpuId>)
    requires Placement(u, s, n, c)
    ensures Elements(c) <= u.Keys
  {
  }

  /** A placement on least loaded CPUs, least loaded first. */
  ghost predicate WorstFit(u: UtilMap, req: int, n: int, c: seq<CpuId>) {
    && Placement(u, req, n, c)
    && (forall i, j :: 0 <= i < j < |c| ==> u[c[i]] <= u[c[j]])
    && (forall i, k :: 0 <= i < |c| && k in u && k !in c ==> u[c[i]] <= u[k])
  }

  /** A placement on most loaded CPUs with room, most loaded first. */
  ghost predicate BestFit(u: UtilMap, req: int, n: int, c: seq<CpuId>) {
    && Placement(u, req, n, c)
    && (forall i, j :: 0 <= i < j < |c| ==> u[c[j]] <= u[c[i]])
    && (forall i, k :: 0 <= i < |c| && k in Fitting(u, req) && k !in c ==> u[k] <= u[c[i]])
  }

  // ----- sort.SliceStable -----

  datatype ScoredCpu = ScoredCpu(cpu: CpuId, score: int)

  /** Orders by score, highest first unless `bestFit`. */
  function Rank(x: ScoredCpu, bestFit: bool): int {
    if bestFit then x.score else -x.score
  }

  /** Puts `x` before the first element that does not rank strictly below it. */
  function InsertStable(x: ScoredCpu, s: seq<ScoredCpu>, bestFit: bool): seq<ScoredCpu> {
    if s == [] || Rank(x, bestFit) <= Rank(s[0], bestFit) then [x] + s
    else [s[0]] + InsertStable(x, s[1..], bestFit)
  }

  function SliceStable(s: seq<ScoredCpu>, bestFit: bool): seq<ScoredCpu> {
    if s == [] then [] else InsertStable(s[0], SliceStable(s[1..], bestFit), bestFit)
  }

  ghost predicate Ranked(s: seq<ScoredCpu>, bestFit: bool) {
    forall i, j :: 0 <= i < j < |s| ==> Rank(s[i], bestFit) <= Rank(s[j], bestFit)
  }

  function WithScore(s: seq<ScoredCpu>, score: int): seq<ScoredCpu> {
    if s == [] then []
    else (if s[0].score == score then [s[0]] else []) + WithScore(s[1..], score)
  }

  lemma {:induction false} InsertStableSorts(x: ScoredCpu, s: seq<ScoredCpu>, bestFit: bool)
    requires Ranked(s, bestFit)
    ensures Ranked(InsertStable(x, s, bestFit), bestFit)
  {
    if s != [] && Rank(s[0], bestFit) < Rank(x, bestFit) {
      var rest := InsertStable(x, s[1..], bestFit);
      InsertStableSorts(x, s[1..], bestFit);
      InsertStablePermutes(x, s[1..], bestFit);
      forall i | 0 <= i < |rest|
        ensures Rank(s[0], bestFit) <= Rank(rest[i], bestFit)
      {
        assert rest[i] in multiset(rest);
        if rest[i] != x {
          assert rest[i] in multiset(s[1..]);
          var j :| 0 <= j < |s[1..]| && s[1..][j] == rest[i];
          assert s[j + 1] == rest[i];
        }
      }
      RankedCons(s[0], rest, bestFit);
    }
  }

  lemma RankedCons(x: ScoredCpu, s: seq<ScoredCpu>, bestFit: bool)
    requires Ranked(s, bestFit) && forall i :: 0 <= i < |s| ==> Rank(x, bestFit) <= Rank(s[i], bestFit)
    ensures Ranked([x] + s, bestFit)
  {
  }

  lemma {:induction false} InsertStablePermutes(x: ScoredCpu, s: seq<ScoredCpu>, bestFit: bool)
    ensures multiset(InsertStable(x, s, bestFit)) == multiset{x} + multiset(s)
  {
    if s != [] && Rank(s[0], bestFit) < Rank(x, bestFit) {
      InsertStablePermutes(x, s[1..], bestFit);
      assert s == [s[0]] + s[1..];
    }
  }

  lemma {:induction false} InsertStableKeepsOrder(x: ScoredCpu, s: seq<ScoredCpu>, bestFit: bool, v: int)
    ensures WithScore(InsertStable(x, s, bestFit), v) == WithScore([x], v) + WithScore(s, v)
  {
    if s == [] || Rank(x, bestFit) <= Rank(s[0], bestFit) {
      assert ([x] + s)[1..] == s;
    } else {
      var rest := InsertStable(x, s[1..], bestFit);
      InsertStableKeepsOrder(x, s[1..], bestFit, v);
      assert ([s[0]] + rest)[1..] == rest;
    }
  }

  /** The sort permutes its input into rank order ... */
  lemma {:induction false} SliceStableSorts(s: seq<ScoredCpu>, bestFit: bool)
    ensures Ranked(SliceStable(s, bestFit), bestFit)
    ensures multiset(SliceStable(s, bestFit)) == multiset(s)
  {
    if s != [] {
      SliceStableSorts(s[1..], bestFit);
      InsertStableSorts(s[0], SliceStable(s[1..], bestFit), bestFit);
      InsertStablePermutes(s[0], SliceStable(s[1..], bestFit), bestFit);
      assert s == [s[0]] + s[1..];
    }
  }

  /** ... and keeps equally scored CPUs in their original order. */
  lemma {:induction false} SliceStableKeepsOrder(s: seq<ScoredCpu>, bestFit: bool, v: int)
    ensures WithScore(SliceStable(s, bestFit), v) == WithScore(s, v)
  {
    if s != [] {
      SliceStableKeepsOrder(s[1..], bestFit, v);
      InsertStableKeepsOrder(s[0], SliceStable(s[1..], bestFit), bestFit, v);
    }
  }

  // ----- cpuPartitioning -----

  /** `s` lists every CPU of `among` with room once, with its score. */
  ghost predicate Scored(s: seq<ScoredCpu>, u: UtilMap, req: int, among: set<CpuId>) {
    if s == [] then among !! Fitting(u, req)
    else
      var last := s[|s| - 1];
      && last.cpu in among && last.cpu in Fitting(u, req)
      && last.score == THRESHOLD - u[last.cpu] - req
      && Scored(s[..|s| - 1], u, req, among - {last.cpu})
  }

  lemma {:induction false} ScoredNext(s: seq<ScoredCpu>, u: UtilMap, req: int, seen: set<CpuId>, id: CpuId)
    requires Scored(s, u, req, seen) && id in u && id !in seen
    ensures id !in Fitting(u, req) ==> Scored(s, u, req, seen + {id})
    ensures id in Fitting(u, req) ==> Scored(s + [ScoredCpu(id, THRESHOLD - u[id] - req)], u, req, seen + {id})
  {
    if id in Fitting(u, req) {
      var t := s + [ScoredCpu(id, THRESHOLD - u[id] - req)];
      assert t[..|s|] == s && seen + {id} - {id} == seen;
    } else if s != [] {
      var last := s[|s| - 1].cpu;
      ScoredNext(s[..|s| - 1], u, req, seen - {last}, id);
      assert seen - {last} + {id} == seen + {id} - {last};
    }
  }

  /** The same, element by element. */
  ghost predicate ScoredEach(s: seq<ScoredCpu>, u: UtilMap, req: int) {
    && Distinct(CpusOf(s))
    && (forall i :: 0 <= i < |s| ==> s[i].cpu in Fitting(u, req) && s[i].score == THRESHOLD - u[s[i].cpu] - req)
  }

  lemma {:induction false} ScoredElements(s: seq<ScoredCpu>, u: UtilMap, req: int, among: set<CpuId>)
    requires Scored(s, u, req, among)
    ensures ScoredEach(s, u, req)
    ensures Elements(CpusOf(s)) == among * Fitting(u, req)
  {
    if s != [] {
      var front, last := s[..|s| - 1], s[|s| - 1];
      ScoredElements(front, u, req, among - {last.cpu});
      var ids := CpusOf(front);
      assert CpusOf(s) == ids + [last.cpu];
      assert last.cpu !in Elements(ids);
      assert Elements(ids + [last.cpu]) == Elements(ids) + {last.cpu};
    }
  }

  lemma {:induction false} DistinctCardinality<T>(s: seq<T>)
    requires Distinct(s)
    ensures |Elements(s)| == |s|
  {
    if s != [] {
      var front := s[..|s| - 1];
      DistinctCardinality(front);
      assert Elements(s) == Elements(front) + {s[|s| - 1]};
      assert s[|s| - 1] !in front;
    }
  }

  lemma {:induction false} DistinctCounts<T>(s: seq<T>)
    ensures Distinct(s) <==> forall x <- s :: multiset(s)[x] == 1
  {
    if s != [] {
      var front, last := s[..|s| - 1], s[|s| - 1];
      DistinctCounts(front);
      assert s == front + [last];
      assert Distinct(s) <==> Distinct(front) && last !in front;
      if last in front {
        assert multiset(s)[last] >= 2;
      } else {
        assert forall x <- front :: multiset(s)[x] == multiset(front)[x];
      }
    }
  }

  lemma DistinctPermutation<T>(s: seq<T>, t: seq<T>)
    requires Distinct(s) && multiset(t) == multiset(s)
    ensures Distinct(t)
    ensures forall x :: x in t <==> x in s
  {
    DistinctCounts(s);
    DistinctCounts(t);
    assert forall x :: x in t <==> x in multiset(t);
  }

  lemma PermutationScored(s: seq<ScoredCpu>, t: seq<ScoredCpu>, u: UtilMap, req: int)
    requires ScoredEach(s, u, req) && multiset(t) == multiset(s)
    ensures ScoredEach(t, u, req)
    ensures Elements(CpusOf(t)) == Elements(CpusOf(s))
  {
    forall i, j | 0 <= i < j < |s|
      ensures s[i] != s[j]
    {
      assert CpusOf(s)[i] != CpusOf(s)[j];
    }
    DistinctPermutation(s, t);
    forall i | 0 <= i < |t|
      ensures t[i].cpu in Fitting(u, req) && t[i].score == THRESHOLD - u[t[i].cpu] - req
    {
      assert t[i] in s;
    }
    forall i, j | 0 <= i < j < |t|
      ensures CpusOf(t)[i] != CpusOf(t)[j]
    {
      assert t[i] != t[j];
    }
    forall k
      ensures k in CpusOf(t) <==> k in CpusOf(s)
    {
      if k in CpusOf(t) {
        var i :| 0 <= i < |t| && t[i].cpu == k;
        assert t[i] in s;
        var j :| 0 <= j < |s| && s[j] == t[i];
        assert CpusOf(s)[j] == k;
      }
      if k in CpusOf(s) {
        var i :| 0 <= i < |s| && s[i].cpu == k;
        assert s[i] in t;
        var j :| 0 <= j < |t| && t[j] == s[i];
        assert CpusOf(t)[j] == k;
      }
    }
  }

  function CpusOf(s: seq<ScoredCpu>): (c: seq<CpuId>)
    ensures |c| == |s| && forall i :: 0 <= i < |c| ==> c[i] == s[i].cpu
  {
    seq(|s|, i requires 0 <= i < |s| => s[i].cpu)
  }

  /** A prefix of the ranked CPUs is a choice under the policy. */
  lemma RankedPrefix(t: seq<ScoredCpu>, u: UtilMap, req: int, bestFit: bool, n: nat)
    requires ScoredEach(t, u, req) && Elements(CpusOf(t)) == Fitting(u, req)
    requires Ranked(t, bestFit) && n <= |t|
    ensures bestFit ==> BestFit(u, req, n, CpusOf(t[..n]))
    ensures !bestFit ==> WorstFit(u, req, n, CpusOf(t[..n]))
  {
    var c := CpusOf(t[..n]);
    forall i, j | 0 <= i < j < n
      ensures c[i] != c[j] && if bestFit then u[c[j]] <= u[c[i]] else u[c[i]] <= u[c[j]]
    {
      assert CpusOf(t)[i] != CpusOf(t)[j];
      assert Rank(t[i], bestFit) <= Rank(t[j], bestFit);
    }
    forall i, k | 0 <= i < n && k in Fitting(u, req) && k !in c
      ensures if bestFit then u[k] <= u[c[i]] else u[c[i]] <= u[k]
    {
      assert k in Elements(CpusOf(t));
      var j :| 0 <= j < |t| && t[j].cpu == k;
      assert CpusOf(t)[j] == k && c == CpusOf(t)[..n];
      assert Rank(t[i], bestFit) <= Rank(t[j], bestFit);
    }
  }

  lemma SelectionIsChoice(s: seq<ScoredCpu>, u: UtilMap, req: int, bestFit: bool, n: nat)
    requires Scored(s, u, req, u.Keys) && n <= |s|
    ensures |SliceStable(s, bestFit)| == |s|
    ensures bestFit ==> BestFit(u, req, n, CpusOf(SliceStable(s, bestFit)[..n]))
    ensures !bestFit ==> WorstFit(u, req, n, CpusOf(SliceStable(s, bestFit)[..n]))
  {
    var t := SliceStable(s, bestFit);
    SliceStableSorts(s, bestFit);
    assert |multiset(t)| == |multiset(s)|;
    ScoredElements(s, u, req, u.Keys);
    PermutationScored(s, t, u, req);
    assert u.Keys * Fitting(u, req) == Fitting(u, req);
    RankedPrefix(t, u, req, bestFit, n);
  }

  lemma ScoredCardinality(s: seq<ScoredCpu>, u: UtilMap, req: int)
    requires Scored(s, u, req, u.Keys)
    ensures |s| == |Fitting(u, req)|
  {
    ScoredElements(s, u, req, u.Keys);
    var ids := CpusOf(s);
    DistinctCardinality(ids);
    assert u.Keys * Fitting(u, req) == Fitting(u, req);
  }

  /** Scores the CPUs with room; the ledger is enumerated in an arbitrary order. */
  method ScoreCpus(spec: UtilMap, reqUtil: int) returns (scoredCpus: seq<ScoredCpu>)
    ensures Scored(scoredCpus, spec, reqUtil, spec.Keys)
  {
    scoredCpus := [];
    var todo, seen := spec.Keys, {};
    while todo != {}
      invariant seen + todo == spec.Keys && seen !! todo
      invariant Scored(scoredCpus, spec, reqUtil, seen)
      decreases |todo|
    {
      var id := NextKey(todo);
      var score := THRESHOLD - spec[id] - reqUtil;
      ScoredNext(scoredCpus, spec, reqUtil, seen, id);
      if score > 0 {
        scoredCpus := scoredCpus + [ScoredCpu(id, score)];
      }
      todo, seen := todo - {id}, seen + {id};
    }
    assert seen == spec.Keys;
  }

  /** Selects `reqCpus` CPUs for a request of `reqUtil` per mille on each. */
  method CpuPartitioning(spec: UtilMap, reqUtil: int, reqCpus: int, policy: string) returns (r: Option<seq<CpuId>>)
    ensures r.None? <==> |Fitting(spec, reqUtil)| < reqCpus
    ensures r.Some? && policy == "bestFit" ==> BestFit(spec, reqUtil, if reqCpus < 0 then 0 else reqCpus, r.value)
    ensures r.Some? && policy != "bestFit" ==> WorstFit(spec, reqUtil, if reqCpus < 0 then 0 else reqCpus, r.value)
  {
    var scoredCpus := ScoreCpus(spec, reqUtil);
    ScoredCardinality(scoredCpus, spec, reqUtil);
    if |scoredCpus| < reqCpus {
      return None;
    }
    var bestFit := policy == "bestFit";
    var sorted := SliceStable(scoredCpus, bestFit);
    SelectionIsChoice(scoredCpus, spec, reqUtil, bestFit, if reqCpus < 0 then 0 else reqCpus);

    var fittingCpus: seq<CpuId> := [];
    var i := 0;
    while i < reqCpus
      invariant 0 <= i <= |sorted| && (i == 0 || i <= reqCpus)
      invariant fittingCpus == CpusOf(sorted[..i])
    {
      fittingCpus := fittingCpus + [sorted[i].cpu];
      i := i + 1;
    }
    return Some(fittingCpus);
  }

  // ----- Why the greedy choices are right -----

  /** The ledger after `s` per mille more on each chosen CPU. */
  function Place(u: UtilMap, c: seq<CpuId>, s: int): UtilMap {
    map k | k in u :: if k in c then u[k] + s else u[k]
  }

  /** Two lists of equally many distinct CPUs: what one has beyond the other, the other has too. */
  lemma Pigeonhole(c: seq<CpuId>, d: seq<CpuId>, k: CpuId)
    requires Distinct(c) && Distinct(d) && |c| == |d|
    requires k in c && k !in d
    ensures exists j :: 0 <= j < |d| && d[j] !in c
  {
    var cs, ds := Elements(c), Elements(d);
    DistinctCardinality(c);
    DistinctCardinality(d);
    if ds <= cs {
      assert ds <= cs - {k};
      CardinalityMonotone(ds, cs - {k});
    }
  }

  lemma {:induction false} CardinalityMonotone<T>(a: set<T>, b: set<T>)
    requires a <= b
    ensures |a| <= |b|
  {
    if a != {} {
      var x :| x in a;
      CardinalityMonotone(a - {x}, b - {x});
    }
  }

  /**
   Worst fit minimises the node's peak: whatever CPU is looked at after a worst-fit
   placement, any other placement leaves some CPU at least as loaded.
   */
  lemma WorstFitMinimisesPeak(u: UtilMap, s: int, n: int, c: seq<CpuId>, d: seq<CpuId>, k: CpuId)
    requires s >= 0
    requires WorstFit(u, s, n, c) && Placement(u, s, n, d)
    requires k in u
    ensures exists j :: j in u && Place(u, c, s)[k] <= Place(u, d, s)[j]
  {
    if k in c && k !in d {
      Pigeonhole(c, d, k);
      var j :| 0 <= j < |d| && d[j] !in c;
      var i :| 0 <= i < |c| && c[i] == k;
      var j' := d[j];
      assert j' in Fitting(u, s);
      assert j' in u && u[c[i]] <= u[j'];
      assert Place(u, c, s)[k] <= Place(u, d, s)[j'];
    } else {
      assert Place(u, c, s)[k] <= Place(u, d, s)[k];
    }
  }

  /** The utilisation already present on the listed CPUs. */
  ghost function Existing(u: UtilMap, c: seq<CpuId>): int
    requires forall i :: 0 <= i < |c| ==> c[i] in u
  {
    if c == [] then 0 else Existing(u, c[..|c| - 1]) + u[c[|c| - 1]]
  }

  lemma {:induction false} ExistingRemove(u: UtilMap, c: seq<CpuId>, i: nat)
    requires forall i :: 0 <= i < |c| ==> c[i] in u
    requires i < |c|
    ensures Existing(u, c) == Existing(u, c[..i] + c[i + 1..]) + u[c[i]]
  {
    if i < |c| - 1 {
      var front := c[..|c| - 1];
      ExistingRemove(u, front, i);
      var rest := c[..i] + c[i + 1..];
      assert rest[..|rest| - 1] == front[..i] + front[i + 1..];
    } else {
      assert c[..i] + c[i + 1..] == c[..|c| - 1];
    }
  }

  lemma BestFitDropLast(u: UtilMap, s: int, n: int, c: seq<CpuId>)
    requires n > 0 && BestFit(u, s, n, c)
    ensures BestFit(u, s, n - 1, c[..n - 1])
  {
  }

  /** Best fit chooses a placement of maximal existing utilisation. */
  lemma {:induction false} BestFitMaximisesExisting(u: UtilMap, s: int, n: int, c: seq<CpuId>, d: seq<CpuId>)
    requires BestFit(u, s, n, c) && Placement(u, s, n, d)
    ensures Existing(u, d) <= Existing(u, c)
    decreases n
  {
    if n > 0 {
      // Take away the least loaded chosen CPU, and from `d` the same CPU if it is
      // there, else any CPU that `c` does not use.
      var last := c[n - 1];
      var j: nat;
      if last in d {
        j :| 0 <= j < |d| && d[j] == last;
      } else {
        Pigeonhole(c, d, last);
        j :| 0 <= j < |d| && d[j] !in c;
      }
      var d' := d[..j] + d[j + 1..];
      ExistingRemove(u, d, j);
      var j' := d[j];
      assert j' in Fitting(u, s);
      assert c[n - 1] == last;
      assert u[j'] <= u[last];
      BestFitDropLast(u, s, n, c);
      assert Placement(u, s, n - 1, d');
      BestFitMaximisesExisting(u, s, n - 1, c[..n - 1], d');
    }
  }
}
