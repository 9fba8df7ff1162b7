/**
 Packing a batch of claims onto one node.  The outcome of the greedy scheduler is a
 function of the node's sorted vector of CPU utilisations alone; everything said here
 about tie-breaking, map iteration order and monotonicity follows from that.
 */
module Packing {
  import opened Nas
  import opened Demand
  import opened Partition

  /** One claim's need: `count` distinct CPUs, `share` per mille on each. */
  datatype Ask = Ask(count: nat, share: int)

  // ----- What the scheduler does to a ledger -----

  /** The ledger after every ask was placed on the CPUs chosen for it. */
  ghost function After(u: UtilMap, asks: seq<Ask>, choices: seq<seq<CpuId>>): UtilMap
    requires |choices| == |asks|
  {
    if asks == [] then u
    else
      var i := |asks| - 1;
      Place(After(u, asks[..i], choices[..i]), choices[i], asks[i].share)
  }

  /** Each choice is a worst-fit choice on the ledger left by the ones before it. */
  ghost predicate PackedBy(u: UtilMap, asks: seq<Ask>, choices: seq<seq<CpuId>>): (packed: bool)
    ensures packed ==> |choices| == |asks|
  {
    && |choices| == |asks|
    && (asks != [] ==>
          var i := |asks| - 1;
          && PackedBy(u, asks[..i], choices[..i])
          && WorstFit(After(u, asks[..i], choices[..i]), asks[i].share, asks[i].count, choices[i]))
  }

  lemma PackedByAppend(u: UtilMap, asks: seq<Ask>, choices: seq<seq<CpuId>>, a: Ask, c: seq<CpuId>)
    requires PackedBy(u, asks, choices)
    requires WorstFit(After(u, asks, choices), a.share, a.count, c)
    ensures PackedBy(u, asks + [a], choices + [c])
    ensures After(u, asks + [a], choices + [c]) == Place(After(u, asks, choices), c, a.share)
  {
  }

  // ----- Sorted vectors -----

  ghost predicate Sorted(v: seq<int>) {
    forall i, j :: 0 <= i < j < |v| ==> v[i] <= v[j]
  }

  ghost function Insert(x: int, v: seq<int>): seq<int> {
    if v == [] || x <= v[0] then [x] + v else [v[0]] + Insert(x, v[1..])
  }

  ghost function InsertAll(xs: seq<int>, v: seq<int>): seq<int> {
    if xs == [] then v else Insert(xs[0], InsertAll(xs[1..], v))
  }

  /** The node's CPU utilisations in ascending order. */
  ghost function Profile(u: UtilMap): seq<int> {
    if u == map[] then []
    else
      var k := Pick(u);
      Insert(u[k], Profile(u - {k}))
  }

  ghost function Raised(v: seq<int>, s: int): (r: seq<int>)
    ensures |r| == |v| && forall i :: 0 <= i < |r| ==> r[i] == v[i] + s
  {
    seq(|v|, i requires 0 <= i < |v| => v[i] + s)
  }

  /** One worst-fit step on a sorted vector: raise the smallest entries, if all of them have room. */
  ghost function Step(v: seq<int>, a: Ask): Option<seq<int>> {
    if a.count > |v| || (a.count > 0 && v[a.count - 1] + a.share >= THRESHOLD) then None
    else Some(InsertAll(Raised(v[..a.count], a.share), v[a.count..]))
  }

  /** The whole batch on a sorted vector. */
  ghost function Admit(v: seq<int>, asks: seq<Ask>): Option<seq<int>> {
    if asks == [] then Some(v)
    else
      match Admit(v, asks[..|asks| - 1])
      case None => None
      case Some(w) => Step(w, asks[|asks| - 1])
  }

  /** A batch that gets stuck on a prefix stays stuck. */
  lemma {:induction false} StuckStaysStuck(v: seq<int>, asks: seq<Ask>, i: nat)
    requires i <= |asks| && Admit(v, asks[..i]).None?
    ensures Admit(v, asks).None?
    decreases |asks|
  {
    if i < |asks| {
      var front := asks[..|asks| - 1];
      assert front[..i] == asks[..i];
      StuckStaysStuck(v, front, i);
    } else {
      assert asks[..i] == asks;
    }
  }

  // ----- Insertion -----

  lemma {:induction false} InsertSorted(x: int, v: seq<int>)
    requires Sorted(v)
    ensures Sorted(Insert(x, v)) && |Insert(x, v)| == |v| + 1
    ensures forall i :: 0 <= i < |Insert(x, v)| ==> Insert(x, v)[i] == x || Insert(x, v)[i] in v
  {
    if v != [] && v[0] < x {
      InsertSorted(x, v[1..]);
    }
  }

  lemma {:induction false} InsertCommutes(x: int, y: int, v: seq<int>)
    ensures Insert(x, Insert(y, v)) == Insert(y, Insert(x, v))
  {
    if v != [] && v[0] < x && v[0] < y {
      InsertCommutes(x, y, v[1..]);
    }
  }

  lemma {:induction false} InsertAllSorted(xs: seq<int>, v: seq<int>)
    requires Sorted(v)
    ensures Sorted(InsertAll(xs, v)) && |InsertAll(xs, v)| == |xs| + |v|
  {
    if xs != [] {
      InsertAllSorted(xs[1..], v);
      InsertSorted(xs[0], InsertAll(xs[1..], v));
    }
  }

  lemma {:induction false} ProfileSorted(u: UtilMap)
    ensures Sorted(Profile(u)) && |Profile(u)| == |u|
  {
    if u != map[] {
      var k := Pick(u);
      ProfileSorted(u - {k});
      InsertSorted(u[k], Profile(u - {k}));
    }
  }

  /** The vector does not depend on the order in which CPUs are enumerated. */
  lemma {:induction false} ProfileRemove(u: UtilMap, k: CpuId)
    requires k in u
    ensures Profile(u) == Insert(u[k], Profile(u - {k}))
    decreases |u|
  {
    var v := Pick(u);
    if v != k {
      ProfileRemove(u - {v}, k);
      ProfileRemove(u - {k}, v);
      assert u - {v} - {k} == u - {k} - {v};
      InsertCommutes(u[k], u[v], Profile(u - {v} - {k}));
    }
  }

  lemma {:induction false} ProfileBounded(u: UtilMap, x: int)
    requires forall k <- u :: x <= u[k]
    ensures forall i :: 0 <= i < |Profile(u)| ==> x <= Profile(u)[i]
  {
    if u != map[] {
      var k := Pick(u);
      ProfileBounded(u - {k}, x);
      ProfileSorted(u - {k});
      InsertSorted(u[k], Profile(u - {k}));
      forall i | 0 <= i < |Profile(u)|
        ensures x <= Profile(u)[i]
      {
        assert Profile(u)[i] == u[k] || Profile(u)[i] in Profile(u - {k});
      }
    }
  }

  // ----- A worst-fit step on a ledger is the step on its vector -----

  ghost function Values(u: UtilMap, c: seq<CpuId>): (r: seq<int>)
    ensures |r| == |c| && forall i :: 0 <= i < |r| ==> r[i] == Lookup(u, c[i])
  {
    seq(|c|, i requires 0 <= i < |c| => Lookup(u, c[i]))
  }

  lemma WithoutFirst(u: UtilMap, c: seq<CpuId>)
    requires c != [] && c[0] in u && c[0] !in c[1..]
    ensures u - Elements(c) == u - {c[0]} - Elements(c[1..])
    ensures Values(u, c) == [u[c[0]]] + Values(u - {c[0]}, c[1..])
  {
  }

  /** `c` lists least loaded CPUs in order. */
  ghost predicate Leads(u: UtilMap, c: seq<CpuId>) {
    c != [] ==>
      && c[0] in u && c[0] !in c[1..]
      && (forall k <- u :: u[c[0]] <= u[k])
      && Leads(u - {c[0]}, c[1..])
  }

  lemma {:induction false} WorstFitLeads(u: UtilMap, c: seq<CpuId>)
    requires Distinct(c) && forall i :: 0 <= i < |c| ==> c[i] in u
    requires forall i, j :: 0 <= i < j < |c| ==> u[c[i]] <= u[c[j]]
    requires forall i, k :: 0 <= i < |c| && k in u && k !in c ==> u[c[i]] <= u[k]
    ensures Leads(u, c)
    decreases |c|
  {
    if c != [] {
      var u', c' := u - {c[0]}, c[1..];
      assert c == [c[0]] + c';
      forall k | k in u
        ensures u[c[0]] <= u[k]
      {
        if k in c {
          var i :| 0 <= i < |c| && c[i] == k;
        }
      }
      forall i, k | 0 <= i < |c'| && k in u' && k !in c'
        ensures u'[c'[i]] <= u'[k]
      {
        assert c'[i] == c[i + 1];
        assert k !in c;
      }
      WorstFitLeads(u', c');
    }
  }

  lemma ProfileMinimum(u: UtilMap, k: CpuId)
    requires k in u && forall j <- u :: u[k] <= u[j]
    ensures Profile(u) == [u[k]] + Profile(u - {k})
  {
    ProfileRemove(u, k);
    ProfileBounded(u - {k}, u[k]);
  }

  /** Least loaded CPUs listed in order are the front of the vector. */
  lemma {:induction false} ProfileSplit(u: UtilMap, c: seq<CpuId>)
    requires Leads(u, c)
    ensures Profile(u) == Values(u, c) + Profile(u - Elements(c))
    decreases |c|
  {
    if c == [] {
      assert u - Elements(c) == u;
    } else {
      ProfileSplit(u - {c[0]}, c[1..]);
      ProfileMinimum(u, c[0]);
      WithoutFirst(u, c);
    }
  }

  /** Raising some CPUs re-inserts their raised values among the rest. */
  lemma {:induction false} ProfilePlace(u: UtilMap, c: seq<CpuId>, s: int)
    requires Leads(u, c)
    ensures Profile(Place(u, c, s)) == InsertAll(Raised(Values(u, c), s), Profile(u - Elements(c)))
    decreases |c|
  {
    if c == [] {
      assert u - Elements(c) == u;
      assert Place(u, c, s) == u;
    } else {
      ProfilePlace(u - {c[0]}, c[1..], s);
      ProfilePlaceFirst(u, c, s);
    }
  }

  lemma ProfilePlaceFirst(u: UtilMap, c: seq<CpuId>, s: int)
    requires c != [] && c[0] in u && c[0] !in c[1..]
    requires var u', c' := u - {c[0]}, c[1..];
             Profile(Place(u', c', s)) == InsertAll(Raised(Values(u', c'), s), Profile(u' - Elements(c')))
    ensures Profile(Place(u, c, s)) == InsertAll(Raised(Values(u, c), s), Profile(u - Elements(c)))
  {
    hide Place, Profile, Insert, Elements;
    WithoutFirst(u, c);
    PlaceWithoutFirst(u, c, s);
    ProfileRemove(Place(u, c, s), c[0]);
    assert Raised(Values(u, c), s)[1..] == Raised(Values(u - {c[0]}, c[1..]), s);
  }

  lemma PlaceWithoutFirst(u: UtilMap, c: seq<CpuId>, s: int)
    requires c != [] && c[0] in u && c[0] !in c[1..]
    ensures Place(u, c, s) - {c[0]} == Place(u - {c[0]}, c[1..], s)
    ensures c[0] in Place(u, c, s) && Place(u, c, s)[c[0]] == u[c[0]] + s
  {
  }

  lemma StepRefined(u: UtilMap, a: Ask, c: seq<CpuId>)
    requires WorstFit(u, a.share, a.count, c)
    ensures Step(Profile(u), a) == Some(Profile(Place(u, c, a.share)))
  {
    WorstFitLeads(u, c);
    ProfileSplit(u, c);
    ProfilePlace(u, c, a.share);
    var v := Profile(u);
    assert v[..a.count] == Values(u, c);
    assert v[a.count..] == Profile(u - Elements(c));
    if a.count > 0 {
      assert v[a.count - 1] == u[c[a.count - 1]];
      assert c[a.count - 1] in Fitting(u, a.share);
    }
  }

  /** How many entries lie below `t`. */
  ghost function Below(v: seq<int>, t: int): nat {
    if v == [] then 0 else (if v[0] < t then 1 else 0) + Below(v[1..], t)
  }

  lemma {:induction false} BelowInsert(x: int, v: seq<int>, t: int)
    ensures Below(Insert(x, v), t) == (if x < t then 1 else 0) + Below(v, t)
  {
    if v == [] || x <= v[0] {
      assert ([x] + v)[1..] == v;
    } else {
      BelowInsert(x, v[1..], t);
      assert ([v[0]] + Insert(x, v[1..]))[1..] == Insert(x, v[1..]);
    }
  }

  lemma {:induction false} BelowProfile(u: UtilMap, s: int)
    ensures Below(Profile(u), THRESHOLD - s) == |Fitting(u, s)|
  {
    if u == map[] {
      assert Fitting(u, s) == {};
    } else {
      var k := Pick(u);
      BelowProfile(u - {k}, s);
      BelowInsert(u[k], Profile(u - {k}), THRESHOLD - s);
      if u[k] + s < THRESHOLD {
        assert Fitting(u, s) == Fitting(u - {k}, s) + {k};
      } else {
        assert Fitting(u, s) == Fitting(u - {k}, s);
      }
    }
  }

  /** In a sorted vector the first `n` entries lie below `t` exactly if at least `n` do. */
  lemma {:induction false} BelowSorted(v: seq<int>, t: int, n: nat)
    requires Sorted(v)
    ensures Below(v, t) <= |v|
    ensures 0 < n <= |v| ==> (v[n - 1] < t <==> n <= Below(v, t))
  {
    if v != [] {
      BelowSorted(v[1..], t, if n == 0 then 0 else n - 1);
      if v[0] >= t && |v| > 1 {
        BelowSorted(v[1..], t, 1);
      }
    }
  }

  /** The step gets stuck exactly when too few CPUs have room. */
  lemma StepStuck(u: UtilMap, a: Ask)
    ensures Step(Profile(u), a).None? <==> |Fitting(u, a.share)| < a.count
  {
    ProfileSorted(u);
    BelowProfile(u, a.share);
    BelowSorted(Profile(u), THRESHOLD - a.share, a.count);
  }

  // ----- Main results -----

  /**
   The verdict and the resulting utilisations do not depend on tie-breaking or on the
   order in which the ledger is enumerated: any run of the greedy scheduler ends with
   the vector computed by `Admit`.
   */
  lemma {:induction false} PackingRefined(u: UtilMap, asks: seq<Ask>, choices: seq<seq<CpuId>>)
    requires PackedBy(u, asks, choices)
    ensures Admit(Profile(u), asks) == Some(Profile(After(u, asks, choices)))
  {
    if asks != [] {
      var i := |asks| - 1;
      PackingRefined(u, asks[..i], choices[..i]);
      StepRefined(After(u, asks[..i], choices[..i]), asks[i], choices[i]);
    }
  }

  /** Nodes with the same multiset of utilisations are interchangeable, whatever ties are broken how. */
  lemma PackingDeterministic(
      u: UtilMap, u': UtilMap, asks: seq<Ask>, choices: seq<seq<CpuId>>, choices': seq<seq<CpuId>>)
    requires Profile(u) == Profile(u')
    requires PackedBy(u, asks, choices) && PackedBy(u', asks, choices')
    ensures Profile(After(u, asks, choices)) == Profile(After(u', asks, choices'))
  {
    PackingRefined(u, asks, choices);
    PackingRefined(u', asks, choices');
  }

  ghost predicate Pointwise(v: seq<int>, w: seq<int>) {
    |v| == |w| && forall i :: 0 <= i < |v| ==> v[i] <= w[i]
  }

  lemma PointwiseCons(x: int, y: int, v: seq<int>, w: seq<int>)
    requires x <= y && Pointwise(v, w)
    ensures Pointwise([x] + v, [y] + w)
  {
  }

  lemma PointwiseTail(v: seq<int>, w: seq<int>)
    requires Pointwise(v, w)
    ensures |v| == |w|
    ensures v != [] ==> v[0] <= w[0] && Pointwise(v[1..], w[1..])
  {
  }

  /** The least element of a sorted vector is inserted in front. */
  lemma InsertLeast(v: seq<int>)
    requires v != [] && Sorted(v)
    ensures Sorted(v[1..]) && Insert(v[0], v[1..]) == v
  {
  }

  lemma {:induction false} InsertMonotone(x: int, y: int, v: seq<int>, w: seq<int>)
    requires x <= y && Pointwise(v, w) && Sorted(v) && Sorted(w)
    ensures Pointwise(Insert(x, v), Insert(y, w))
    decreases |v|
  {
    hide Pointwise, Sorted;
    PointwiseTail(v, w);
    if v == [] {
      PointwiseCons(x, y, v, w);
    } else {
      var v', w' := v[1..], w[1..];
      InsertLeast(v);
      InsertLeast(w);
      if x <= v[0] && y <= w[0] {
        PointwiseCons(x, y, v, w);
      } else if x <= v[0] {
        InsertMonotone(v[0], y, v', w');
        PointwiseCons(x, w[0], v, Insert(y, w'));
      } else if y <= w[0] {
        InsertMonotone(x, w[0], v', w');
        PointwiseCons(v[0], y, Insert(x, v'), w);
      } else {
        InsertMonotone(x, y, v', w');
        PointwiseCons(v[0], w[0], Insert(x, v'), Insert(y, w'));
      }
    }
  }

  lemma {:induction false} InsertAllMonotone(xs: seq<int>, ys: seq<int>, v: seq<int>, w: seq<int>)
    requires Pointwise(xs, ys) && Pointwise(v, w) && Sorted(v) && Sorted(w)
    ensures Pointwise(InsertAll(xs, v), InsertAll(ys, w))
  {
    if xs != [] {
      InsertAllMonotone(xs[1..], ys[1..], v, w);
      InsertAllSorted(xs[1..], v);
      InsertAllSorted(ys[1..], w);
      InsertMonotone(xs[0], ys[0], InsertAll(xs[1..], v), InsertAll(ys[1..], w));
    }
  }

  /** Inserting the front of a sorted vector back into its rest restores it. */
  lemma {:induction false} InsertAllFront(v: seq<int>, n: nat)
    requires Sorted(v) && n <= |v|
    ensures InsertAll(v[..n], v[n..]) == v
  {
    if n > 0 {
      InsertAllFront(v[1..], n - 1);
      assert v[1..][..n - 1] == v[..n][1..];
      assert v[1..][n - 1..] == v[n..];
    }
  }

  lemma {:induction false} InsertAllAppend(xs: seq<int>, ys: seq<int>, v: seq<int>)
    ensures InsertAll(xs + ys, v) == InsertAll(xs, InsertAll(ys, v))
  {
    if xs == [] {
      assert xs + ys == ys;
    } else {
      assert (xs + ys)[1..] == xs[1..] + ys;
      InsertAllAppend(xs[1..], ys, v);
    }
  }

  /** An ask that needs no more CPUs and no more of each. */
  ghost predicate Lighter(a: Ask, b: Ask) {
    a.count <= b.count && a.share <= b.share
  }

  ghost predicate LighterBatch(a: seq<Ask>, b: seq<Ask>) {
    |a| == |b| && forall i :: 0 <= i < |a| ==> Lighter(a[i], b[i])
  }

  lemma StepMonotone(v: seq<int>, w: seq<int>, a: Ask, b: Ask)
    requires Sorted(v) && Sorted(w) && Pointwise(v, w)
    requires Lighter(a, b) && b.share >= 0
    requires Step(w, b).Some?
    ensures Step(v, a).Some?
    ensures Pointwise(Step(v, a).value, Step(w, b).value)
    ensures Sorted(Step(v, a).value) && Sorted(Step(w, b).value)
  {
    hide InsertAll, Raised;
    var n, m := a.count, b.count;
    assert n > 0 ==> v[n - 1] <= v[m - 1] <= w[m - 1];
    InsertAllSorted(Raised(v[..n], a.share), v[n..]);
    InsertAllSorted(Raised(w[..m], b.share), w[m..]);
    RaiseFewer(v, n, m, a.share);
    RaisedPointwise(v, w, n, m, a.share, b.share);
    InsertAllMonotone(Raised(v[..n], a.share) + v[n..m], Raised(w[..m], b.share), v[m..], w[m..]);
  }

  lemma RaisedPointwise(v: seq<int>, w: seq<int>, n: nat, m: nat, s: int, t: int)
    requires Pointwise(v, w) && n <= m <= |v| && s <= t && t >= 0
    ensures Pointwise(Raised(v[..n], s) + v[n..m], Raised(w[..m], t))
  {
  }

  /** Entries that are not raised may be taken out and put back. */
  lemma RaiseFewer(v: seq<int>, n: nat, m: nat, s: int)
    requires Sorted(v) && n <= m <= |v|
    ensures InsertAll(Raised(v[..n], s), v[n..]) == InsertAll(Raised(v[..n], s) + v[n..m], v[m..])
  {
    var rest := v[n..];
    assert rest[..m - n] == v[n..m] && rest[m - n..] == v[m..];
    InsertAllFront(rest, m - n);
    InsertAllAppend(Raised(v[..n], s), v[n..m], v[m..]);
  }

  /**
   Admission is monotone: a batch that fits still fits when any CPU is less loaded and
   any claim asks for fewer CPUs or less of each (an ask for no CPUs being a claim
   dropped from the batch), and the loads that result are no higher either.
   */
  lemma {:induction false} AdmissionMonotone(v: seq<int>, w: seq<int>, a: seq<Ask>, b: seq<Ask>)
    requires Sorted(v) && Sorted(w) && Pointwise(v, w)
    requires LighterBatch(a, b) && forall i :: 0 <= i < |b| ==> b[i].share >= 0
    requires Admit(w, b).Some?
    ensures Admit(v, a).Some?
    ensures Pointwise(Admit(v, a).value, Admit(w, b).value)
    ensures Sorted(Admit(v, a).value) && Sorted(Admit(w, b).value)
    decreases |a|
  {
    if a != [] {
      var i := |a| - 1;
      AdmissionMonotone(v, w, a[..i], b[..i]);
      StepMonotone(Admit(v, a[..i]).value, Admit(w, b[..i]).value, a[i], b[i]);
    }
  }

  lemma {:induction false} ProfileMonotone(u: UtilMap, u': UtilMap)
    requires u.Keys == u'.Keys && forall k <- u :: u[k] <= u'[k]
    ensures Pointwise(Profile(u), Profile(u'))
    decreases |u|
  {
    if u == map[] {
      assert u' == map[];
    } else {
      var k := Pick(u);
      ProfileMonotone(u - {k}, u' - {k});
      ProfileRemove(u', k);
      ProfileSorted(u - {k});
      ProfileSorted(u' - {k});
      InsertMonotone(u[k], u'[k], Profile(u - {k}), Profile(u' - {k}));
    }
  }

  /** Lowering utilisations never turns a node that admits a batch into one that does not. */
  lemma LessLoadStillAdmits(u: UtilMap, u': UtilMap, asks: seq<Ask>)
    requires u.Keys == u'.Keys && forall k <- u :: u[k] <= u'[k]
    requires forall i :: 0 <= i < |asks| ==> asks[i].share >= 0
    requires Admit(Profile(u'), asks).Some?
    ensures Admit(Profile(u), asks).Some?
  {
    ProfileMonotone(u, u');
    ProfileSorted(u);
    ProfileSorted(u');
    AdmissionMonotone(Profile(u), Profile(u'), asks, asks);
  }

  /** Packing keeps the CPUs of the ledger and leaves every CPU below the threshold. */
  lemma {:induction false} PackingKeepsBound(u: UtilMap, asks: seq<Ask>, choices: seq<seq<CpuId>>)
    requires PackedBy(u, asks, choices)
    requires forall k <- u :: u[k] < THRESHOLD
    ensures After(u, asks, choices).Keys == u.Keys
    ensures forall k <- u :: After(u, asks, choices)[k] < THRESHOLD
  {
    if asks != [] {
      var i := |asks| - 1;
      PackingKeepsBound(u, asks[..i], choices[..i]);
      var mid := After(u, asks[..i], choices[..i]);
      forall k | k in u && k in choices[i]
        ensures mid[k] + asks[i].share < THRESHOLD
      {
        var j :| 0 <= j < |choices[i]| && choices[i][j] == k;
        assert choices[i][j] in Fitting(mid, asks[i].share);
      }
    }
  }
}
