/**
 From the list of unsuitable nodes that the scheduler is given to the commits it then asks
 for.
 */
module Scheduling {
  import opened Nas
  import opened Packing
  import opened Reservation
  import opened Cluster
  import opened Promise
  import opened Guarantees
  import opened Driver

  /** The candidates are probed for one batch, in order, at the steps `q`; anything may happen between two of them. */
  ghost predicate ProbedAt(
      states: seq<State>, actions: seq<Action>, reqs: seq<Request>, cgroup: string, nodes: seq<NodeName>, q: seq<nat>)
  {
    && |states| == |actions| + 1 && |q| == |nodes|
    && (forall i, j :: 0 <= i < j < |q| ==> q[i] < q[j])
    && (forall i :: 0 <= i < |q| ==> q[i] < |actions| && IsProbe(actions[q[i]], reqs, cgroup, nodes[i]))
  }

  predicate IsProbe(a: Action, reqs: seq<Request>, cgroup: string, n: NodeName) {
    a.Probe? && a.node == n && a.reqs == reqs && a.cgroup == cgroup
  }

  /** The nodes that get marked by the probes at the steps `q`. */
  ghost function MarkedAt(states: seq<State>, actions: seq<Action>, q: seq<nat>): seq<NodeName>
    requires |states| == |actions| + 1 && forall i :: 0 <= i < |q| ==> q[i] < |actions| && actions[q[i]].Probe?
  {
    if q == [] then []
    else
      var p := q[|q| - 1];
      MarkedAt(states, actions, q[..|q| - 1])
      + if Suitable(states[p], actions[p].node, actions[p].reachable, actions[p].reqs) then [] else [actions[p].node]
  }

  /** A candidate that is not marked had room when it was probed. */
  lemma {:induction false} UnmarkedWasSuitable(
      states: seq<State>, actions: seq<Action>, reqs: seq<Request>, cgroup: string, nodes: seq<NodeName>,
      q: seq<nat>, i: nat)
    requires ProbedAt(states, actions, reqs, cgroup, nodes, q) && i < |q|
    requires nodes[i] !in MarkedAt(states, actions, q)
    ensures Suitable(states[q[i]], nodes[i], actions[q[i]].reachable, reqs)
    decreases |q|
  {
    hide Suitable;
    if i < |q| - 1 {
      UnmarkedWasSuitable(states, actions, reqs, cgroup, nodes[..|q| - 1], q[..|q| - 1], i);
    }
  }

  // ----- Probes one right after the other, as one call makes them -----

  function Steps(lo: nat, n: nat): (q: seq<nat>)
    ensures |q| == n && forall i :: 0 <= i < n ==> q[i] == lo + i
  {
    seq(n, i requires 0 <= i < n => lo + i)
  }

  /** The probes that one call makes are such probes, and mark the same nodes. */
  lemma CallProbes(
      states: seq<State>, actions: seq<Action>, lo: nat, reqs: seq<Request>, cgroup: string, nodes: seq<NodeName>)
    requires |states| == |actions| + 1 && lo + |nodes| < |states|
    requires ProbesAll(states[lo..lo + |nodes| + 1], actions[lo..lo + |nodes|], reqs, cgroup, nodes)
    ensures ProbedAt(states, actions, reqs, cgroup, nodes, Steps(lo, |nodes|))
    ensures MarkedAt(states, actions, Steps(lo, |nodes|))
         == MarkedBy(states[lo..lo + |nodes| + 1], actions[lo..lo + |nodes|])
  {
    hide Next, Suitable, MarkedAt, MarkedBy;
    forall i | 0 <= i < |nodes|
      ensures IsProbe(actions[lo + i], reqs, cgroup, nodes[i])
    {
      assert actions[lo..lo + |nodes|][i] == actions[lo + i];
    }
    CallMarks(states, actions, lo, |nodes|);
  }

  lemma MarkedAtMore(states: seq<State>, actions: seq<Action>, q: seq<nat>, p: nat)
    requires |states| == |actions| + 1 && p < |actions| && actions[p].Probe?
    requires forall i :: 0 <= i < |q| ==> q[i] < |actions| && actions[q[i]].Probe?
    ensures MarkedAt(states, actions, q + [p])
         == MarkedAt(states, actions, q)
            + if Suitable(states[p], actions[p].node, actions[p].reachable, actions[p].reqs) then []
              else [actions[p].node]
  {
    hide Suitable;
    assert (q + [p])[..|q|] == q;
  }

  lemma {:induction false} CallMarks(states: seq<State>, actions: seq<Action>, lo: nat, n: nat)
    requires |states| == |actions| + 1 && lo + n < |states|
    requires forall i :: lo <= i < lo + n ==> actions[i].Probe?
    ensures MarkedAt(states, actions, Steps(lo, n)) == MarkedBy(states[lo..lo + n + 1], actions[lo..lo + n])
  {
    hide Suitable, MarkedBy, MarkedAt, Steps;
    if n == 0 {
      NothingMarkedAt(states, actions);
      NothingMarked(states[lo..lo + 1]);
      assert Steps(lo, 0) == [] && actions[lo..lo] == [];
    } else {
      var i := lo + n - 1;
      var ss, acts, q := states[lo..i + 1], actions[lo..i], Steps(lo, n - 1);
      CallMarks(states, actions, lo, n - 1);
      MarkedAtMore(states, actions, q, i);
      MarksOneMore(ss, acts, actions[i], states[i + 1]);
      assert states[i] == ss[|acts|];
      assert q + [i] == Steps(lo, n);
      assert ss + [states[i + 1]] == states[lo..lo + n + 1];
      assert acts + [actions[i]] == actions[lo..lo + n];
    }
  }

  lemma NothingMarkedAt(states: seq<State>, actions: seq<Action>)
    requires |states| == |actions| + 1
    ensures MarkedAt(states, actions, []) == []
  {
  }

  // ----- To the commits -----

  /** No claim of the batch is committed on a node other than `n`. */
  ghost predicate NotElsewhere(s: State, n: NodeName, reqs: seq<Request>) {
    forall j, m :: 0 <= j < |reqs| && m in s.store && m != n ==> !CommittedOn(s, m, reqs[j].uid)
  }

  lemma StaysNotElsewhere(s: State, a: Action, s': State, n: NodeName, reqs: seq<Request>)
    requires Next(s, a, s') && NotElsewhere(s, n, reqs) && LeavesBatchAlone(a, n, reqs)
    ensures NotElsewhere(s', n, reqs)
  {
    hide Next, CommittedOn;
    forall j, m | 0 <= j < |reqs| && m in s'.store && m != n
      ensures !CommittedOn(s', m, reqs[j].uid)
    {
      assert LeavesAlone(a, n, reqs[j].uid);
      NotCommittedElsewhere(s, a, s', n, reqs[j].uid, m);
    }
  }

  lemma NotCommittedElsewhere(s: State, a: Action, s': State, n: NodeName, uid: Uid, m: NodeName)
    requires Next(s, a, s') && LeavesAlone(a, n, uid) && m != n
    requires m in s.store ==> !CommittedOn(s, m, uid)
    ensures !CommittedOn(s', m, uid)
  {
    hide Suitable, PackedBy, Charge, DischargeListed, ForgetUtil;
  }

  lemma {:induction false} NotElsewhereOver(
      states: seq<State>, actions: seq<Action>, n: NodeName, reqs: seq<Request>, lo: nat, hi: nat)
    requires Segment(states, actions) && lo <= hi < |states| && NotElsewhere(states[lo], n, reqs)
    requires forall x :: lo <= x < hi ==> LeavesBatchAlone(actions[x], n, reqs)
    ensures NotElsewhere(states[hi], n, reqs)
    decreases hi
  {
    hide Next, NotElsewhere, LeavesBatchAlone;
    if lo < hi {
      NotElsewhereOver(states, actions, n, reqs, lo, hi - 1);
      StaysNotElsewhere(states[hi - 1], actions[hi - 1], states[hi], n, reqs);
    }
  }

  /**
   The promise of the scheduling interface.  A pod's candidate nodes are probed at the steps
   `q`, and `n` is one of them that did not get into a claim's list of unsuitable nodes
   (`before` is what the list held).  Any other operations, on any node, may come between the
   probes, after them, and between the commits, as long as none releases a claim of the batch
   or commits it on another node.  Then the commits on `n` all succeed, grow its ledger by
   exactly the load of the claims that were not committed when `n` was probed, and leave these
   pending nowhere.
   */
  lemma UnmarkedThenCommitted(
      states: seq<State>, actions: seq<Action>, q: seq<nat>, reqs: seq<Request>, cgroup: string,
      nodes: seq<NodeName>, before: seq<NodeName>, n: NodeName, hi: nat, c: seq<nat>, params: map<Uid, Request>)
    requires Run(states, actions) && ProbedAt(states, actions, reqs, cgroup, nodes, q)
    requires q != [] && q[|q| - 1] < hi < |states|
    requires n in nodes && n !in Dedup(before + MarkedAt(states, actions, q))
    requires forall j :: 0 <= j <= q[|q| - 1] && actions[j].Probe? ==> AgreesWith(params, actions[j].reqs)
    requires NotElsewhere(states[q[0]], n, reqs)
    requires forall x :: q[0] <= x < hi ==> LeavesBatchAlone(actions[x], n, reqs)
    requires CommittedAt(states, actions, n, reqs, c, q[|q| - 1] + 1, hi)
    ensures exists i :: 0 <= i < |q| && nodes[i] == n && DoneSince(states, actions, n, reqs, q[i], hi, c)
  {
    hide Next, Suitable, CommittedOn, AgreesWith, BatchDone, MarkedAt, Dedup, Run, LeavesBatchAlone, Up;
    DedupProperties(before + MarkedAt(states, actions, q));
    var i: nat :| i < |nodes| && nodes[i] == n;
    UnmarkedWasSuitable(states, actions, reqs, cgroup, nodes, q, i);
    RunIsSegment(states, actions);
    assert q[0] <= q[i] <= q[|q| - 1];
    NotElsewhereOver(states, actions, n, reqs, q[0], q[i]);
    ProbeThenCommitBatch(states, actions, q[i], hi, c, params);
  }

  /** The commits' effects, measured from the probe at step `p`. */
  ghost predicate DoneSince(
      states: seq<State>, actions: seq<Action>, n: NodeName, reqs: seq<Request>, p: nat, hi: nat, c: seq<nat>)
    requires p < hi < |states| == |actions| + 1
  {
    n in states[p].store && BatchDone(states, actions, n, reqs, p + 1, hi, c, states[p].store[n].spec.claims)
  }

  lemma RunIsSegment(states: seq<State>, actions: seq<Action>)
    requires Run(states, actions)
    ensures Segment(states, actions)
  {
  }
}
