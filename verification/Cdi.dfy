/**
 The device-name strings under which an allocation is handed to the container runtime.
 */
module Cdi {
  import opened Nas
  import opened Demand
  import opened Decimal

  datatype CdiNames =
    | Names(runtimePeriod: string, cpuset: string)
    | NoSuchClaim
    | WithoutRtCpu
    | WithoutCgroup
    | IndexOutOfRange

  function Joined(cpus: seq<AllocatedCpu>): string {
    if cpus == [] then ""
    else if |cpus| == 1 then Itoa(cpus[0].id)
    else Itoa(cpus[0].id) + "-" + Joined(cpus[1..])
  }

  function Bandwidth(cpu: AllocatedCpu): string {
    "runtime-" + Itoa(cpu.runtime) + ".period-" + Itoa(cpu.period)
  }

  /** The names made for a claim; only the first CPU's runtime and period are printed. */
  function NamesOf(claims: Claims, uid: Uid): CdiNames {
    if uid !in claims then NoSuchClaim
    else match claims[uid]
      case NoRtCpu => WithoutRtCpu
      case RtCpu(cpus, cgroup) =>
        if cgroup == "" then WithoutCgroup
        else if cpus == [] then IndexOutOfRange
        else Names(Bandwidth(cpus[0]), Joined(cpus))
  }

  lemma {:induction false} JoinedAppend(cpus: seq<AllocatedCpu>, cpu: AllocatedCpu)
    ensures Joined([]) == ""
    ensures Joined(cpus + [cpu]) == (if cpus == [] then "" else Joined(cpus) + "-") + Itoa(cpu.id)
  {
    var all := cpus + [cpu];
    if cpus != [] {
      assert all[1..] == cpus[1..] + [cpu];
      JoinedAppend(cpus[1..], cpu);
    }
  }

  // ----- Reading the names back -----

  /** The runtime and the period that a name of the form `runtime-R.period-P` states. */
  function ReadBandwidth(s: string): Option<(int, int)> {
    if !("runtime-" <= s) then None
    else
      var t := s[|"runtime-"|..];
      var e := DecimalEnd(t);
      if !(".period-" <= t[e..]) then None
      else
        var runtime, period := Atoi(t[..e]), Atoi(t[e..][|".period-"|..]);
        if runtime.Some? && period.Some? then Some((runtime.value, period.value)) else None
  }

  /** The identifiers that a list of decimals separated by hyphens states, in order. */
  function ReadIds(s: string): Option<seq<CpuId>>
    decreases |s|
  {
    var e := DecimalEnd(s);
    var id := Atoi(s[..e]);
    if id.None? then None
    else if e == |s| then Some([id.value])
    else if s[e] != '-' then None
    else
      var rest := ReadIds(s[e + 1..]);
      if rest.None? then None else Some([id.value] + rest.value)
  }

  lemma BandwidthRead(cpu: AllocatedCpu)
    ensures ReadBandwidth(Bandwidth(cpu)) == Some((cpu.runtime, cpu.period))
  {
    hide Itoa, Atoi, DecimalEnd;
    var s, n := Bandwidth(cpu), |"runtime-"|;
    var rest := ".period-" + Itoa(cpu.period);
    assert s == "runtime-" + (Itoa(cpu.runtime) + rest);
    assert s[n..] == Itoa(cpu.runtime) + rest;
    DecimalEndOfItoa(cpu.runtime, rest);
    assert rest[|".period-"|..] == Itoa(cpu.period);
    AtoiOfItoa(cpu.runtime);
    AtoiOfItoa(cpu.period);
  }

  lemma {:induction false} JoinedRead(cpus: seq<AllocatedCpu>)
    requires cpus != []
    ensures ReadIds(Joined(cpus)) == Some(IdSeq(cpus))
  {
    hide Itoa, Atoi, DecimalEnd, Rest;
    var s, e := Joined(cpus), |Itoa(cpus[0].id)|;
    JoinedRest(cpus);
    DecimalEndOfItoa(cpus[0].id, Rest(cpus));
    AtoiOfItoa(cpus[0].id);
    IdSeqRest(cpus);
    if |cpus| > 1 {
      JoinedRead(cpus[1..]);
      assert s[e..] == Rest(cpus) == "-" + Joined(cpus[1..]);
      assert s[e + 1..] == Joined(cpus[1..]);
    } else {
      assert s[e..] == [] && IdSeq(cpus) == [cpus[0].id];
    }
  }

  /**
   Makes the names of a claim's devices.  A claim with CPUs and a cgroup gets names, from
   which its first CPU's runtime and period and all its CPUs in order can be read back; any
   other claim gets the error that tells what it lacks.
   */
  method WriteCgroupToCDI(uid: Uid, claims: Claims) returns (names: CdiNames)
    ensures names == NamesOf(claims, uid)
    ensures names == NoSuchClaim <==> uid !in claims
    ensures names == WithoutRtCpu <==> uid in claims && claims[uid].NoRtCpu?
    ensures names == WithoutCgroup <==> uid in claims && claims[uid].RtCpu? && claims[uid].cgroupUID == ""
    ensures names == IndexOutOfRange
       <==> uid in claims && claims[uid].RtCpu? && claims[uid].cgroupUID != "" && claims[uid].cpuset == []
    ensures names.Names? ==>
              var cpus := claims[uid].Cpus();
              && ReadBandwidth(names.runtimePeriod) == Some((cpus[0].runtime, cpus[0].period))
              && ReadIds(names.cpuset) == Some(IdSeq(cpus))
  {
    hide Joined, Itoa, ReadBandwidth, ReadIds;
    if uid in claims {
      if claims[uid].NoRtCpu? {
        return WithoutRtCpu;
      } else if claims[uid].cgroupUID == "" {
        return WithoutCgroup;
      }
    } else {
      return NoSuchClaim;
    }
    var cpus := claims[uid].cpuset;
    if |cpus| == 0 {
      return IndexOutOfRange;
    }
    var runtime := "runtime-" + Itoa(cpus[0].runtime);
    var period := "period-" + Itoa(cpus[0].period);
    var builder := "";
    JoinedAppend([], cpus[0]);
    for i := 0 to |cpus|
      invariant builder == Joined(cpus[..i])
      invariant builder == "" <==> i == 0
    {
      JoinedAppend(cpus[..i], cpus[i]);
      assert cpus[..i + 1] == cpus[..i] + [cpus[i]];
      if |builder| > 0 {
        builder := builder + "-";
      }
      builder := builder + Itoa(cpus[i].id);
    }
    assert cpus[..|cpus|] == cpus;
    assert runtime + "." + period == Bandwidth(cpus[0]);
    names := Names(runtime + "." + period, builder);
    BandwidthRead(cpus[0]);
    JoinedRead(cpus);
  }

  // ----- Losslessness -----

  /** What follows the first identifier. */
  function Rest(cpus: seq<AllocatedCpu>): (s: string)
    requires cpus != []
    ensures StartsPlain(s)
    ensures s == if |cpus| == 1 then "" else "-" + Joined(cpus[1..])
  {
    if |cpus| == 1 then "" else "-" + Joined(cpus[1..])
  }

  lemma JoinedRest(cpus: seq<AllocatedCpu>)
    requires cpus != []
    ensures Joined(cpus) == Itoa(cpus[0].id) + Rest(cpus)
    ensures Joined(cpus) != ""
    ensures |cpus| > 1 ==> Rest(cpus)[1..] == Joined(cpus[1..])
  {
  }

  lemma {:induction false} JoinedDetermines(a: seq<AllocatedCpu>, b: seq<AllocatedCpu>)
    requires Joined(a) == Joined(b)
    ensures IdSeq(a) == IdSeq(b)
  {
    hide Rest, Itoa;
    if a == [] {
      if b != [] { JoinedRest(b); }
    } else {
      JoinedRest(a);
      if b != [] { JoinedRest(b); }
      ItoaEnds(a[0].id, Rest(a), b[0].id, Rest(b));
      if |a| > 1 {
        JoinedDetermines(a[1..], b[1..]);
        IdSeqRest(a);
        IdSeqRest(b);
      } else {
        assert IdSeq(a) == [a[0].id] == IdSeq(b);
      }
    }
  }

  lemma IdSeqRest(cpus: seq<AllocatedCpu>)
    requires cpus != []
    ensures IdSeq(cpus) == [cpus[0].id] + IdSeq(cpus[1..])
  {
  }

  lemma BandwidthDetermines(a: AllocatedCpu, b: AllocatedCpu)
    requires Bandwidth(a) == Bandwidth(b)
    ensures a.runtime == b.runtime && a.period == b.period
  {
    hide Itoa;
    var s, t := ".period-" + Itoa(a.period), ".period-" + Itoa(b.period);
    var n := |"runtime-"|;
    assert Bandwidth(a) == "runtime-" + (Itoa(a.runtime) + s);
    assert Bandwidth(b) == "runtime-" + (Itoa(b.runtime) + t);
    assert Bandwidth(a)[n..] == Itoa(a.runtime) + s && Bandwidth(b)[n..] == Itoa(b.runtime) + t;
    ItoaEnds(a.runtime, s, b.runtime, t);
    assert s[|".period-"|..] == Itoa(a.period) + "" && t[|".period-"|..] == Itoa(b.period) + "";
    ItoaEnds(a.period, "", b.period, "");
  }

  /** All entries of a cpuset have the first one's runtime and period, as the allocator makes them. */
  predicate Uniform(cpus: seq<AllocatedCpu>) {
    forall i :: 0 <= i < |cpus| ==> cpus[i].runtime == cpus[0].runtime && cpus[i].period == cpus[0].period
  }

  /** On cpusets the allocator makes, equal names mean equal runtime, period and CPU sequence. */
  lemma NamesDetermineClaim(claims: Claims, uid: Uid, claims': Claims, uid': Uid)
    requires NamesOf(claims, uid).Names? && NamesOf(claims, uid) == NamesOf(claims', uid')
    requires Uniform(claims[uid].cpuset) && Uniform(claims'[uid'].cpuset)
    ensures claims[uid].cpuset == claims'[uid'].cpuset
  {
    var a, b := claims[uid].cpuset, claims'[uid'].cpuset;
    JoinedDetermines(a, b);
    BandwidthDetermines(a[0], b[0]);
    forall i | 0 <= i < |a|
      ensures a[i] == b[i]
    {
      assert IdSeq(a)[i] == IdSeq(b)[i];
    }
  }

  /** The names tell a cpuset from the uniform one with the same CPUs exactly if it is uniform itself. */
  lemma NamesNeedUniform(cpus: seq<AllocatedCpu>, uid: Uid, cgroup: string)
    requires cpus != [] && cgroup != ""
    ensures var flat := seq(|cpus|, i requires 0 <= i < |cpus| =>
                                AllocatedCpu(cpus[i].id, cpus[0].runtime, cpus[0].period));
            && NamesOf(map[uid := RtCpu(flat, cgroup)], uid) == NamesOf(map[uid := RtCpu(cpus, cgroup)], uid)
            && (flat == cpus <==> Uniform(cpus))
  {
    var flat := seq(|cpus|, i requires 0 <= i < |cpus| => AllocatedCpu(cpus[i].id, cpus[0].runtime, cpus[0].period));
    JoinedIds(flat, cpus);
    if flat == cpus {
      forall i | 0 <= i < |cpus|
        ensures cpus[i].runtime == cpus[0].runtime && cpus[i].period == cpus[0].period
      {
        assert flat[i] == cpus[i];
      }
    }
  }

  lemma {:induction false} JoinedIds(a: seq<AllocatedCpu>, b: seq<AllocatedCpu>)
    requires |a| == |b| && forall i :: 0 <= i < |a| ==> a[i].id == b[i].id
    ensures Joined(a) == Joined(b)
  {
    if |a| > 1 {
      JoinedIds(a[1..], b[1..]);
    }
  }
}
