/**
 The smallest case of interest, from which example runs are made: a node with one idle CPU
 and a claim for half of it.
 */
module HalfCpu {
  import opened Nas
  import opened Packing
  import opened Reservation
  import opened Cluster

  const CPU0 := NodeObject(NodeSpec([AllocatableCpu(0, 0)], map[], map[], map[]), true)
  const HALF := Request("claim", 1, 500, 1000)

  const IDLE: UtilMap := map[0 := 0]
  const HALFCPU := RtCpu([AllocatedCpu(0, 500, 1000)], "pod")

  lemma IdleNode()
    ensures Base(CPU0.spec) == IDLE && Ledger(CPU0.spec) == IDLE
    ensures OverlayUtil(CPU0.spec, map[]) == IDLE
  {
  }

  lemma HalfPacked()
    ensures PackedBy(IDLE, Asks([HALF]), [[0]])
    ensures Asks([HALF]) == [Ask(1, 500)]
  {
  }

  lemma HalfClaim()
    ensures Todo([HALF], map[]) == [HALF]
    ensures NewClaims([HALF], [[0]], "pod") == map["claim" := HALFCPU]
    ensures ShareOn(HALFCPU.Cpus(), 0) == 500
  {
    assert [HALF][..0] == [];
    assert Todo([HALF][..0], map[]) == [];
    assert NewClaims([HALF][..0], [[0]][..0], "pod") == map[];
    assert Devices([0], HALF) == [AllocatedCpu(0, 500, 1000)];
    assert HALFCPU.cpuset[..0] == [];
    assert Share(500, 1000) == 500;
  }
}
