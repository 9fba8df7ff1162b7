/**
 The kubelet plugin's driver: preparing and unpreparing one claim, with the stored object
 fetched before and written back after.
 */
module NodeDriver {
  import opened Nas
  import opened Cluster
  import opened Plugin
  import opened Ownership
  import opened Cdi

  class NodeDriver {
    const state: DeviceState
    /** The spec as last fetched or written. */
    var crd: NodeSpec
    /** The API server's object for this node. */
    var api: NodeObject

    constructor (state: DeviceState, api: NodeObject)
      ensures this.state == state && this.api == api && crd == api.spec
    {
      this.state, this.api, crd := state, api, api.spec;
    }

    method Get(answered: bool) returns (ok: bool)
      modifies this`crd
      ensures ok == answered
      ensures crd == if ok then api.spec else old(crd)
    {
      ok := answered;
      if ok {
        crd := api.spec;
      }
    }

    method Update(spec: NodeSpec, write: WriteOutcome) returns (ok: bool)
      modifies this`crd, this`api
      ensures ok == write.Applied?
      ensures api == if write.Rejected? then old(api) else old(api).(spec := spec)
      ensures crd == if ok then spec else old(crd)
    {
      if write != Rejected {
        api := api.(spec := spec);
      }
      ok := write.Applied?;
      if ok {
        crd := spec;
      }
    }

    /**
     Prepares a claim.  `fetched`, `filed`, `deleted` and `write` tell what becomes of the
     fetch, of writing and deleting the claim's spec file, and of the write back.  The device
     names come from the spec as it was before it is fetched; that they could not be made is
     only noticed when they are reported.  A claim with an empty list of CPUs in that spec
     makes the plugin panic before it does anything.
     */
    method NodePrepareResource(uid: Uid, fetched: bool, filed: bool, deleted: bool, write: WriteOutcome)
      returns (devices: Option<(string, string)>, panicked: bool, ghost list: seq<AllocatableCpu>)
      requires Dividable(api.spec.claims, uid)
      modifies this`crd, this`api, state`prepared
      ensures Enumerates(InitUtil(list), state.allocatable)
      ensures panicked <==> NamesOf(old(crd).claims, uid) == IndexOutOfRange
      ensures panicked || !fetched ==> api == old(api) && crd == old(crd) && state.prepared == old(state.prepared)
      ensures !panicked && fetched ==>
                var faults := Faults(NamesOf(old(crd).claims, uid).Names?, filed, deleted);
                (state.prepared, api) == Prepared(old(state.prepared), old(api), uid, faults, list, write)
      ensures devices.Some?
         <==> && fetched && NamesOf(old(crd).claims, uid).Names?
              && (uid in old(state.prepared) || (filed && CommittedWithCpus(old(api).spec.claims, uid)))
              && AllHaveDevices(old(state.prepared)) && write.Applied?
      ensures devices.Some? ==>
                && NamesOf(old(crd).claims, uid) == Names(devices.value.0, devices.value.1)
                && uid in state.prepared && api.spec.prepared == Stored(state.prepared)
      ensures !panicked && fetched ==> crd == if devices.Some? then api.spec else old(api).spec
    {
      hide Enumerates, NamesOf, Stored, AllHaveDevices, WithPrepared, WithoutPrepared, Dividable;
      ghost var m := state.prepared;
      Recorded(m, api.spec.claims, uid, filed);
      NeedsDevices(WithPrepared(m, api.spec.claims, uid, filed), uid);
      list := SomeListing(state.allocatable);
      var names := WriteCgroupToCDI(uid, crd.claims);
      var rtCDIDevices := if names.Names? then Some((names.runtimePeriod, names.cpuset)) else None;
      panicked := names.IndexOutOfRange?;
      if panicked {
        return None, panicked, list;
      }
      devices := PrepareClaim(uid, rtCDIDevices, fetched, filed);
      if devices.None? {
        return None, panicked, list;
      }
      var ok;
      ok, list := WriteBack(uid, deleted, write);
      if !ok {
        devices := None;
      }
    }

    /** Fetches the object and prepares the claim that it has under `uid`. */
    method PrepareClaim(uid: Uid, rtCDIDevices: Option<(string, string)>, fetched: bool, filed: bool)
      returns (devices: Option<(string, string)>)
      requires Dividable(api.spec.claims, uid)
      modifies this`crd, state`prepared
      ensures !fetched ==> devices.None? && crd == old(crd) && state.prepared == old(state.prepared)
      ensures fetched ==>
                && crd == api.spec && state.prepared == WithPrepared(old(state.prepared), crd.claims, uid, filed)
                && devices == if uid in state.prepared && state.prepared[uid].RtCpus? then rtCDIDevices else None
    {
      var got := Get(fetched);
      if !got {
        return None;
      }
      var allocation := if uid in crd.claims then crd.claims[uid] else NoRtCpu;
      devices := state.Prepare(uid, allocation, rtCDIDevices, filed);
    }

    /** Writes the prepared claims back; if that fails, `uid` is unprepared again. */
    method WriteBack(uid: Uid, deleted: bool, write: WriteOutcome)
      returns (ok: bool, ghost list: seq<AllocatableCpu>)
      requires crd == api.spec
      modifies this`crd, this`api, state`prepared
      ensures Enumerates(InitUtil(list), state.allocatable)
      ensures ok <==> AllHaveDevices(old(state.prepared)) && write.Applied?
      ensures !AllHaveDevices(old(state.prepared)) ==> state.prepared == old(state.prepared) && api == old(api)
      ensures crd == if ok then api.spec else old(crd)
      ensures AllHaveDevices(old(state.prepared)) ==>
                && state.prepared == (if ok then old(state.prepared)
                                      else WithoutPrepared(old(state.prepared), uid, deleted))
                && api == AfterWrite(old(api), list, old(state.prepared), write)
    {
      hide Enumerates, Stored, AllHaveDevices, WithoutPrepared;
      list := SomeListing(state.allocatable);
      ghost var m := state.prepared;
      SomeUnknown(m);
      Removed(m, uid, deleted);
      var updated := state.GetUpdatedSpec(crd);
      if updated.None? {
        return false, list;
      }
      list := updated.value.allocatable;
      ok := Update(updated.value, write);
      if !ok {
        var _ := state.Unprepare(uid, deleted);
      }
    }

    /** Unprepares a claim; if the write back fails, the stored object still lists it. */
    method NodeUnprepareResource(uid: Uid, fetched: bool, deleted: bool, write: WriteOutcome)
      returns (ok: bool, ghost list: seq<AllocatableCpu>)
      modifies this`crd, this`api, state`prepared
      ensures Enumerates(InitUtil(list), state.allocatable)
      ensures !fetched ==> api == old(api) && state.prepared == old(state.prepared)
      ensures fetched ==>
                (state.prepared, api) == Unprepared(old(state.prepared), old(api), uid, deleted, list, write)
      ensures ok
         <==> && fetched && (uid in old(state.prepared) ==> old(state.prepared)[uid].RtCpus? && deleted)
              && AllHaveDevices(old(state.prepared) - {uid}) && write.Applied?
      ensures ok ==>
                && uid !in state.prepared
                && uid !in api.spec.prepared && api.spec.prepared == Stored(state.prepared)
      ensures crd == if !fetched then old(crd) else if ok then api.spec
                     else if uid in state.prepared then old(api).spec
                     else old(api).spec.(prepared := old(api).spec.prepared - {uid})
    {
      hide Enumerates, AllHaveDevices, WithoutPrepared, Stored;
      list := SomeListing(state.allocatable);
      var got := Get(fetched);
      if !got {
        return false, list;
      }
      ghost var m := state.prepared;
      var removed := state.Unprepare(uid, deleted);
      Removed(m, uid, deleted);
      if !removed {
        return false, list;
      }
      SomeUnknown(state.prepared);
      StoredKeys(state.prepared);
      crd := crd.(prepared := crd.prepared - {uid});
      var updated := state.GetUpdatedSpec(crd);
      if updated.None? {
        return false, list;
      }
      list := updated.value.allocatable;
      ok := Update(updated.value, write);
    }
  }

  lemma Recorded(m: PreparedClaims, claims: Claims, uid: Uid, filed: bool)
    requires Dividable(claims, uid)
    ensures WithPrepared(m, claims, uid, filed)
            == if uid !in m && CommittedWithCpus(claims, uid) && filed
               then m[uid := RtCpus(PreparedOf(claims[uid].cpuset))] else m
    ensures AllHaveDevices(WithPrepared(m, claims, uid, filed)) <==> AllHaveDevices(m)
  {
    var m' := WithPrepared(m, claims, uid, filed);
    assert forall u :: u in m ==> u in m' && m'[u] == m[u];
  }

  lemma NeedsDevices(m: PreparedClaims, uid: Uid)
    ensures uid in m && AllHaveDevices(m) ==> m[uid].RtCpus?
  {
  }

  lemma Removed(m: PreparedClaims, uid: Uid, deleted: bool)
    ensures WithoutPrepared(m, uid, deleted)
            == if uid !in m || (m[uid].RtCpus? && deleted) then m - {uid} else m
  {
    assert uid !in m ==> m - {uid} == m;
  }

  lemma SomeUnknown(m: PreparedClaims)
    ensures (exists u :: u in m && m[u].UnknownDevices?) <==> !AllHaveDevices(m)
  {
  }

  /** A write of the whole object, such as its creation or a change of its status. */
  method Write(api: Option<NodeObject>, obj: NodeObject, write: WriteOutcome)
    returns (api': Option<NodeObject>, ok: bool)
    ensures ok == write.Applied?
    ensures api' == if write.Rejected? then api else Some(obj)
  {
    api' := if write == Rejected then api else Some(obj);
    ok := write.Applied?;
  }

  /**
   Starts a plugin.  The node's object is fetched, or created if there is none, and declared
   not ready; the prepared claims are rebuilt from it and it is written back; then it is
   declared ready.  Any of these can fail, as `fetched` and `w` tell, and then there is no
   driver.
   */
  method StartPlugin(cpus: Allocatable, api: Option<NodeObject>, fetched: bool, w: StartWrites)
    returns (driver: NodeDriver?, api': Option<NodeObject>, ghost list: seq<AllocatableCpu>)
    ensures Enumerates(InitUtil(list), cpus)
    ensures !fetched ==> api' == api
    ensures fetched ==>
              (if driver == null then None else Some(driver.state.prepared), api') == StartedUp(cpus, api, list, w)
    ensures driver != null
       <==> && fetched && (api.Some? || w.create.Applied?) && w.notReady.Applied?
            && (api.Some? ==> Known(cpus, api.value.spec.prepared))
            && w.spec.Applied? && w.ready.Applied?
    ensures driver != null ==>
              && fresh(driver) && fresh(driver.state) && driver.state.allocatable == cpus
              && api' == Some(driver.api) && driver.api.ready && driver.crd == driver.api.spec
              && driver.crd.prepared == Stored(driver.state.prepared)
  {
    hide Enumerates, Started;
    driver, api' := null, api;
    list := SomeListing(cpus);
    if !fetched {
      return;
    }
    var ok;
    if api == None {
      api', ok := Write(api', BLANK, w.create);
      if !ok {
        return;
      }
    }
    api', ok := Write(api', api'.value.(ready := false), w.notReady);
    if !ok {
      return;
    }
    var obj := api'.value;
    var state := StartState(cpus, obj);
    if state == null {
      FailedStart(cpus, obj, list, w.spec);
      return;
    }
    var updated := state.GetUpdatedSpec(obj.spec);
    if updated.None? {
      return;
    }
    list := updated.value.allocatable;
    api', ok := Write(api', obj.(spec := updated.value), w.spec);
    StartedBy(cpus, obj, state.prepared, list, w.spec);
    if !ok {
      return;
    }
    api', ok := Write(api', api'.value.(ready := true), w.ready);
    if ok {
      driver := new NodeDriver(state, api'.value);
    }
  }

  /** Rebuilds the device state from the object; without a result that failed. */
  method StartState(cpus: Allocatable, obj: NodeObject) returns (state: DeviceState?)
    ensures state == null <==> !Known(cpus, obj.spec.prepared)
    ensures state != null ==>
              fresh(state) && state.allocatable == cpus && state.prepared == Rebuilt(cpus, obj.spec.prepared)
  {
    state := new DeviceState(cpus);
    var synced := state.SyncPreparedFromSpec(obj.spec);
    if !synced.Synced? {
      state := null;
    }
  }

  lemma FailedStart(cpus: Allocatable, obj: NodeObject, list: seq<AllocatableCpu>, write: WriteOutcome)
    requires !Known(cpus, obj.spec.prepared)
    ensures Started(cpus, obj, list, write) == (None, obj)
  {
  }

  lemma StartedBy(
      cpus: Allocatable, obj: NodeObject, m: PreparedClaims, list: seq<AllocatableCpu>, write: WriteOutcome)
    requires Known(cpus, obj.spec.prepared) && m == Rebuilt(cpus, obj.spec.prepared)
    ensures Started(cpus, obj, list, write)
            == (if write.Applied? then Some(m) else None, AfterWrite(obj, list, m, write))
  {
  }
}
