/**
  The cluster reconciler as it is written: one call after the other on local variables, with a patch deferred to
  the end. It is proved to make exactly the steps of the protocol, whatever the calls return and whatever everyone
  else does in between.
*/
module ClusterController {
  import opened Options
  import opened Clouds
  import opened Protocol
  import opened Invariant
  import opened AllRuns
  import opened Schedule
  import CS = ClusterSteps
  import C = Convergence

  lemma PassKeeps(s: State, k: CKey, script: Script, i: nat)
    requires Inv(s) && s.cw.CIdle? && k in s.clusters && !s.clusters[k].Gone()
    requires forall j :: script(j).addr != ""
    ensures Shape(ClusterBegun(s, k)) && Inv(ClusterPass(ClusterBegun(s, k), script, i))
    ensures Quiet(script) ==> ClusterPass(ClusterBegun(s, k), script, i) == C.Pass(s, k, script(0).addr)
  {
    CS.BeginStep(s, k);
    var t := ClusterBegun(s, k);
    var es := ClusterPassIsRun(t, script, i);
    RunKeeps(t, es, ClusterPass(t, script, i));
    if Quiet(script) { QuietClusterPass(t, script, i); }
  }

  class Reconciler {
    var s: State
    const script: Script
    var calls: nat
    ghost var goal: State

    constructor (s: State, script: Script)
      ensures this.s == s && this.script == script && calls == 0
    {
      this.s, this.script, calls, goal := s, script, 0, s;
    }

    // ----- bookkeeping -----

    /** The protocol, continued from here under the script, ends where the pass is to end. */
    ghost predicate OnTrack()
      reads this
    {
      Shape(s) && s.cw.CBusy? && ClusterPass(s, script, calls) == goal
    }

    /** A call has returned; the pass is on track again once the state is `next`. */
    ghost predicate Due(next: State)
      reads this
    {
      Shape(next) && ClusterPass(next, script, calls) == goal
    }

    ghost predicate At(k: CKey, rec: ClusterRec, pc: CPc, found: Refs)
      reads this
    {
      OnTrack() && s.cw == CBusy(k, rec, pc, found)
    }

    /** Makes the call the pass has come to. Everyone else may act before it takes place. */
    method Await() returns (o: Outcome, addr: string)
      requires OnTrack()
      modifies this`s, this`calls
      ensures Shape(s) && s.cw == old(s.cw) && s.conf == old(s.conf)
      ensures Due(ClusterStep(s, o, addr))
    {
      var turn := script(calls);
      o, addr := turn.o, turn.addr;
      s := Meanwhile(OfClusters, s, turn.others);
      C.PassEnds(s, o, addr);
      calls := calls + 1;
    }

    /** Where the deferred state is the present one but for the worker. */
    ghost predicate DueAt(k: CKey, rec: ClusterRec, pc: CPc, found: Refs)
      reads this
    {
      Shape(s) && k in s.conf && Due(s.(cw := CBusy(k, rec, pc, found)))
    }

    method Goto(k: CKey, rec: ClusterRec, pc: CPc, found: Refs)
      requires DueAt(k, rec, pc, found)
      modifies this`s
      ensures At(k, rec, pc, found) && s.conf == old(s.conf)
    {
      s := s.(cw := CBusy(k, rec, pc, found));
    }

    // ----- calls that create -----

    method GetByName(k: CKey, rec: ClusterRec, kind: Kind, found: Refs) returns (o: Outcome, hit: Option<Id>)
      requires At(k, rec, CLook(kind), found)
      modifies this`s, this`calls
      ensures s.conf == old(s.conf)
      ensures o.Good? && hit.Some? ==> DueAt(k, rec, AfterFound(kind), Put(found, kind, hit))
      ensures o.Good? && hit.None? ==> DueAt(k, rec, AfterMissing(kind, found), found)
      ensures !o.Good? ==> hit.None?
                           && DueAt(k, rec, if kind.IpSetKind? || kind.PoolKind? then AfterFound(kind) else CPatch,
                                    found)
    {
      var addr;
      o, addr := Await();
      hit := if o.Good? then Find(s.cloud, s.cloud.next, kind, NameFor(s.conf[k], kind)) else None;
      CS.PlainSteps(s, o, addr);
    }

    /** An error may come with or without the object having been created. */
    method CreateNew(k: CKey, rec: ClusterRec, kind: Kind, found: Refs, r: Resource) returns (o: Outcome, id: Id)
      requires At(k, rec, CMake(kind), found) && r == NewResource(s.conf[k], kind, rec.endpoint, found)
      modifies this`s, this`calls
      ensures s.conf == old(s.conf)
      ensures o.Good? ==>
                DueAt(k, rec, if kind.VAppKind? then CNetwork else AfterFound(kind), Put(found, kind, Some(id)))
      ensures !o.Good? ==> DueAt(k, rec, CPatch, found)
    {
      var addr;
      o, addr := Await();
      CS.StepByPc(s, o, addr);
      id := s.cloud.next;
      if Applied(o) { s := s.(cloud := Create(s.cloud, r)); }
    }

    /** A call that only asks. An error from waiting for the vApp to be powered on is only logged. */
    method Ask(k: CKey, rec: ClusterRec, pc: CPc, found: Refs) returns (ok: bool)
      requires At(k, rec, pc, found)
      requires pc.CConnect? || pc.CEngine? || pc.CNetwork? || pc.CPower?
      modifies this`s, this`calls
      ensures s.conf == old(s.conf)
      ensures !ok ==> DueAt(k, rec, CPatch, found)
      ensures ok && pc.CConnect? ==> DueAt(k, rec, CEndpoint, found)
      ensures ok && pc.CEngine? ==> DueAt(k, rec, if found.pool.None? then CPatch else CMake(ServiceKind), found)
      ensures ok && pc.CNetwork? ==> DueAt(k, rec, CAttach, found)
      ensures ok && pc.CPower? ==> DueAt(k, rec, CRecord, found)
    {
      var o, addr := Await();
      CS.PlainSteps(s, o, addr);
      ok := o.Good? || (pc.CPower? && o.Dropped?);
    }

    method AddOrgNetwork(k: CKey, rec: ClusterRec, found: Refs, vapp: Id) returns (ok: bool)
      requires At(k, rec, CAttach, found) && found.vapp == Some(vapp)
      modifies this`s, this`calls
      ensures s.conf == old(s.conf)
      ensures DueAt(k, rec, if ok then CPower else CPatch, found)
    {
      var o, addr := Await();
      CS.StepByPc(s, o, addr);
      if Applied(o) && vapp in s.cloud.objs && s.cloud.objs[vapp].VApp? {
        s := s.(cloud := Update(s.cloud, vapp, s.cloud.objs[vapp].(network := true)));
      }
      ok := o.Good?;
    }

    // ----- creation -----

    method ReconcileIpSet(k: CKey, rec: ClusterRec) returns (ok: bool, ipset: Option<Id>)
      requires At(k, rec, CLook(IpSetKind), NO_REFS)
      modifies this`s, this`calls
      ensures s.conf == old(s.conf)
      ensures At(k, rec, if ok then CLook(PoolKind) else CPatch, Refs(None, None, None, ipset))
    {
      var o;
      o, ipset := GetByName(k, rec, IpSetKind, NO_REFS);
      if o.Good? && ipset.None? {
        Goto(k, rec, CMake(IpSetKind), NO_REFS);
        var id;
        o, id := CreateNew(k, rec, IpSetKind, NO_REFS, Group(NameFor(s.conf[k], IpSetKind), []));
        if !o.Good? {
          Goto(k, rec, CPatch, NO_REFS);
          return false, None;
        }
        ipset := Some(id);
      }
      Goto(k, rec, CLook(PoolKind), Refs(None, None, None, ipset));
      ok := true;
    }

    /** Without an IP set at hand the pool cannot be described, and the pass breaks off. */
    method ReconcilePool(k: CKey, rec: ClusterRec, ipset: Option<Id>) returns (ok: bool, pool: Option<Id>)
      requires At(k, rec, CLook(PoolKind), Refs(None, None, None, ipset))
      modifies this`s, this`calls
      ensures s.conf == old(s.conf)
      ensures At(k, rec, if ok then CLook(ServiceKind) else CPatch, Refs(None, None, pool, ipset))
    {
      var found := Refs(None, None, None, ipset);
      var o;
      o, pool := GetByName(k, rec, PoolKind, found);
      if o.Good? && pool.None? {
        if ipset.None? {
          Goto(k, rec, CPatch, found);
          return false, None;
        }
        Goto(k, rec, CMake(PoolKind), found);
        var id;
        o, id := CreateNew(k, rec, PoolKind, found, Pool(NameFor(s.conf[k], PoolKind), ipset.value));
        if !o.Good? {
          Goto(k, rec, CPatch, found);
          return false, None;
        }
        pool := Some(id);
      }
      Goto(k, rec, CLook(ServiceKind), Refs(None, None, pool, ipset));
      ok := true;
    }

    method ReconcileService(k: CKey, rec: ClusterRec, pool: Option<Id>, ipset: Option<Id>)
      returns (ok: bool, service: Option<Id>)
      requires At(k, rec, CLook(ServiceKind), Refs(None, None, pool, ipset))
      modifies this`s, this`calls
      ensures s.conf == old(s.conf)
      ensures At(k, rec, if ok then CLook(VAppKind) else CPatch, Refs(None, service, pool, ipset))
    {
      var found := Refs(None, None, pool, ipset);
      var o;
      o, service := GetByName(k, rec, ServiceKind, found);
      if !o.Good? {
        Goto(k, rec, CPatch, found);
        return false, None;
      }
      if service.None? {
        Goto(k, rec, CEngine, found);
        ok := Ask(k, rec, CEngine, found);
        if !ok || pool.None? {
          Goto(k, rec, CPatch, found);
          return false, None;
        }
        Goto(k, rec, CMake(ServiceKind), found);
        var id;
        o, id := CreateNew(k, rec, ServiceKind, found,
                           Service(NameFor(s.conf[k], ServiceKind), pool.value, rec.endpoint.host, rec.endpoint.port));
        if !o.Good? {
          Goto(k, rec, CPatch, found);
          return false, None;
        }
        service := Some(id);
      }
      Goto(k, rec, CLook(VAppKind), Refs(None, service, pool, ipset));
      ok := true;
    }

    method ReconcileVApp(k: CKey, rec: ClusterRec, found: Refs) returns (ok: bool, vapp: Option<Id>)
      requires At(k, rec, CLook(VAppKind), found)
      modifies this`s, this`calls
      ensures s.conf == old(s.conf)
      ensures OnTrack() && s.cw.k == k && s.cw.rec == rec
      ensures ok ==> At(k, rec, CRecord, found.(vapp := vapp))
      ensures !ok ==> s.cw.pc == CPatch
    {
      var o;
      o, vapp := GetByName(k, rec, VAppKind, found);
      if !o.Good? {
        Goto(k, rec, CPatch, found);
        return false, None;
      }
      if vapp.Some? {
        Goto(k, rec, CRecord, found.(vapp := vapp));
        return true, vapp;
      }
      Goto(k, rec, CMake(VAppKind), found);
      ok, vapp := CreateVApp(k, rec, found);
    }

    method CreateVApp(k: CKey, rec: ClusterRec, found: Refs) returns (ok: bool, vapp: Option<Id>)
      requires At(k, rec, CMake(VAppKind), found)
      modifies this`s, this`calls
      ensures s.conf == old(s.conf)
      ensures OnTrack() && s.cw.k == k && s.cw.rec == rec
      ensures ok ==> At(k, rec, CRecord, found.(vapp := vapp))
      ensures !ok ==> s.cw.pc == CPatch
    {
      var o, id := CreateNew(k, rec, VAppKind, found, VApp(NameFor(s.conf[k], VAppKind), false));
      if !o.Good? {
        Goto(k, rec, CPatch, found);
        return false, None;
      }
      vapp := Some(id);
      assert Put(found, VAppKind, vapp) == found.(vapp := vapp);
      ok := StartVApp(k, rec, found.(vapp := vapp), id);
    }

    /** The network is connected only in the pass that creates the vApp. */
    method StartVApp(k: CKey, rec: ClusterRec, found: Refs, vapp: Id) returns (ok: bool)
      requires DueAt(k, rec, CNetwork, found) && found.vapp == Some(vapp)
      modifies this`s, this`calls
      ensures s.conf == old(s.conf)
      ensures At(k, rec, if ok then CRecord else CPatch, found)
    {
      Goto(k, rec, CNetwork, found);
      ok := Ask(k, rec, CNetwork, found);
      if ok {
        Goto(k, rec, CAttach, found);
        ok := AddOrgNetwork(k, rec, found, vapp);
        if ok {
          Goto(k, rec, CPower, found);
          ok := Ask(k, rec, CPower, found);
        }
      }
      Goto(k, rec, if ok then CRecord else CPatch, found);
    }

    /** Everything from the IP set to the recorded references. */
    method ReconcileResources(k: CKey, rec: ClusterRec) returns (r: ClusterRec)
      requires At(k, rec, CLook(IpSetKind), NO_REFS)
      modifies this`s, this`calls
      ensures OnTrack() && s.cw.k == k && s.cw.rec == r && s.cw.pc == CPatch
    {
      r := rec;
      var ok, ipset := ReconcileIpSet(k, r);
      if !ok { return; }
      var pool;
      ok, pool := ReconcilePool(k, r, ipset);
      if !ok { return; }
      var service;
      ok, service := ReconcileService(k, r, pool, ipset);
      if !ok { return; }
      var vapp;
      ok, vapp := ReconcileVApp(k, r, Refs(None, service, pool, ipset));
      if !ok { return; }
      r := Record(k, r, vapp, service, pool, ipset);
    }

    /** The references are recorded one by one; one that is nil breaks the pass off with those before it recorded. */
    method Record(k: CKey, rec: ClusterRec, vapp: Option<Id>, service: Option<Id>, pool: Option<Id>, ipset: Option<Id>)
      returns (r: ClusterRec)
      requires At(k, rec, CRecord, Refs(vapp, service, pool, ipset))
      modifies this`s, this`calls
      ensures At(k, r, CPatch, Refs(vapp, service, pool, ipset))
    {
      var o, addr := Await();
      CS.PlainSteps(s, o, addr);
      r := rec;
      r := r.(refs := r.refs.(vapp := vapp));
      r := r.(refs := r.refs.(service := service));
      if pool.Some? {
        r := r.(refs := r.refs.(pool := pool));
        if ipset.Some? {
          r := r.(refs := r.refs.(ipset := ipset));
          r := r.(ready := true);
        }
      }
      Goto(k, r, CPatch, Refs(vapp, service, pool, ipset));
    }

    method ChooseEndpoint(k: CKey, rec: ClusterRec) returns (r: ClusterRec, more: bool)
      requires At(k, rec, CEndpoint, NO_REFS)
      modifies this`s, this`calls
      ensures s.conf == old(s.conf)
      ensures At(k, r, if more then CLook(IpSetKind) else CPatch, NO_REFS)
      ensures more <==> rec.endpoint.host != "" && s.conf[k].owner && s.conf[k].controlPlaneRef
      ensures r == rec || (rec.endpoint.host == "" && r == rec.(endpoint := r.endpoint) && r.endpoint.port == 6443)
    {
      r, more := rec, false;
      var o, addr := Await();
      if r.endpoint.host == "" {
        if o.Good? { r := r.(endpoint := Endpoint(addr, API_PORT)); }
        Goto(k, r, CPatch, NO_REFS);
        return;
      }
      more := s.conf[k].owner && s.conf[k].controlPlaneRef;
      Goto(k, r, if more then CLook(IpSetKind) else CPatch, NO_REFS);
    }

    // ----- teardown -----

    method AskMachines(k: CKey, rec: ClusterRec) returns (ok: bool)
      requires At(k, rec, DMachines, NO_REFS)
      modifies this`s, this`calls
      ensures At(k, rec, if ok then DConnect else CPatch, NO_REFS)
    {
      var o, addr := Await();
      CS.PlainSteps(s, o, addr);
      ok := o.Good? && s.conf[k].owner && NoOwner(s.owners, k);
      Goto(k, rec, if ok then DConnect else CPatch, NO_REFS);
    }

    method AskClient(k: CKey, rec: ClusterRec) returns (ok: bool)
      requires At(k, rec, DConnect, NO_REFS)
      modifies this`s, this`calls
      ensures At(k, rec, if ok then DLook(ServiceKind) else CPatch, NO_REFS)
    {
      var o, addr := Await();
      CS.PlainSteps(s, o, addr);
      ok := o.Good? && s.conf[k].identity;
      Goto(k, rec, if ok then DLook(ServiceKind) else CPatch, NO_REFS);
    }

    method Release(k: CKey, rec: ClusterRec) returns (r: ClusterRec)
      requires At(k, rec, DRelease, NO_REFS)
      modifies this`s, this`calls
      ensures At(k, r, CPatch, NO_REFS)
    {
      var o, addr := Await();
      CS.PlainSteps(s, o, addr);
      r := rec.(finalizer := false);
      Goto(k, r, CPatch, NO_REFS);
    }

    /** Looks a recorded object up; `there` when it must be deleted. */
    method GetById(k: CKey, rec: ClusterRec, kind: Kind) returns (ok: bool, there: bool)
      requires At(k, rec, DLook(kind), NO_REFS)
      modifies this`s, this`calls
      ensures ok ==> DueAt(k, rec, if there then DDrop(kind) else AfterDropped(kind), NO_REFS)
      ensures ok && there ==> Protocol.At(rec.refs, kind).Some?
      ensures !ok ==> DueAt(k, rec, CPatch, NO_REFS)
    {
      var o, addr := Await();
      CS.PlainSteps(s, o, addr);
      var ref := Protocol.At(rec.refs, kind);
      if ref.None? { return true, false; }
      if !o.Good? { return false, false; }
      if ref.value !in s.cloud.objs { return true, false; }
      var r := s.cloud.objs[ref.value];
      if kind.IpSetKind? && r.Group? && r.ips != [] { return false, false; }
      return true, true;
    }

    method Delete(k: CKey, rec: ClusterRec, kind: Kind, id: Id) returns (ok: bool)
      requires At(k, rec, DDrop(kind), NO_REFS) && Protocol.At(rec.refs, kind) == Some(id)
      modifies this`s, this`calls
      ensures DueAt(k, rec, if ok then AfterDropped(kind) else CPatch, NO_REFS)
    {
      var o, addr := Await();
      CS.StepByPc(s, o, addr);
      if Applied(o) { s := s.(cloud := Drop(s.cloud, id)); }
      ok := o.Good?;
    }

    method Remove(k: CKey, rec: ClusterRec, kind: Kind, next: CPc) returns (ok: bool)
      requires At(k, rec, DLook(kind), NO_REFS) && next == AfterDropped(kind)
      modifies this`s, this`calls
      ensures At(k, rec, if ok then next else CPatch, NO_REFS)
    {
      var there;
      ok, there := GetById(k, rec, kind);
      if ok && there {
        Goto(k, rec, DDrop(kind), NO_REFS);
        ok := Delete(k, rec, kind, Protocol.At(rec.refs, kind).value);
      }
      Goto(k, rec, if ok then next else CPatch, NO_REFS);
    }

    /** The service before its pool before its member group. */
    method RemoveLoadBalancer(k: CKey, rec: ClusterRec) returns (ok: bool)
      requires At(k, rec, DLook(ServiceKind), NO_REFS)
      modifies this`s, this`calls
      ensures At(k, rec, if ok then DLook(VAppKind) else CPatch, NO_REFS)
    {
      ok := Remove(k, rec, ServiceKind, DLook(PoolKind));
      if !ok { return; }
      ok := Remove(k, rec, PoolKind, DLook(IpSetKind));
      if !ok { return; }
      ok := Remove(k, rec, IpSetKind, DLook(VAppKind));
    }

    method RemoveVAppAndRelease(k: CKey, rec: ClusterRec) returns (r: ClusterRec)
      requires At(k, rec, DLook(VAppKind), NO_REFS)
      modifies this`s, this`calls
      ensures At(k, r, CPatch, NO_REFS)
    {
      r := rec;
      var ok := Remove(k, r, VAppKind, DRelease);
      if ok { r := Release(k, r); }
    }

    method ReconcileDelete(k: CKey, rec: ClusterRec) returns (r: ClusterRec)
      requires At(k, rec, DMachines, NO_REFS)
      modifies this`s, this`calls
      ensures At(k, r, CPatch, NO_REFS)
    {
      r := rec;
      var ok := AskMachines(k, r);
      if !ok { return; }
      ok := AskClient(k, r);
      if !ok { return; }
      ok := RemoveLoadBalancer(k, r);
      if !ok { return; }
      r := RemoveVAppAndRelease(k, r);
    }

    // ----- the pass -----

    method ReconcileBody(k: CKey, rec: ClusterRec) returns (r: ClusterRec)
      requires At(k, rec, CFinalizer, NO_REFS)
      modifies this`s, this`calls
      ensures OnTrack() && s.cw.k == k && s.cw.rec == r && s.cw.pc == CPatch
    {
      r := rec;
      var _, _ := Await();
      if r.deleting {
        Goto(k, r, DMachines, NO_REFS);
        r := ReconcileDelete(k, r);
        return;
      }
      if !r.finalizer {
        r := r.(finalizer := true);
        Goto(k, r, CPatch, NO_REFS);
        return;
      }
      if !s.conf[k].identity {
        Goto(k, r, CPatch, NO_REFS);
        return;
      }
      Goto(k, r, CConnect, NO_REFS);
      var more := Ask(k, r, CConnect, NO_REFS);
      if !more {
        Goto(k, r, CPatch, NO_REFS);
        return;
      }
      Goto(k, r, CEndpoint, NO_REFS);
      r, more := ChooseEndpoint(k, r);
      if !more { return; }
      r := ReconcileResources(k, r);
    }

    /** The deferred patch. It fails on an object that is gone, and never changes the deletion mark. */
    method Patch(k: CKey, rec: ClusterRec)
      requires OnTrack() && s.cw.k == k && s.cw.rec == rec && s.cw.pc == CPatch
      modifies this`s, this`calls
      ensures s == goal
    {
      var o, addr := Await();
      CS.StepByPc(s, o, addr);
      if Applied(o) && !s.clusters[k].Gone() {
        s := s.(clusters := s.clusters[k := rec.(deleting := s.clusters[k].deleting)]);
      }
      s := s.(cw := CIdle);
    }

    method Pass(k: CKey)
      requires Shape(s) && k in s.clusters
      modifies this
      ensures s == ClusterPass(ClusterBegun(old(s), k), script, old(calls))
    {
      var rec := s.clusters[k];
      s := ClusterBegun(s, k);
      goal := ClusterPass(s, script, calls);
      rec := ReconcileBody(k, rec);
      Patch(k, rec);
    }

    /**
      One reconcile of cluster `k` ends in exactly the state the protocol's pass ends in, whatever the script says;
      so it keeps the invariant of all runs.
    */
    method Reconcile(k: CKey)
      requires Inv(s) && s.cw.CIdle? && k in s.clusters && !s.clusters[k].Gone()
      requires forall j :: script(j).addr != ""
      modifies this
      ensures s == ClusterPass(ClusterBegun(old(s), k), script, old(calls))
      ensures Inv(s) && s.cw.CIdle?
      ensures Quiet(script) ==> s == C.Pass(old(s), k, script(0).addr)
    {
      PassKeeps(s, k, script, calls);
      Pass(k);
    }
  }
}
