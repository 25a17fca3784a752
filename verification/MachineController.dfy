/**
  The machine reconciler as it is written, one call after the other with a patch deferred to the end. It is proved
  to make exactly the steps of the protocol, whatever the calls return and whatever everyone else does in between.
*/
module MachineController {
  import opened Options
  import opened Clouds
  import opened Protocol
  import opened Invariant
  import opened AllRuns
  import opened Schedule
  import MS = MachineSteps
  import M = MachineProgress

  // ----- the loops over addresses -----

  /** Both passes run over the recorded addresses and keep the last internal one. */
  method InternalAddress(addresses: seq<MachineAddress>) returns (ip: string)
    ensures ip == LastInternal(addresses)
  {
    ip := "";
    for i := 0 to |addresses|
      invariant ip == LastInternal(addresses[..i])
    {
      assert addresses[..i + 1][..i] == addresses[..i];
      if addresses[i].kind.InternalIP? { ip := addresses[i].address; }
    }
    assert addresses[..|addresses|] == addresses;
  }

  method RecordAddresses(nics: seq<string>) returns (addresses: seq<MachineAddress>)
    ensures addresses == Recorded(nics)
  {
    addresses := [];
    for i := 0 to |nics|
      invariant addresses == Recorded(nics)[..i]
    {
      addresses := addresses + [MachineAddress(InternalIP, nics[i])];
    }
  }

  /** The VM's identity, and its addresses unless it has no network connections. */
  method Identified(rec: MachineRec, vm: Id, nics: Option<seq<string>>) returns (r: MachineRec)
    ensures r == rec.(providerId := Some(vm), addresses := if nics.Some? then Recorded(nics.value) else rec.addresses)
  {
    r := rec.(providerId := Some(vm));
    if nics.Some? {
      var addresses := RecordAddresses(nics.value);
      r := r.(addresses := addresses);
    }
  }

  /** Every occurrence of the address is deleted and the rest keeps its order. */
  method DeleteAddress(ips: seq<string>, ip: string) returns (r: seq<string>)
    ensures r == Without(ips, ip)
  {
    r := [];
    for i := 0 to |ips|
      invariant Without(ips, ip) == r + Without(ips[i..], ip)
    {
      if ips[i] != ip { r := r + [ips[i]]; }
    }
  }

  // ----- writing the IP set -----

  predicate IsGroup(c: Cloud, ref: Option<Id>) {
    ref.Some? && ref.value in c.objs && c.objs[ref.value].Group?
  }

  function GroupWritten(c: Cloud, ref: Option<Id>, o: Outcome, ips: seq<string>): Cloud {
    if IsGroup(c, ref) && Applied(o) then WriteIps(c, ref.value, ips) else c
  }

  lemma WriteStep(s: State, o: Outcome, nics: Option<seq<string>>, ips: seq<string>, done: MPc)
    requires Shape(s) && s.mw.MBusy? && ips == NewIps(s.mw)
    requires (s.mw.pc.MJoin? && done == MReady) || (s.mw.pc.XLeave? && done == XVApp)
    ensures MachineStep(s, o, nics)
            == s.(cloud := GroupWritten(s.cloud, s.mw.refs.ipset, o, ips),
                  mw := s.mw.(pc := if o.Good? && IsGroup(s.cloud, s.mw.refs.ipset) then done else MPatch))
  {
    MS.StepByPc(s, o, nics);
  }

  lemma PassKeeps(s: State, m: MKey, script: Script, i: nat)
    requires Inv(s) && s.mw.MIdle? && m in s.owners && !s.machines[m].Gone()
    ensures Shape(MachineBegun(s, m)) && Inv(MachinePass(MachineBegun(s, m), script, i))
    ensures Quiet(script) ==> MachinePass(MachineBegun(s, m), script, i) == M.Pass(s, m, script(0).nics)
  {
    MS.BeginStep(s, m);
    var t := MachineBegun(s, m);
    var es := MachinePassIsRun(t, script, i);
    RunKeeps(t, es, MachinePass(t, script, i));
    if Quiet(script) { QuietMachinePass(t, script, i); }
  }

  class Reconciler {
    var s: State
    const script: Script
    var calls: nat
    ghost var goal: State

    constructor (s: State, script: Script)
      ensures this.s == s && this.script == script && calls == 0
    {
      this.s, this.script, calls, goal := s, script, 0, s;
    }

    // ----- bookkeeping -----

    /** The protocol, continued from here under the script, ends where the pass is to end. */
    ghost predicate OnTrack()
      reads this
    {
      Shape(s) && s.mw.MBusy? && MachinePass(s, script, calls) == goal
    }

    /** A call has returned; the pass is on track again once the state is `next`. */
    ghost predicate Due(next: State)
      reads this
    {
      Shape(next) && MachinePass(next, script, calls) == goal
    }

    ghost predicate At(w: MWorker)
      reads this
    {
      OnTrack() && s.mw == w
    }

    ghost predicate DueAt(w: MWorker)
      reads this
    {
      w.MBusy? && Due(s.(mw := w))
    }

    /** Makes the call the pass has come to. Everyone else may act before it takes place. */
    method Await() returns (o: Outcome, nics: Option<seq<string>>)
      requires OnTrack()
      modifies this`s, this`calls
      ensures Shape(s) && s.mw == old(s.mw) && s.conf == old(s.conf)
      ensures Due(MachineStep(s, o, nics))
    {
      var turn := script(calls);
      o, nics := turn.o, turn.nics;
      s := Meanwhile(OfMachines, s, turn.others);
      M.PassEnds(s, o, nics);
      calls := calls + 1;
    }

    method Goto(w: MWorker)
      requires DueAt(w)
      modifies this`s
      ensures At(w) && s.conf == old(s.conf)
    {
      s := s.(mw := w);
    }

    // ----- calls -----

    method Ask(w: MWorker, next: MPc) returns (ok: bool)
      requires At(w) && (w.pc.MGates? || w.pc.MConnect? || w.pc.MCatalog? || w.pc.MTemplate?)
      requires next == MS.AfterAsking(w.pc)
      modifies this`s, this`calls
      ensures At(w.(pc := if ok then next else MPatch)) && s.conf == old(s.conf)
    {
      var o, nics := Await();
      MS.PlainSteps(s, o, nics);
      ok := o.Good?;
      Goto(w.(pc := if ok then next else MPatch));
    }

    /** Reads the tenant cluster. A cluster that is gone is not found. */
    method GetCluster(w: MWorker) returns (ok: bool, refs: Refs)
      requires At(w) && (w.pc.MCluster? || w.pc.XCluster?)
      modifies this`s, this`calls
      ensures s.conf == old(s.conf) && w.m.cluster in s.conf
      ensures !ok ==> DueAt(w.(pc := MPatch))
      ensures ok && w.pc.XCluster? ==> DueAt(w.(refs := refs, pc := XConnect))
      ensures ok && w.pc.MCluster? ==>
                DueAt(w.(refs := refs, pc := if s.conf[w.m.cluster].identity then MConnect else MPatch))
    {
      var o, nics := Await();
      MS.PlainSteps(s, o, nics);
      MS.PlainTeardownSteps(s, o, nics);
      var c := s.clusters[w.m.cluster];
      ok, refs := o.Good? && !c.Gone(), c.refs;
    }

    method GetVApp(w: MWorker) returns (ok: bool)
      requires At(w) && w.pc.MVApp?
      modifies this`s, this`calls
      ensures ok ==> DueAt(w.(pc := if w.rec.providerId.None? then MCatalog
                                    else if w.rec.controlPlane then MGroup else MReady))
      ensures !ok ==> DueAt(w.(pc := MPatch))
    {
      var o, nics := Await();
      MS.PlainSteps(s, o, nics);
      ok := w.refs.vapp.Some? && o.Good? && w.refs.vapp.value in s.cloud.objs;
    }

    method GetVm(w: MWorker) returns (ok: bool, vm: Option<Id>)
      requires At(w) && (w.pc.MVmLook? || w.pc.MVmAgain?)
      modifies this`s, this`calls
      ensures ok && vm.Some? ==> DueAt(w.(vm := vm.value, pc := MConfigure))
      ensures ok && vm.None? ==> DueAt(w.(pc := if w.pc.MVmLook? then MTemplate else MPatch))
      ensures !ok ==> DueAt(w.(pc := MPatch))
    {
      var o, nics := Await();
      MS.PlainSteps(s, o, nics);
      if !o.Good? || w.refs.vapp.None? { return false, None; }
      vm := FindVm(s.cloud, s.cloud.next, w.refs.vapp.value, w.m.name);
      ok := true;
    }

    /** Starts a task; the pass goes on when it has been accepted, whatever came of it. */
    method AddNewVm(w: MWorker) returns (ok: bool)
      requires At(w) && w.pc.MVmAdd?
      modifies this`s, this`calls
      ensures At(w.(pc := if ok then MVmAgain else MPatch))
    {
      var o, nics := Await();
      MS.StepByPc(s, o, nics);
      if Applied(o) {
        var vapp := if w.refs.vapp.Some? then w.refs.vapp.value else 0;
        s := s.(cloud := Create(s.cloud, Vm(w.m.name, vapp, nics, false)));
      }
      ok := o.Good? || o.Dropped?;
      Goto(w.(pc := if ok then MVmAgain else MPatch));
    }

    method Configure(w: MWorker) returns (ok: bool)
      requires At(w) && w.pc.MConfigure?
      modifies this`s, this`calls
      ensures At(w.(pc := if ok then MPower else MPatch))
    {
      var o, nics := Await();
      MS.PlainSteps(s, o, nics);
      ok := o.Good? && Configurable(s.cloud, w.vm);
      Goto(w.(pc := if ok then MPower else MPatch));
    }

    /** Powers the VM on and records its identity and its addresses. */
    method PowerOn(w: MWorker) returns (r: MWorker)
      requires At(w) && w.pc.MPower?
      modifies this`s, this`calls
      ensures At(r) && r.MBusy? && r == w.(rec := r.rec, pc := r.pc)
      ensures r.pc == MPatch || r.pc == if w.rec.controlPlane then MGroup else MReady
      ensures r.rec.controlPlane == w.rec.controlPlane
    {
      r := w.(pc := MPatch);
      var o, nics := Await();
      MS.StepByPc(s, o, nics);
      if w.vm in s.cloud.objs && s.cloud.objs[w.vm].Vm? {
        var vm := s.cloud.objs[w.vm];
        if Applied(o) { s := s.(cloud := Update(s.cloud, w.vm, vm.(on := true))); }
        if o.Good? {
          var rec := Identified(w.rec, w.vm, vm.nics);
          r := w.(rec := rec, pc := if w.rec.controlPlane then MGroup else MReady);
        }
      }
      Goto(r);
    }

    method GetGroup(w: MWorker) returns (ok: bool, ips: seq<string>)
      requires At(w) && (w.pc.MGroup? || w.pc.XGroup?)
      modifies this`s, this`calls
      ensures !ok ==> DueAt(w.(pc := MPatch))
      ensures ok && w.pc.XGroup? ==> DueAt(w.(ips := ips, pc := XLeave))
      ensures ok && w.pc.MGroup? ==>
                var ip := LastInternal(w.rec.addresses);
                if ip == "" then DueAt(w.(pc := MPatch))
                else DueAt(w.(ips := ips, pc := if ip in ips then MReady else MJoin))
    {
      var o, nics := Await();
      MS.PlainSteps(s, o, nics);
      MS.PlainTeardownSteps(s, o, nics);
      if w.refs.ipset.None? || !o.Good? || w.refs.ipset.value !in s.cloud.objs { return false, []; }
      var group := s.cloud.objs[w.refs.ipset.value];
      if !group.Group? { return false, []; }
      return true, group.ips;
    }

    method AwaitWrite(w: MWorker, ips: seq<string>, done: MPc) returns (o: Outcome)
      requires At(w) && ips == NewIps(w)
      requires (w.pc.MJoin? && done == MReady) || (w.pc.XLeave? && done == XVApp)
      modifies this`s, this`calls
      ensures Shape(s) && s.mw == w && w.m in s.machines
      ensures Due(s.(cloud := GroupWritten(s.cloud, w.refs.ipset, o, ips),
                     mw := w.(pc := if o.Good? && IsGroup(s.cloud, w.refs.ipset) then done else MPatch)))
    {
      var nics;
      o, nics := Await();
      WriteStep(s, o, nics, ips, done);
    }

    /** Writes the whole list back. */
    method UpdateGroup(w: MWorker, ips: seq<string>, done: MPc) returns (ok: bool)
      requires At(w) && ips == NewIps(w)
      requires (w.pc.MJoin? && done == MReady) || (w.pc.XLeave? && done == XVApp)
      modifies this`s, this`calls
      ensures At(w.(pc := if ok then done else MPatch))
    {
      var o := AwaitWrite(w, ips, done);
      ok := o.Good? && IsGroup(s.cloud, w.refs.ipset);
      var next := w.(pc := if ok then done else MPatch);
      s := s.(cloud := GroupWritten(s.cloud, w.refs.ipset, o, ips));
      Goto(next);
    }

    // ----- joining -----

    /** Adds the VM and looks it up again. */
    method AddVm(w: MWorker) returns (r: MWorker)
      requires At(w) && w.pc.MTemplate?
      modifies this`s, this`calls
      ensures At(r) && r.MBusy? && r == w.(pc := r.pc, vm := r.vm) && (r.pc == MPatch || r.pc == MConfigure)
    {
      r := w.(pc := MPatch);
      var ok := Ask(w, MVmAdd);
      if !ok { return; }
      ok := AddNewVm(w.(pc := MVmAdd));
      if !ok { return; }
      var vm;
      ok, vm := GetVm(w.(pc := MVmAgain));
      if ok && vm.Some? { r := w.(vm := vm.value, pc := MConfigure); }
      Goto(r);
    }

    /** Finds the VM by name, or adds it and finds it then. */
    method ReconcileVm(w: MWorker) returns (r: MWorker)
      requires At(w) && w.pc.MVmLook?
      modifies this`s, this`calls
      ensures At(r) && r.MBusy? && r == w.(pc := r.pc, vm := r.vm) && (r.pc == MPatch || r.pc == MConfigure)
    {
      var ok, vm := GetVm(w);
      r := if !ok then w.(pc := MPatch)
           else if vm.Some? then w.(vm := vm.value, pc := MConfigure)
           else w.(pc := MTemplate);
      Goto(r);
      if r.pc.MTemplate? { r := AddVm(r); }
    }

    method ReconcileProvider(w: MWorker) returns (r: MWorker)
      requires At(w) && w.pc.MCatalog?
      modifies this`s, this`calls
      ensures At(r) && r.MBusy? && r.m == w.m
      ensures r.pc == MPatch || r.pc == if r.rec.controlPlane then MGroup else MReady
    {
      r := w.(pc := MPatch);
      var ok := Ask(w, MVmLook);
      if !ok { return; }
      r := ReconcileVm(w.(pc := MVmLook));
      if r.pc.MConfigure? { r := ConfigureAndStart(r); }
    }

    method ConfigureAndStart(w: MWorker) returns (r: MWorker)
      requires At(w) && w.pc.MConfigure?
      modifies this`s, this`calls
      ensures At(r) && r.MBusy? && r.m == w.m
      ensures r.pc == MPatch || r.pc == if r.rec.controlPlane then MGroup else MReady
    {
      var ok := Configure(w);
      r := w.(pc := if ok then MPower else MPatch);
      if ok { r := PowerOn(r); }
    }

    /** Makes sure the machine's address is in the IP set. */
    method Join(w: MWorker) returns (r: MWorker)
      requires At(w) && w.pc.MGroup?
      modifies this`s, this`calls
      ensures At(r) && r.MBusy? && r.m == w.m && (r.pc == MPatch || r.pc == MReady)
    {
      r := w.(pc := MPatch);
      var ok, ips := GetGroup(w);
      var ip := InternalAddress(w.rec.addresses);
      if !ok || ip == "" {
        Goto(r);
        return;
      }
      r := w.(ips := ips, pc := if ip in ips then MReady else MJoin);
      Goto(r);
      if r.pc.MReady? { return; }
      ok := UpdateGroup(r, ips + [ip], MReady);
      r := r.(pc := if ok then MReady else MPatch);
    }

    method MarkReady(w: MWorker) returns (r: MWorker)
      requires At(w) && w.pc.MReady?
      modifies this`s, this`calls
      ensures At(r) && r.MBusy? && r.m == w.m && r.pc == MPatch
    {
      var o, nics := Await();
      MS.PlainSteps(s, o, nics);
      r := w.(rec := w.rec.(ready := true), pc := MPatch);
      Goto(r);
    }

    method ReconcileNormal(w: MWorker) returns (r: MWorker)
      requires At(w) && w.pc.MVApp?
      modifies this`s, this`calls
      ensures At(r) && r.MBusy? && r.m == w.m && r.pc == MPatch
    {
      var ok := GetVApp(w);
      if !ok {
        r := w.(pc := MPatch);
        Goto(r);
        return;
      }
      if w.rec.providerId.None? {
        r := w.(pc := MCatalog);
        Goto(r);
        r := ReconcileProvider(r);
        if r.pc.MPatch? { return; }
      } else {
        r := w.(pc := if w.rec.controlPlane then MGroup else MReady);
        Goto(r);
      }
      if r.rec.controlPlane {
        r := Join(r);
        if r.pc.MPatch? { return; }
      }
      r := MarkReady(r);
    }

    // ----- leaving -----

    method Connect(w: MWorker) returns (r: MWorker)
      requires At(w) && w.pc.XConnect?
      modifies this`s, this`calls
      ensures At(r) && r.MBusy? && r == w.(pc := r.pc) && (r.pc == MPatch || r.pc == XGroup || r.pc == XVApp)
    {
      var o, nics := Await();
      MS.PlainTeardownSteps(s, o, nics);
      r := w.(pc := MPatch);
      if o.Good? && s.conf[w.m.cluster].identity {
        var ip := InternalAddress(w.rec.addresses);
        r := w.(pc := if w.rec.controlPlane && ip != "" then XGroup else XVApp);
      }
      Goto(r);
    }

    method Leave(w: MWorker) returns (r: MWorker)
      requires At(w) && w.pc.XGroup?
      modifies this`s, this`calls
      ensures At(r) && r.MBusy? && r.m == w.m && (r.pc == MPatch || r.pc == XVApp)
    {
      var ok, ips := GetGroup(w);
      if !ok {
        r := w.(pc := MPatch);
        Goto(r);
        return;
      }
      r := w.(ips := ips, pc := XLeave);
      Goto(r);
      var ip := InternalAddress(w.rec.addresses);
      ips := DeleteAddress(ips, ip);
      ok := UpdateGroup(r, ips, XVApp);
      r := r.(pc := if ok then XVApp else MPatch);
    }

    method FindForDelete(w: MWorker) returns (r: MWorker)
      requires At(w) && w.pc.XVApp?
      modifies this`s, this`calls
      ensures At(r) && r.MBusy? && r == w.(pc := r.pc) && (r.pc == MPatch || r.pc == XVm || r.pc == XRelease)
    {
      var o, nics := Await();
      MS.PlainTeardownSteps(s, o, nics);
      r := w.(pc := if w.refs.vapp.None? then XRelease
                    else if o.Good? && w.refs.vapp.value in s.cloud.objs then XVm else MPatch);
      Goto(r);
    }

    method GetVmForDelete(w: MWorker) returns (r: MWorker)
      requires At(w) && w.pc.XVm?
      modifies this`s, this`calls
      ensures At(r) && r.MBusy? && r == w.(pc := r.pc, vm := r.vm)
      ensures r.pc == MPatch || r.pc == XDrop || r.pc == XRelease
    {
      var o, nics := Await();
      MS.PlainTeardownSteps(s, o, nics);
      r := w.(pc := MPatch);
      if o.Good? && w.refs.vapp.Some? {
        var vm := FindVm(s.cloud, s.cloud.next, w.refs.vapp.value, w.m.name);
        r := if vm.Some? then w.(vm := vm.value, pc := XDrop) else w.(pc := XRelease);
      }
      Goto(r);
    }

    method DeleteVm(w: MWorker) returns (ok: bool)
      requires At(w) && w.pc.XDrop?
      modifies this`s, this`calls
      ensures At(w.(pc := if ok then XRelease else MPatch))
    {
      var o, nics := Await();
      MS.StepByPc(s, o, nics);
      if Applied(o) { s := s.(cloud := Drop(s.cloud, w.vm)); }
      ok := o.Good?;
      Goto(w.(pc := if ok then XRelease else MPatch));
    }

    method Release(w: MWorker) returns (r: MWorker)
      requires At(w) && w.pc.XRelease?
      modifies this`s, this`calls
      ensures At(r) && r.MBusy? && r.m == w.m && r.pc == MPatch
    {
      var o, nics := Await();
      MS.PlainTeardownSteps(s, o, nics);
      r := w.(rec := w.rec.(finalizer := false), pc := MPatch);
      Goto(r);
    }

    method RemoveVm(w: MWorker) returns (r: MWorker)
      requires At(w) && w.pc.XVApp?
      modifies this`s, this`calls
      ensures At(r) && r.MBusy? && r.m == w.m && r.pc == MPatch
    {
      r := FindForDelete(w);
      if r.pc.XVm? {
        r := GetVmForDelete(r);
        if r.pc.XDrop? {
          var ok := DeleteVm(r);
          r := r.(pc := if ok then XRelease else MPatch);
        }
      }
      if r.pc.XRelease? { r := Release(r); }
    }

    method ReconcileDelete(w: MWorker) returns (r: MWorker)
      requires At(w) && w.pc.XCluster?
      modifies this`s, this`calls
      ensures At(r) && r.MBusy? && r.m == w.m && r.pc == MPatch
    {
      var ok, refs := GetCluster(w);
      r := if ok then w.(refs := refs, pc := XConnect) else w.(pc := MPatch);
      Goto(r);
      if !ok { return; }
      r := Connect(r);
      if r.pc.XGroup? { r := Leave(r); }
      if r.pc.XVApp? { r := RemoveVm(r); }
    }

    // ----- the pass -----

    /** The checks before anything is read from the cluster. */
    method Gates(w: MWorker) returns (r: MWorker)
      requires At(w) && w.pc.MFinalizer?
      modifies this`s, this`calls
      ensures At(r) && r.MBusy? && r.m == w.m
      ensures r.pc == MPatch || r.pc == MGates || r.pc == XCluster || r.pc == XRelease
    {
      var o, nics := Await();
      r := w.(pc := MPatch);
      if w.rec.deleting {
        r := w.(pc := if s.conf[w.m.cluster].infraRef then XCluster else XRelease);
      } else if !w.rec.finalizer {
        r := r.(rec := w.rec.(finalizer := true));
      } else if w.infra {
        r := w.(pc := MGates);
      }
      Goto(r);
    }

    method ReadCluster(w: MWorker) returns (r: MWorker)
      requires At(w) && w.pc.MCluster?
      modifies this`s, this`calls
      ensures At(r) && r.MBusy? && r.m == w.m && (r.pc == MPatch || r.pc == MConnect)
    {
      r := w.(pc := MPatch);
      var ok, refs := GetCluster(w);
      if ok { r := w.(refs := refs, pc := if s.conf[w.m.cluster].identity then MConnect else MPatch); }
      Goto(r);
    }

    method ReconcileLive(w: MWorker) returns (r: MWorker)
      requires At(w) && w.pc.MGates?
      modifies this`s, this`calls
      ensures At(r) && r.MBusy? && r.m == w.m && r.pc == MPatch
    {
      r := w.(pc := MPatch);
      var ok := Ask(w, MCluster);
      if !ok { return; }
      r := ReadCluster(w.(pc := MCluster));
      if r.pc.MConnect? { r := ReconcileConnected(r); }
    }

    method ReconcileConnected(w: MWorker) returns (r: MWorker)
      requires At(w) && w.pc.MConnect?
      modifies this`s, this`calls
      ensures At(r) && r.MBusy? && r.m == w.m && r.pc == MPatch
    {
      var ok := Ask(w, MVApp);
      r := w.(pc := if ok then MVApp else MPatch);
      if ok { r := ReconcileNormal(r); }
    }

    method ReconcileBody(w: MWorker) returns (r: MWorker)
      requires At(w) && w.pc.MFinalizer?
      modifies this`s, this`calls
      ensures At(r) && r.MBusy? && r.m == w.m && r.pc == MPatch
    {
      r := Gates(w);
      if r.pc.XCluster? {
        r := ReconcileDelete(r);
      } else if r.pc.XRelease? {
        r := Release(r);
      } else if r.pc.MGates? {
        r := ReconcileLive(r);
      }
    }

    /** The deferred patch. It fails on an object that is gone, and never changes the deletion mark. */
    method Patch(w: MWorker)
      requires At(w) && w.pc.MPatch?
      modifies this`s, this`calls
      ensures s == goal
    {
      var o, nics := Await();
      MS.StepByPc(s, o, nics);
      if Applied(o) && !s.machines[w.m].Gone() {
        s := s.(machines := s.machines[w.m := w.rec.(deleting := s.machines[w.m].deleting)]);
      }
      s := s.(mw := MIdle);
    }

    method Pass(m: MKey)
      requires Shape(s) && m in s.machines
      modifies this
      ensures s == MachinePass(MachineBegun(old(s), m), script, old(calls))
    {
      s := MachineBegun(s, m);
      goal := MachinePass(s, script, calls);
      var w := ReconcileBody(s.mw);
      Patch(w);
    }

    /**
      One reconcile of machine `m` ends in exactly the state the protocol's pass ends in, whatever the script says;
      so it keeps the invariant of all runs. A machine whose owner is missing is ignored.
    */
    method Reconcile(m: MKey)
      requires Inv(s) && s.mw.MIdle? && m in s.machines && !s.machines[m].Gone()
      modifies this
      ensures m in old(s.owners) ==> s == MachinePass(MachineBegun(old(s), m), script, old(calls))
      ensures m !in old(s.owners) ==> s == old(s)
      ensures Inv(s) && s.mw.MIdle?
      ensures Quiet(script) && m in old(s.owners) ==> s == M.Pass(old(s), m, script(0).nics)
    {
      if m !in s.owners { return; }
      PassKeeps(s, m, script, calls);
      Pass(m);
    }
  }
}
