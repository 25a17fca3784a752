/** Every step of the machine reconciler keeps the invariant. */
module MachineSteps {
  import opened Options
  import opened Clouds
  import opened Protocol
  import opened Invariant
  import opened CloudFacts
  import CS = ClusterSteps

  lemma MoveWorker(s: State, w: MWorker)
    requires Inv(s) && MWorkerOk(s.conf, s.cloud, s.clusters, s.infra, s.machines, w)
    ensures Inv(s.(mw := w))
  {
  }

  /** The records a busy machine worker deals with. */
  ghost predicate Context(s: State) {
    && Shape(s)
    && s.mw.MBusy?
    && DistinctNames(s.conf)
    && CloudOk(s.conf, s.cloud)
    && ClusterOk(s.conf, s.cloud, s.mw.m.cluster, s.clusters[s.mw.m.cluster],
                 Kept(s.clusters, s.owners, s.cw, s.mw.m.cluster))
    && InfraOk(s.conf, s.clusters, s.infra)
    && MachineOk(s.conf, s.cloud, s.infra, s.owners, s.mw.m, s.machines[s.mw.m])
    && WorkerOk(s, s.mw)
  }

  ghost predicate WorkerOk(s: State, w: MWorker)
    requires Shape(s)
  {
    w.MBusy? && w.m in s.machines
    && MBusyOk(s.conf, s.cloud, s.clusters[w.m.cluster].refs, s.infra, s.machines[w.m], w)
  }

  lemma ContextHolds(s: State)
    requires Inv(s) && s.mw.MBusy?
    ensures Context(s)
  {
  }

  lemma Assemble(s: State, d: Cloud, w: MWorker)
    requires Shape(s) && DistinctNames(s.conf) && InfraOk(s.conf, s.clusters, s.infra)
    requires CloudOk(s.conf, d)
    requires ClustersOk(s.conf, d, s.clusters, s.owners, s.cw)
    requires CWorkerOk(s.conf, d, s.clusters, s.owners, s.cw)
    requires MachinesOk(s.conf, d, s.infra, s.owners, s.machines)
    requires MWorkerOk(s.conf, d, s.clusters, s.infra, s.machines, w)
    ensures Inv(s.(cloud := d, mw := w))
  {
  }

  lemma StopKeeps(s: State)
    requires Inv(s) && s.mw.MBusy? && !s.mw.pc.MPatch? && s.mw.rec.finalizer
    ensures Inv(s.(mw := s.mw.(pc := MPatch)))
  {
    Stop(s);
    MoveWorker(s, s.mw.(pc := MPatch));
  }

  /** A pass may stop and patch at any call. */
  lemma Stop(s: State)
    requires Shape(s) && s.mw.MBusy? && WorkerOk(s, s.mw) && !s.mw.pc.MPatch? && s.mw.rec.finalizer
    ensures WorkerOk(s, s.mw.(pc := MPatch))
  {
  }

  /** Moving on without reading or writing anything. */
  lemma Goto(s: State, pc: MPc)
    requires Shape(s) && s.mw.MBusy? && WorkerOk(s, s.mw) && !s.mw.pc.MPatch? && !pc.MPatch?
    requires MPassOk(s.conf, s.cloud, s.clusters[s.mw.m.cluster].refs, s.infra, s.machines[s.mw.m], s.mw.(pc := pc))
    ensures WorkerOk(s, s.mw.(pc := pc))
  {
  }

  /** A machine that holds its finalizer keeps its cluster: whatever the cluster recorded still exists. */
  lemma ClusterIsKept(s: State, kind: Kind)
    requires Context(s) && s.machines[s.mw.m].finalizer
    ensures Kept(s.clusters, s.owners, s.cw, s.mw.m.cluster)
    ensures At(s.clusters[s.mw.m.cluster].refs, kind).Some? ==>
              Named(s.conf, s.cloud, s.mw.m.cluster, kind, At(s.clusters[s.mw.m.cluster].refs, kind).value)
  {
    assert s.mw.m in s.owners;
    assert RefOk(s.conf, s.cloud, s.mw.m.cluster, kind, At(s.clusters[s.mw.m.cluster].refs, kind), true);
  }

  /** The object a pass reads by a reference it took from its cluster is the cluster's own, and exists. */
  lemma ReadRefExists(s: State, kind: Kind)
    requires Context(s) && !s.mw.pc.MPatch? && ReadCluster(s.mw.pc) && At(s.mw.refs, kind).Some?
    ensures Named(s.conf, s.cloud, s.mw.m.cluster, kind, At(s.mw.refs, kind).value)
  {
    ClusterIsKept(s, kind);
  }

  ghost predicate Working(s: State, pc: MPc) {
    Shape(s) && s.mw.MBusy? && s.mw.pc == pc && WorkerOk(s, s.mw)
  }

  lemma FinalizerStep(s: State, o: Outcome, nics: Option<seq<string>>)
    requires Working(s, MFinalizer) && MachineOk(s.conf, s.cloud, s.infra, s.owners, s.mw.m, s.machines[s.mw.m])
    requires InfraOk(s.conf, s.clusters, s.infra)
    ensures WorkerOk(s, MachineStep(s, o, nics).mw)
  {
    var w := s.mw;
    if w.rec.deleting {
      if s.conf[w.m.cluster].infraRef { Goto(s, XCluster); } else { Goto(s, XRelease); }
    } else if w.rec.finalizer {
      if w.infra { Goto(s, MGates); } else { Stop(s); }
    }
  }

  lemma GatesStep(s: State, o: Outcome, nics: Option<seq<string>>)
    requires Working(s, MGates)
    ensures WorkerOk(s, MachineStep(s, o, nics).mw)
  {
    if o.Good? { Goto(s, MCluster); } else { Stop(s); }
  }

  lemma ReadClusterStep(s: State, o: Outcome, done: MPc)
    requires Shape(s) && s.mw.MBusy? && WorkerOk(s, s.mw) && InfraOk(s.conf, s.clusters, s.infra)
    requires Chain(s.clusters[s.mw.m.cluster].refs, s.clusters[s.mw.m.cluster].ready)
    requires MachineOk(s.conf, s.cloud, s.infra, s.owners, s.mw.m, s.machines[s.mw.m])
    requires (s.mw.pc.MCluster? && (done.MConnect? || done.MPatch?)) || (s.mw.pc.XCluster? && done.XConnect?)
    ensures WorkerOk(s, StepReadCluster(s, o, done).mw)
  {
    Stop(s);
  }

  lemma ConnectStep(s: State, o: Outcome, nics: Option<seq<string>>)
    requires Working(s, MConnect)
    ensures WorkerOk(s, MachineStep(s, o, nics).mw)
  {
    if o.Good? { Goto(s, MVApp); } else { Stop(s); }
  }

  lemma XConnectStep(s: State, o: Outcome, nics: Option<seq<string>>)
    requires Working(s, XConnect)
    ensures WorkerOk(s, MachineStep(s, o, nics).mw)
  {
    var pc := MachineStep(s, o, nics).mw.pc;
    if pc.MPatch? { Stop(s); } else { Goto(s, pc); }
  }

  lemma VAppStep(s: State, o: Outcome)
    requires Working(s, MVApp)
    ensures WorkerOk(s, StepVApp(s, o).mw)
  {
    var pc := StepVApp(s, o).mw.pc;
    if pc.MPatch? { Stop(s); } else { Goto(s, pc); }
  }

  lemma XVAppStep(s: State, o: Outcome, nics: Option<seq<string>>)
    requires Working(s, XVApp)
    ensures WorkerOk(s, MachineStep(s, o, nics).mw)
  {
    var pc := MachineStep(s, o, nics).mw.pc;
    if pc.MPatch? { Stop(s); } else { Goto(s, pc); }
  }

  lemma CatalogStep(s: State, o: Outcome, nics: Option<seq<string>>)
    requires Working(s, MCatalog)
    ensures WorkerOk(s, MachineStep(s, o, nics).mw)
  {
    if o.Good? { Goto(s, MVmLook); } else { Stop(s); }
  }

  lemma TemplateStep(s: State, o: Outcome, nics: Option<seq<string>>)
    requires Working(s, MTemplate)
    ensures WorkerOk(s, MachineStep(s, o, nics).mw)
  {
    if o.Good? { Goto(s, MVmAdd); } else { Stop(s); }
  }

  lemma ConfigureStep(s: State, o: Outcome, nics: Option<seq<string>>)
    requires Working(s, MConfigure)
    ensures WorkerOk(s, MachineStep(s, o, nics).mw)
  {
    if MachineStep(s, o, nics).mw.pc.MPower? { Goto(s, MPower); } else { Stop(s); }
  }

  lemma ReadyStep(s: State)
    requires Working(s, MReady)
    ensures WorkerOk(s, s.mw.(rec := s.mw.rec.(ready := true), pc := MPatch))
  {
  }

  lemma ReleaseStep(s: State)
    requires Working(s, XRelease)
    ensures WorkerOk(s, s.mw.(rec := s.mw.rec.(finalizer := false), pc := MPatch))
  {
  }

  /** The by-name lookup in the recorded vApp is truthful about the machine's VM. */
  lemma LookupIsTruthful(s: State)
    requires Context(s) && !s.mw.pc.MPatch? && ReadCluster(s.mw.pc) && s.mw.refs.vapp.Some?
    ensures var hit := FindVm(s.cloud, s.cloud.next, s.mw.refs.vapp.value, s.mw.m.name);
            if hit.Some? then VmOf(s.conf, s.cloud, s.mw.m, hit.value) else NoVm(s.conf, s.cloud, s.mw.m)
  {
    ReadRefExists(s, VAppKind);
    var hit := FindVm(s.cloud, s.cloud.next, s.mw.refs.vapp.value, s.mw.m.name);
    forall i | VmOf(s.conf, s.cloud, s.mw.m, i) ensures IsVm(s.cloud.objs[i], s.mw.refs.vapp.value, s.mw.m.name) {
      assert Named(s.conf, s.cloud, s.mw.m.cluster, VAppKind, s.cloud.objs[i].vapp);
    }
  }

  lemma FoundVm(s: State, hit: Option<Id>, missing: MPc)
    requires Shape(s) && s.mw.MBusy? && WorkerOk(s, s.mw)
    requires (s.mw.pc.MVmLook? && missing.MTemplate?) || (s.mw.pc.MVmAgain? && missing.MPatch?)
    requires if hit.Some? then VmOf(s.conf, s.cloud, s.mw.m, hit.value) else NoVm(s.conf, s.cloud, s.mw.m)
    ensures WorkerOk(s, if hit.Some? then s.mw.(vm := hit.value, pc := MConfigure) else s.mw.(pc := missing))
  {
  }

  lemma FoundVmToDrop(s: State, hit: Option<Id>)
    requires Working(s, XVm)
    requires if hit.Some? then VmOf(s.conf, s.cloud, s.mw.m, hit.value) else NoVm(s.conf, s.cloud, s.mw.m)
    ensures WorkerOk(s, if hit.Some? then s.mw.(vm := hit.value, pc := XDrop) else s.mw.(pc := XRelease))
  {
  }

  lemma GroupRead(s: State, o: Outcome)
    requires Shape(s) && s.mw.MBusy? && WorkerOk(s, s.mw) && (s.mw.pc.MGroup? || s.mw.pc.XGroup?)
    requires !StepGroup(s, o).mw.pc.MPatch?
    requires Named(s.conf, s.cloud, s.mw.m.cluster, IpSetKind, s.mw.refs.ipset.value)
    ensures WorkerOk(s, StepGroup(s, o).mw)
  {
  }

  lemma VmLookStep(s: State, o: Outcome, missing: MPc)
    requires Context(s) && ((s.mw.pc.MVmLook? && missing.MTemplate?) || (s.mw.pc.MVmAgain? && missing.MPatch?))
    ensures WorkerOk(s, StepVmLook(s, o, missing).mw)
  {
    if s.mw.refs.vapp.Some? && o.Good? {
      LookupIsTruthful(s);
      FoundVm(s, FindVm(s.cloud, s.cloud.next, s.mw.refs.vapp.value, s.mw.m.name), missing);
    } else {
      Stop(s);
    }
  }

  lemma XVmStep(s: State, o: Outcome)
    requires Context(s) && s.mw.pc.XVm?
    ensures WorkerOk(s, StepXVm(s, o).mw)
  {
    if o.Good? {
      LookupIsTruthful(s);
      FoundVmToDrop(s, FindVm(s.cloud, s.cloud.next, s.mw.refs.vapp.value, s.mw.m.name));
    } else {
      Stop(s);
    }
  }

  lemma GroupStep(s: State, o: Outcome)
    requires Context(s) && (s.mw.pc.MGroup? || s.mw.pc.XGroup?)
    ensures WorkerOk(s, StepGroup(s, o).mw)
  {
    if StepGroup(s, o).mw.pc.MPatch? {
      Stop(s);
    } else {
      ReadRefExists(s, IpSetKind);
      GroupRead(s, o);
    }
  }

  // ----- adding the VM -----

  lemma ClustersAfterVm(s: State, d: Cloud)
    requires ClustersOk(s.conf, s.cloud, s.clusters, s.owners, s.cw)
    requires forall k, kind, i :: Named(s.conf, d, k, kind, i) <==> Named(s.conf, s.cloud, k, kind, i)
    requires forall k, kind, i | Named(s.conf, s.cloud, k, kind, i) :: i in d.objs && d.objs[i] == s.cloud.objs[i]
    requires s.cloud.next <= d.next && forall i | i in d.objs && i < s.cloud.next :: i in s.cloud.objs
    ensures ClustersOk(s.conf, d, s.clusters, s.owners, s.cw)
  {
    forall k | k in s.clusters
      ensures ClusterOk(s.conf, d, k, s.clusters[k], Kept(s.clusters, s.owners, s.cw, k))
    {
      var kept := Kept(s.clusters, s.owners, s.cw, k);
      assert ClusterOk(s.conf, s.cloud, k, s.clusters[k], kept);
      forall kind ensures RefOk(s.conf, d, k, kind, At(s.clusters[k].refs, kind), kept) {
        assert RefOk(s.conf, s.cloud, k, kind, At(s.clusters[k].refs, kind), kept);
      }
      assert forall kind | Absent(s.conf, s.cloud, k, kind) :: Absent(s.conf, d, k, kind);
    }
  }

  lemma ClusterWorkerAfterVm(conf: Conf, c: Cloud, d: Cloud, st: ClusterRec, owners: set<MKey>, w: CWorker, kept: bool)
    requires w.CBusy? && CBusyOk(conf, c, st, owners, w, kept)
    requires forall k, kind, i :: Named(conf, d, k, kind, i) <==> Named(conf, c, k, kind, i)
    requires c.next <= d.next && forall i | i in d.objs && i < c.next :: i in c.objs
    ensures CBusyOk(conf, d, st, owners, w, kept)
  {
    assert forall kind | Absent(conf, c, w.k, kind) :: Absent(conf, d, w.k, kind);
    if w.pc.CPatch? {
      forall kind ensures RefOk(conf, d, w.k, kind, At(w.rec.refs, kind), kept) {
        assert RefOk(conf, c, w.k, kind, At(w.rec.refs, kind), kept);
      }
    }
  }

  /** The cluster side does not notice a change that leaves every cluster-owned object as it is. */
  lemma ClusterSideAfterVm(s: State, d: Cloud)
    requires Shape(s)
    requires ClustersOk(s.conf, s.cloud, s.clusters, s.owners, s.cw)
    requires CWorkerOk(s.conf, s.cloud, s.clusters, s.owners, s.cw)
    requires forall k, kind, i :: Named(s.conf, d, k, kind, i) <==> Named(s.conf, s.cloud, k, kind, i)
    requires forall k, kind, i | Named(s.conf, s.cloud, k, kind, i) :: i in d.objs && d.objs[i] == s.cloud.objs[i]
    requires s.cloud.next <= d.next && forall i | i in d.objs && i < s.cloud.next :: i in s.cloud.objs
    ensures ClustersOk(s.conf, d, s.clusters, s.owners, s.cw)
    ensures CWorkerOk(s.conf, d, s.clusters, s.owners, s.cw)
  {
    ClustersAfterVm(s, d);
    if s.cw.CBusy? {
      ClusterWorkerAfterVm(s.conf, s.cloud, d, s.clusters[s.cw.k], s.owners, s.cw,
                           Kept(s.clusters, s.owners, s.cw, s.cw.k));
    }
  }

  ghost predicate VmAdded(s: State, d: Cloud)
    requires s.mw.MBusy?
  {
    && CloudOk(s.conf, d)
    && d.next == s.cloud.next + 1
    && (forall i | i in s.cloud.objs :: i in d.objs && d.objs[i] == s.cloud.objs[i])
    && (forall i | i in d.objs && i < s.cloud.next :: i in s.cloud.objs)
    && (forall k, kind, i :: Named(s.conf, d, k, kind, i) <==> Named(s.conf, s.cloud, k, kind, i))
    && (forall m, i :: VmOf(s.conf, d, m, i) <==> VmOf(s.conf, s.cloud, m, i) || (m == s.mw.m && i == s.cloud.next))
  }

  lemma AddCreates(s: State, o: Outcome, nics: Option<seq<string>>)
    requires Context(s) && s.mw.pc.MVmAdd? && Applied(o)
    ensures VmAdded(s, StepVmAdd(s, o, nics).cloud)
  {
    ReadRefExists(s, VAppKind);
    CreateVm(s.conf, s.cloud, s.mw.m, Vm(s.mw.m.name, s.mw.refs.vapp.value, nics, false));
  }

  lemma MachinesAfterAdd(s: State, d: Cloud)
    requires Working(s, MVmAdd) && VmAdded(s, d)
    requires MachinesOk(s.conf, s.cloud, s.infra, s.owners, s.machines)
    ensures MachinesOk(s.conf, d, s.infra, s.owners, s.machines)
  {
    forall m | m in s.machines ensures MachineOk(s.conf, d, s.infra, s.owners, m, s.machines[m]) {
      assert MachineOk(s.conf, s.cloud, s.infra, s.owners, m, s.machines[m]);
    }
  }

  lemma WorkerAfterAdd(s: State, d: Cloud, pc: MPc)
    requires Working(s, MVmAdd) && VmAdded(s, d) && (pc.MVmAgain? || pc.MPatch?)
    ensures WorkerOk(s.(cloud := d), s.mw.(pc := pc))
  {
  }

  lemma VmAddApplied(s: State, o: Outcome, nics: Option<seq<string>>)
    requires Inv(s) && s.mw.MBusy? && s.mw.pc.MVmAdd? && Applied(o)
    ensures Inv(StepVmAdd(s, o, nics))
  {
    var t := StepVmAdd(s, o, nics);
    ContextHolds(s);
    AddCreates(s, o, nics);
    ClusterSideAfterVm(s, t.cloud);
    MachinesAfterAdd(s, t.cloud);
    WorkerAfterAdd(s, t.cloud, t.mw.pc);
    Assemble(s, t.cloud, t.mw);
  }

  lemma VmAddDoesNothing(s: State, o: Outcome, nics: Option<seq<string>>)
    requires s.mw.MBusy? && !Applied(o)
    ensures StepVmAdd(s, o, nics) == s.(mw := s.mw.(pc := if o.Dropped? then MVmAgain else MPatch))
  {
  }

  lemma VmAddDropped(s: State)
    requires Inv(s) && s.mw.MBusy? && s.mw.pc.MVmAdd?
    ensures Inv(s.(mw := s.mw.(pc := MVmAgain)))
  {
    AgainIsOk(s);
    MoveWorker(s, s.mw.(pc := MVmAgain));
  }

  lemma AgainIsOk(s: State)
    requires Working(s, MVmAdd)
    ensures WorkerOk(s, s.mw.(pc := MVmAgain))
  {
    Goto(s, MVmAgain);
  }

  lemma VmAddRefused(s: State, o: Outcome, nics: Option<seq<string>>)
    requires Inv(s) && s.mw.MBusy? && s.mw.pc.MVmAdd? && !Applied(o)
    ensures Inv(StepVmAdd(s, o, nics))
  {
    VmAddDoesNothing(s, o, nics);
    if o.Dropped? {
      VmAddDropped(s);
    } else {
      StopKeeps(s);
    }
  }

  // ----- powering the VM on -----

  ghost predicate PoweredOn(conf: Conf, c: Cloud, d: Cloud, vm: Id) {
    && CloudOk(conf, d) && SameOwnership(conf, c, d)
    && d.next == c.next && d.objs.Keys == c.objs.Keys
    && vm in c.objs && c.objs[vm].Vm? && d.objs[vm] == c.objs[vm].(on := true)
    && (forall i | i in c.objs && i != vm :: d.objs[i] == c.objs[i])
  }

  lemma MachinesAfterPower(s: State, d: Cloud, vm: Id)
    requires MachinesOk(s.conf, s.cloud, s.infra, s.owners, s.machines) && PoweredOn(s.conf, s.cloud, d, vm)
    ensures MachinesOk(s.conf, d, s.infra, s.owners, s.machines)
  {
    forall m | m in s.machines ensures MachineOk(s.conf, d, s.infra, s.owners, m, s.machines[m]) {
      assert MachineOk(s.conf, s.cloud, s.infra, s.owners, m, s.machines[m]);
    }
  }

  lemma WorkerAfterPower(s: State, d: Cloud, o: Outcome)
    requires Working(s, MPower) && Applied(o) && PoweredOn(s.conf, s.cloud, d, s.mw.vm)
    requires MachineOk(s.conf, s.cloud, s.infra, s.owners, s.mw.m, s.machines[s.mw.m])
    ensures WorkerOk(s.(cloud := d), StepPower(s, o).mw)
  {
    if o.Good? {
      RecordedAfterPower(s, d);
    } else {
      UnrecordedAfterPower(s, d);
    }
  }

  lemma RecordedAfterPower(s: State, d: Cloud)
    requires Working(s, MPower) && PoweredOn(s.conf, s.cloud, d, s.mw.vm)
    requires MachineOk(s.conf, s.cloud, s.infra, s.owners, s.mw.m, s.machines[s.mw.m])
    ensures WorkerOk(s.(cloud := d), StepPower(s, Good).mw)
  {
  }

  lemma UnrecordedAfterPower(s: State, d: Cloud)
    requires Working(s, MPower) && PoweredOn(s.conf, s.cloud, d, s.mw.vm)
    ensures WorkerOk(s.(cloud := d), s.mw.(pc := MPatch))
  {
  }

  lemma PowerSwitches(s: State, o: Outcome)
    requires Working(s, MPower) && Applied(o) && CloudOk(s.conf, s.cloud)
    ensures PoweredOn(s.conf, s.cloud, StepPower(s, o).cloud, s.mw.vm)
  {
    UpdateOwned(s.conf, s.cloud, s.mw.vm, s.cloud.objs[s.mw.vm].(on := true));
  }

  lemma PowerKeeps(s: State, d: Cloud, w: MWorker)
    requires Inv(s) && s.mw.MBusy? && PoweredOn(s.conf, s.cloud, d, s.mw.vm) && WorkerOk(s.(cloud := d), w)
    ensures Inv(s.(cloud := d, mw := w))
  {
    PowerKeepsClusters(s, d);
    MachinesAfterPower(s, d, s.mw.vm);
    Assemble(s, d, w);
  }

  lemma PowerKeepsClusters(s: State, d: Cloud)
    requires Shape(s) && s.mw.MBusy? && PoweredOn(s.conf, s.cloud, d, s.mw.vm)
    requires ClustersOk(s.conf, s.cloud, s.clusters, s.owners, s.cw)
    requires CWorkerOk(s.conf, s.cloud, s.clusters, s.owners, s.cw)
    ensures ClustersOk(s.conf, d, s.clusters, s.owners, s.cw)
    ensures CWorkerOk(s.conf, d, s.clusters, s.owners, s.cw)
  {
    ClusterSideAfterVm(s, d);
  }

  lemma PowerApplied(s: State, o: Outcome)
    requires Inv(s) && s.mw.MBusy? && s.mw.pc.MPower? && Applied(o)
    ensures Inv(StepPower(s, o))
  {
    PowerSwitches(s, o);
    WorkerAfterPower(s, StepPower(s, o).cloud, o);
    PowerKeeps(s, StepPower(s, o).cloud, StepPower(s, o).mw);
  }

  // ----- joining and leaving the IP set -----

  lemma WorkerAfterWrite(s: State, d: Cloud, pc: MPc)
    requires Shape(s) && s.mw.MBusy? && WorkerOk(s, s.mw) && SameVms(s.conf, s.cloud, d)
    requires s.mw.pc.MJoin? || s.mw.pc.XLeave?
    requires pc.MPatch? || (s.mw.pc.MJoin? && pc.MReady?) || (s.mw.pc.XLeave? && pc.XVApp?)
    ensures WorkerOk(s.(cloud := d), s.mw.(pc := pc))
  {
    assert NoVm(s.conf, d, s.mw.m) ==> NoVm(s.conf, s.cloud, s.mw.m);
  }

  ghost predicate IpsChanged(conf: Conf, c: Cloud, d: Cloud, id: Id) {
    && CloudOk(conf, d) && SameOwnership(conf, c, d)
    && d.next == c.next && d.objs.Keys == c.objs.Keys
    && id in c.objs && c.objs[id].Group?
    && (forall i | i in c.objs && i != id :: d.objs[i] == c.objs[i])
  }

  lemma WriteChanges(conf: Conf, c: Cloud, id: Id, ips: seq<string>)
    requires CloudOk(conf, c) && id in c.objs && c.objs[id].Group?
    ensures IpsChanged(conf, c, WriteIps(c, id, ips), id)
  {
    UpdateOwned(conf, c, id, c.objs[id].(ips := ips));
  }

  lemma IpsChange(s: State, d: Cloud, id: Id)
    requires Shape(s) && IpsChanged(s.conf, s.cloud, d, id)
    requires ClustersOk(s.conf, s.cloud, s.clusters, s.owners, s.cw)
    requires CWorkerOk(s.conf, s.cloud, s.clusters, s.owners, s.cw)
    requires MachinesOk(s.conf, s.cloud, s.infra, s.owners, s.machines)
    ensures ClustersOk(s.conf, d, s.clusters, s.owners, s.cw)
    ensures CWorkerOk(s.conf, d, s.clusters, s.owners, s.cw)
    ensures SameVms(s.conf, s.cloud, d)
    ensures MachinesOk(s.conf, d, s.infra, s.owners, s.machines)
  {
    CS.ClustersAfterUpdate(s.conf, s.cloud, d, s.clusters, s.owners, s.cw);
    if s.cw.CBusy? {
      ClusterWorkerAfterVm(s.conf, s.cloud, d, s.clusters[s.cw.k], s.owners, s.cw,
                           Kept(s.clusters, s.owners, s.cw, s.cw.k));
    }
    MachinesFrame(s.conf, s.cloud, d, s.infra, s.owners, s.machines);
  }

  lemma WriteKeeps(s: State, d: Cloud, pc: MPc)
    requires Inv(s) && s.mw.MBusy? && s.mw.refs.ipset.Some? && IpsChanged(s.conf, s.cloud, d, s.mw.refs.ipset.value)
    requires s.mw.pc.MJoin? || s.mw.pc.XLeave?
    requires pc.MPatch? || (s.mw.pc.MJoin? && pc.MReady?) || (s.mw.pc.XLeave? && pc.XVApp?)
    ensures Inv(s.(cloud := d, mw := s.mw.(pc := pc)))
  {
    IpsChange(s, d, s.mw.refs.ipset.value);
    WorkerAfterWrite(s, d, pc);
    Assemble(s, d, s.mw.(pc := pc));
  }

  lemma ReadGroupExists(s: State)
    requires Shape(s) && s.mw.MBusy? && WorkerOk(s, s.mw) && (s.mw.pc.MJoin? || s.mw.pc.XLeave?)
    ensures s.mw.refs.ipset.Some? && s.mw.refs.ipset.value in s.cloud.objs
    ensures s.cloud.objs[s.mw.refs.ipset.value].Group?
    ensures s.cloud.objs[s.mw.refs.ipset.value].ips == s.mw.ips
  {
  }

  lemma WriteApplied(s: State, o: Outcome, done: MPc)
    requires Inv(s) && s.mw.MBusy? && Applied(o)
    requires (s.mw.pc.MJoin? && done.MReady?) || (s.mw.pc.XLeave? && done.XVApp?)
    ensures Inv(StepWriteGroup(s, o, done))
  {
    ReadGroupExists(s);
    var id := s.mw.refs.ipset.value;
    var d := WriteIps(s.cloud, id, NewIps(s.mw));
    var pc := if o.Good? then done else MPatch;
    assert StepWriteGroup(s, o, done) == s.(cloud := d, mw := s.mw.(pc := pc));
    assert Inv(s.(cloud := d, mw := s.mw.(pc := pc))) by {
      WriteChanges(s.conf, s.cloud, id, NewIps(s.mw));
      WriteKeeps(s, d, pc);
    }
  }

  // ----- deleting the VM -----

  ghost predicate VmGone(conf: Conf, c: Cloud, d: Cloud, vm: Id) {
    && CloudOk(conf, d)
    && d.next == c.next
    && d.objs.Keys == c.objs.Keys - {vm}
    && (forall i | i in d.objs :: d.objs[i] == c.objs[i])
    && (forall k, kind, i :: Named(conf, d, k, kind, i) <==> Named(conf, c, k, kind, i))
    && (forall m, i :: VmOf(conf, d, m, i) <==> VmOf(conf, c, m, i) && i != vm)
  }

  lemma VmOfOne(conf: Conf, c: Cloud, m: MKey, m': MKey, i: Id)
    requires DistinctNames(conf) && VmOf(conf, c, m, i) && VmOf(conf, c, m', i)
    ensures m == m'
  {
    CS.OwnedByOne(conf, c, m.cluster, VAppKind, m'.cluster, VAppKind, c.objs[i].vapp);
  }

  lemma MachinesAfterDelete(s: State, d: Cloud)
    requires Working(s, XDrop) && VmGone(s.conf, s.cloud, d, s.mw.vm) && DistinctNames(s.conf)
    requires MachinesOk(s.conf, s.cloud, s.infra, s.owners, s.machines)
    ensures MachinesOk(s.conf, d, s.infra, s.owners, s.machines)
  {
    forall m | m in s.machines ensures MachineOk(s.conf, d, s.infra, s.owners, m, s.machines[m]) {
      assert MachineOk(s.conf, s.cloud, s.infra, s.owners, m, s.machines[m]);
      if VmOf(s.conf, s.cloud, m, s.mw.vm) { VmOfOne(s.conf, s.cloud, m, s.mw.m, s.mw.vm); }
    }
  }

  lemma WorkerAfterDelete(s: State, d: Cloud, pc: MPc)
    requires Working(s, XDrop) && VmGone(s.conf, s.cloud, d, s.mw.vm) && (pc.XRelease? || pc.MPatch?)
    requires MachineOk(s.conf, s.cloud, s.infra, s.owners, s.mw.m, s.machines[s.mw.m])
    ensures WorkerOk(s.(cloud := d), s.mw.(pc := pc))
  {
    assert NoVm(s.conf, d, s.mw.m);
  }

  lemma VmDropped(s: State)
    requires Working(s, XDrop) && CloudOk(s.conf, s.cloud)
    ensures VmGone(s.conf, s.cloud, Drop(s.cloud, s.mw.vm), s.mw.vm)
  {
    DropVm(s.conf, s.cloud, s.mw.m, s.mw.vm);
    assert Drop(s.cloud, s.mw.vm).objs.Keys == s.cloud.objs.Keys - {s.mw.vm};
  }

  lemma DropApplied(s: State, o: Outcome)
    requires Inv(s) && s.mw.MBusy? && s.mw.pc.XDrop? && Applied(o)
    ensures Inv(StepVmDrop(s, o))
  {
    var t := StepVmDrop(s, o);
    VmDropped(s);
    ClusterSideAfterVm(s, t.cloud);
    MachinesAfterDelete(s, t.cloud);
    WorkerAfterDelete(s, t.cloud, t.mw.pc);
    Assemble(s, t.cloud, t.mw);
  }

  // ----- beginning, patching -----

  lemma BeginOk(conf: Conf, c: Cloud, refs: Refs, infra: set<CKey>, owners: set<MKey>, w: MWorker)
    requires w.MBusy? && w.pc.MFinalizer? && MachineOk(conf, c, infra, owners, w.m, w.rec) && !w.rec.Gone()
    requires w.infra == (w.m.cluster in infra)
    ensures MBusyOk(conf, c, refs, infra, w.rec, w)
  {
  }

  lemma BeginStep(s: State, m: MKey)
    requires Inv(s) && s.mw.MIdle? && m in s.owners && !s.machines[m].Gone()
    ensures Inv(MachineBegun(s, m))
  {
    var w := MachineBegun(s, m).mw;
    BeginOk(s.conf, s.cloud, s.clusters[m.cluster].refs, s.infra, s.owners, w);
    MoveWorker(s, w);
  }

  lemma CommitStep(s: State)
    requires Inv(s) && s.mw.MBusy? && s.mw.pc.MPatch?
    ensures Inv(s.(machines := s.machines[s.mw.m := CommitMachine(s.machines[s.mw.m], s.mw.rec)], mw := MIdle))
  {
    var machines := s.machines[s.mw.m := CommitMachine(s.machines[s.mw.m], s.mw.rec)];
    forall m | m in machines ensures MachineOk(s.conf, s.cloud, s.infra, s.owners, m, machines[m]) {
      assert MachineOk(s.conf, s.cloud, s.infra, s.owners, m, s.machines[m]);
    }
  }

  lemma QuietStep(s: State, o: Outcome, nics: Option<seq<string>>)
    requires Context(s) && !MachineChangesCloud(s.mw.pc) && !s.mw.pc.MPatch?
    ensures WorkerOk(s, MachineStep(s, o, nics).mw)
  {
    if MTeardown(s.mw.pc) { QuietTeardown(s, o, nics); } else { QuietCreate(s, o, nics); }
  }

  lemma QuietCreate(s: State, o: Outcome, nics: Option<seq<string>>)
    requires Context(s) && !MachineChangesCloud(s.mw.pc) && !MTeardown(s.mw.pc) && !s.mw.pc.MPatch?
    ensures WorkerOk(s, MachineStep(s, o, nics).mw)
  {
    match s.mw.pc
    case MFinalizer => FinalizerStep(s, o, nics);
    case MGates => GatesStep(s, o, nics);
    case MCluster => ReadClusterStep(s, o, if s.conf[s.mw.m.cluster].identity then MConnect else MPatch);
    case MConnect => ConnectStep(s, o, nics);
    case MVApp => VAppStep(s, o);
    case MCatalog => CatalogStep(s, o, nics);
    case MVmLook => VmLookStep(s, o, MTemplate);
    case MTemplate => TemplateStep(s, o, nics);
    case MVmAgain => VmLookStep(s, o, MPatch);
    case MConfigure => ConfigureStep(s, o, nics);
    case MGroup => GroupStep(s, o);
    case _ => ReadyStep(s);
  }

  lemma QuietTeardown(s: State, o: Outcome, nics: Option<seq<string>>)
    requires Context(s) && !MachineChangesCloud(s.mw.pc) && MTeardown(s.mw.pc)
    ensures WorkerOk(s, MachineStep(s, o, nics).mw)
  {
    match s.mw.pc
    case XCluster => ReadClusterStep(s, o, XConnect);
    case XConnect => XConnectStep(s, o, nics);
    case XGroup => GroupStep(s, o);
    case XVApp => XVAppStep(s, o, nics);
    case XVm => XVmStep(s, o);
    case _ => ReleaseStep(s);
  }

  lemma QuietMoves(s: State, o: Outcome, nics: Option<seq<string>>)
    requires Shape(s) && s.mw.MBusy? && !MachineChangesCloud(s.mw.pc) && !s.mw.pc.MPatch?
    ensures MachineStep(s, o, nics) == s.(mw := MachineStep(s, o, nics).mw)
  {
  }

  lemma QuietKeeps(s: State, o: Outcome, nics: Option<seq<string>>)
    requires Inv(s) && s.mw.MBusy? && !MachineChangesCloud(s.mw.pc) && !s.mw.pc.MPatch?
    ensures Inv(MachineStep(s, o, nics))
  {
    assert Context(s);
    QuietMoves(s, o, nics);
    QuietStep(s, o, nics);
    MoveWorker(s, MachineStep(s, o, nics).mw);
  }

  /** What follows a call that only asks. */
  function AfterAsking(pc: MPc): MPc {
    match pc
    case MGates => MCluster
    case MConnect => MVApp
    case MCatalog => MVmLook
    case MTemplate => MVmAdd
    case _ => MPatch
  }

  lemma PlainSteps(s: State, o: Outcome, nics: Option<seq<string>>)
    requires Shape(s) && s.mw.MBusy?
    ensures s.mw.pc.MGates? || s.mw.pc.MConnect? || s.mw.pc.MCatalog? || s.mw.pc.MTemplate? ==>
              MachineStep(s, o, nics) == MGoto(s, if o.Good? then AfterAsking(s.mw.pc) else MPatch)
    ensures s.mw.pc.MCluster? ==>
              MachineStep(s, o, nics)
              == StepReadCluster(s, o, if s.conf[s.mw.m.cluster].identity then MConnect else MPatch)
    ensures s.mw.pc.MVApp? ==> MachineStep(s, o, nics) == StepVApp(s, o)
    ensures s.mw.pc.MVmLook? ==> MachineStep(s, o, nics) == StepVmLook(s, o, MTemplate)
    ensures s.mw.pc.MVmAgain? ==> MachineStep(s, o, nics) == StepVmLook(s, o, MPatch)
    ensures s.mw.pc.MConfigure? ==>
              MachineStep(s, o, nics) == MGoto(s, if o.Good? && Configurable(s.cloud, s.mw.vm) then MPower else MPatch)
    ensures s.mw.pc.MGroup? ==> MachineStep(s, o, nics) == StepGroup(s, o)
    ensures s.mw.pc.MReady? ==>
              MachineStep(s, o, nics) == s.(mw := s.mw.(rec := s.mw.rec.(ready := true), pc := MPatch))
  {
  }

  lemma PlainTeardownSteps(s: State, o: Outcome, nics: Option<seq<string>>)
    requires Shape(s) && s.mw.MBusy?
    ensures s.mw.pc.XCluster? ==> MachineStep(s, o, nics) == StepReadCluster(s, o, XConnect)
    ensures s.mw.pc.XConnect? ==>
              MachineStep(s, o, nics)
              == MGoto(s, if !o.Good? || !s.conf[s.mw.m.cluster].identity then MPatch
                          else if s.mw.rec.controlPlane && LastInternal(s.mw.rec.addresses) != "" then XGroup
                          else XVApp)
    ensures s.mw.pc.XGroup? ==> MachineStep(s, o, nics) == StepGroup(s, o)
    ensures s.mw.pc.XVApp? ==>
              MachineStep(s, o, nics)
              == MGoto(s, if s.mw.refs.vapp.None? then XRelease
                          else if o.Good? && s.mw.refs.vapp.value in s.cloud.objs then XVm else MPatch)
    ensures s.mw.pc.XVm? ==> MachineStep(s, o, nics) == StepXVm(s, o)
    ensures s.mw.pc.XRelease? ==>
              MachineStep(s, o, nics) == s.(mw := s.mw.(rec := s.mw.rec.(finalizer := false), pc := MPatch))
  {
  }

  lemma StepByPc(s: State, o: Outcome, nics: Option<seq<string>>)
    requires Shape(s) && s.mw.MBusy?
    ensures s.mw.pc.MVmAdd? ==> MachineStep(s, o, nics) == StepVmAdd(s, o, nics)
    ensures s.mw.pc.MPower? ==> MachineStep(s, o, nics) == StepPower(s, o)
    ensures s.mw.pc.MJoin? ==> MachineStep(s, o, nics) == StepWriteGroup(s, o, MReady)
    ensures s.mw.pc.XLeave? ==> MachineStep(s, o, nics) == StepWriteGroup(s, o, XVApp)
    ensures s.mw.pc.XDrop? ==> MachineStep(s, o, nics) == StepVmDrop(s, o)
    ensures s.mw.pc.MPatch? ==> MachineStep(s, o, nics) == if Applied(o) then Committed(s) else s.(mw := MIdle)
  {
  }

  ghost function Committed(s: State): State
    requires Shape(s) && s.mw.MBusy?
  {
    s.(machines := s.machines[s.mw.m := CommitMachine(s.machines[s.mw.m], s.mw.rec)], mw := MIdle)
  }

  /** A refused write leaves the cloud alone and stops the pass. */
  lemma Refused(s: State, o: Outcome, nics: Option<seq<string>>)
    requires Shape(s) && s.mw.MBusy? && WorkerOk(s, s.mw) && !Applied(o)
    requires s.mw.pc.MPower? || s.mw.pc.MJoin? || s.mw.pc.XLeave? || s.mw.pc.XDrop?
    ensures MachineStep(s, o, nics) == s.(mw := s.mw.(pc := MPatch)) && s.mw.rec.finalizer
  {
  }

  lemma RefusedKeeps(s: State, o: Outcome, nics: Option<seq<string>>)
    requires Inv(s) && s.mw.MBusy? && !Applied(o)
    requires MachineChangesCloud(s.mw.pc) || s.mw.pc.MPatch?
    ensures Inv(MachineStep(s, o, nics))
  {
    StepByPc(s, o, nics);
    if s.mw.pc.MVmAdd? {
      VmAddRefused(s, o, nics);
    } else if s.mw.pc.MPatch? {
      MoveWorker(s, MIdle);
    } else {
      Refused(s, o, nics);
      StopKeeps(s);
    }
  }

  /** Each step of the machine reconciler, whatever its outcome, keeps the invariant. */
  lemma MachineStepKeeps(s: State, o: Outcome, nics: Option<seq<string>>)
    requires Inv(s) && s.mw.MBusy?
    ensures Inv(MachineStep(s, o, nics))
  {
    if !MachineChangesCloud(s.mw.pc) && !s.mw.pc.MPatch? {
      QuietKeeps(s, o, nics);
    } else if !Applied(o) {
      RefusedKeeps(s, o, nics);
    } else {
      AppliedKeeps(s, o, nics);
    }
  }

  lemma AppliedKeeps(s: State, o: Outcome, nics: Option<seq<string>>)
    requires Inv(s) && s.mw.MBusy? && Applied(o) && (MachineChangesCloud(s.mw.pc) || s.mw.pc.MPatch?)
    ensures Inv(MachineStep(s, o, nics))
  {
    StepByPc(s, o, nics);
    match s.mw.pc
    case MVmAdd => VmAddApplied(s, o, nics);
    case MPower => PowerApplied(s, o);
    case MJoin => WriteApplied(s, o, MReady);
    case XLeave => WriteApplied(s, o, XVApp);
    case XDrop => DropApplied(s, o);
    case MPatch => CommitStep(s);
  }
}
