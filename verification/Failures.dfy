/** What an error of a call does to the pass that made it. */
module Failures {
  import opened Options
  import opened Clouds
  import opened Protocol
  import opened Invariant
  import opened AllRuns
  import CS = ClusterSteps
  import MS = MachineSteps

  // ----- the cluster reconciler -----

  /** The pass is at a point where it asks the cloud or the API server for something. */
  predicate ClusterCalls(w: CWorker)
    requires w.CBusy?
  {
    match w.pc
    case CFinalizer => false
    case CEndpoint => w.rec.endpoint.host == ""
    case CRecord => false
    case DLook(kind) => At(w.rec.refs, kind).Some?
    case DRelease => false
    case CPatch => false
    case _ => true
  }

  /**
    An error ends the pass with nothing in its copy changed, but for three calls: an error of the IP set's or the pool's
    lookup goes on with the next lookup, and one from waiting for the vApp's power-on goes on to recording. Only an
    error that hides an effect leaves a trace in the cloud.
  */
  lemma ClusterErrorEndsPass(s: State, o: Outcome, addr: string)
    requires Shape(s) && s.cw.CBusy? && ClusterCalls(s.cw) && !o.Good?
    ensures ClusterStep(s, o, addr).cw
            == s.cw.(pc := if s.cw.pc == CLook(IpSetKind) then CLook(PoolKind)
                           else if s.cw.pc == CLook(PoolKind) then CLook(ServiceKind)
                           else if s.cw.pc == CPower && o == Dropped then CRecord
                           else CPatch)
    ensures ClusterStep(s, o, addr).clusters == s.clusters
    ensures o != BadApplied ==> ClusterStep(s, o, addr).cloud == s.cloud
  {
    if ClusterChangesCloud(s.cw.pc) {
      CS.StepByPc(s, o, addr);
    } else if !s.cw.pc.CEndpoint? {
      CS.PlainSteps(s, o, addr);
    }
  }

  /** Nothing is created, connected, recorded or deleted before the call that prepares it has succeeded. */
  lemma ClusterCallsInOrder(s: State, o: Outcome, addr: string)
    requires Shape(s) && s.cw.CBusy? && ClusterStep(s, o, addr).cw.CBusy?
    ensures var from := s.cw.pc;
            var to := ClusterStep(s, o, addr).cw.pc;
            var conf := s.conf[s.cw.k];
            && (to == CConnect ==> from == CFinalizer && s.cw.rec.finalizer && !s.cw.rec.deleting && conf.identity)
            && (to == CEndpoint ==> from == CConnect && o == Good)
            && (to == CLook(IpSetKind) ==>
                  from == CEndpoint && s.cw.rec.endpoint.host != "" && conf.owner && conf.controlPlaneRef)
            && (to == CMake(IpSetKind) ==> from == CLook(IpSetKind) && o == Good)
            && (to == CMake(PoolKind) ==> from == CLook(PoolKind) && o == Good)
            && (to == CEngine ==> from == CLook(ServiceKind) && o == Good)
            && (to == CMake(ServiceKind) ==> from == CEngine && o == Good)
            && (to == CMake(VAppKind) ==> from == CLook(VAppKind) && o == Good)
            && (to == CNetwork ==> from == CMake(VAppKind) && o == Good)
            && (to == CAttach ==> from == CNetwork && o == Good)
            && (to == CPower ==> from == CAttach && o == Good)
            && (to == CRecord ==>
                  (from == CPower && (o == Good || o == Dropped)) || (from == CLook(VAppKind) && o == Good))
            && (to == DMachines ==> from == CFinalizer && s.cw.rec.deleting)
            && (to == DConnect ==> from == DMachines && o == Good && conf.owner && NoOwner(s.owners, s.cw.k))
            && (to == DLook(ServiceKind) ==> from == DConnect && o == Good && conf.identity)
            && (to.DDrop? ==> from == DLook(to.kind) && o == Good)
            && (to == DRelease ==> (from == DDrop(VAppKind) && o == Good) || from == DLook(VAppKind))
  {
    if ClusterChangesCloud(s.cw.pc) || s.cw.pc.CPatch? {
      ClusterWritesInOrder(s, o, addr);
    } else if !s.cw.pc.CFinalizer? && !s.cw.pc.CEndpoint? {
      CS.PlainSteps(s, o, addr);
    }
  }

  lemma ClusterWritesInOrder(s: State, o: Outcome, addr: string)
    requires Shape(s) && s.cw.CBusy? && ClusterStep(s, o, addr).cw.CBusy?
    requires ClusterChangesCloud(s.cw.pc) || s.cw.pc.CPatch?
    ensures var from := s.cw.pc;
            var to := ClusterStep(s, o, addr).cw.pc;
            || to == CPatch
            || (o == Good && from == CMake(IpSetKind) && to == CLook(PoolKind))
            || (o == Good && from == CMake(PoolKind) && to == CLook(ServiceKind))
            || (o == Good && from == CMake(ServiceKind) && to == CLook(VAppKind))
            || (o == Good && from == CMake(VAppKind) && to == CNetwork)
            || (o == Good && from == CAttach && to == CPower)
            || (o == Good && from == DDrop(ServiceKind) && to == DLook(PoolKind))
            || (o == Good && from == DDrop(PoolKind) && to == DLook(IpSetKind))
            || (o == Good && from == DDrop(IpSetKind) && to == DLook(VAppKind))
            || (o == Good && from == DDrop(VAppKind) && to == DRelease)
  {
    CS.StepByPc(s, o, addr);
  }

  /** The states a pass goes through when its calls end as listed. */
  ghost function Turns(s: State, os: seq<Outcome>, addr: string): (t: State)
    requires Shape(s)
    ensures Shape(t) && t.conf == s.conf
    decreases |os|
  {
    if os == [] || s.cw.CIdle? then s else Turns(ClusterStep(s, os[0], addr), os[1..], addr)
  }

  lemma TurnsUnfold(s: State, o: Outcome, os: seq<Outcome>, addr: string)
    requires Shape(s) && s.cw.CBusy?
    ensures Turns(s, [o] + os, addr) == Turns(ClusterStep(s, o, addr), os, addr)
  {
    assert ([o] + os)[1..] == os;
  }

  /** A good lookup of an object that is there finds it and goes on with the next lookup, or with recording. */
  lemma LookFinds(s: State, kind: Kind, i: Id, addr: string)
    requires Shape(s) && s.cw.CBusy? && s.cw.pc == CLook(kind) && CloudOk(s.conf, s.cloud)
    requires Named(s.conf, s.cloud, s.cw.k, kind, i)
    ensures ClusterStep(s, Good, addr)
            == s.(cw := s.cw.(found := Put(s.cw.found, kind, Some(i)),
                              pc := match kind
                                    case IpSetKind => CLook(PoolKind)
                                    case PoolKind => CLook(ServiceKind)
                                    case ServiceKind => CLook(VAppKind)
                                    case VAppKind => CRecord))
  {
    CS.PlainSteps(s, Good, addr);
    var hit := Find(s.cloud, s.cloud.next, kind, NameFor(s.conf[s.cw.k], kind));
    assert hit.Some? ==> Named(s.conf, s.cloud, s.cw.k, kind, hit.value);
  }

  lemma StoresCopy(s: State, addr: string)
    requires Shape(s) && s.cw.CBusy? && s.cw.pc.CRecord? && !s.clusters[s.cw.k].Gone()
    ensures Turns(s, [Good, Good], addr).clusters[s.cw.k]
            == RecordRefs(s.cw.rec, s.cw.found).(deleting := s.clusters[s.cw.k].deleting)
  {
    var t := ClusterStep(s, Good, addr);
    CS.PlainSteps(s, Good, addr);
    TurnsUnfold(s, Good, [Good], addr);
    TurnsUnfold(t, Good, [], addr);
    assert [Good] + [Good] == [Good, Good] && [Good] + [] == [Good];
    CS.StepByPc(t, Good, addr);
  }

  /** From the service's lookup on, with service and vApp there. */
  lemma RestOfPass(s: State, found: Refs, v: Id, a: Id, addr: string)
    requires Shape(s) && CloudOk(s.conf, s.cloud) && s.cw.CBusy?
    requires s.cw.pc == CLook(ServiceKind) && s.cw.found == found && !s.clusters[s.cw.k].Gone()
    requires Named(s.conf, s.cloud, s.cw.k, ServiceKind, v) && Named(s.conf, s.cloud, s.cw.k, VAppKind, a)
    ensures Turns(s, [Good, Good, Good, Good], addr).clusters[s.cw.k]
            == RecordRefs(s.cw.rec, Refs(Some(a), Some(v), found.pool, found.ipset))
               .(deleting := s.clusters[s.cw.k].deleting)
  {
    var d := s.(cw := s.cw.(found := found.(service := Some(v)), pc := CLook(VAppKind)));
    var e := s.(cw := s.cw.(found := found.(service := Some(v), vapp := Some(a)), pc := CRecord));
    LookFinds(s, ServiceKind, v, addr);
    LookFinds(d, VAppKind, a, addr);
    TurnsUnfold(s, Good, [Good, Good, Good], addr);
    TurnsUnfold(d, Good, [Good, Good], addr);
    assert [Good] + [Good, Good, Good] == [Good, Good, Good, Good] && [Good] + [Good, Good] == [Good, Good, Good];
    StoresCopy(e, addr);
  }

  /** A pass at its first lookup, over a stored object that is not ready. */
  ghost predicate AtFirstLook(s: State, rec: ClusterRec) {
    && Shape(s) && CloudOk(s.conf, s.cloud) && s.cw.CBusy?
    && s.cw == CBusy(s.cw.k, rec, CLook(IpSetKind), NO_REFS)
    && rec == s.clusters[s.cw.k] && !rec.deleting && !rec.ready
  }

  /**
    When only the pool's lookup fails, service and vApp are still looked up and recorded; recording stops at the pool,
    so neither it nor the IP set is recorded and the cluster is not ready.
  */
  lemma PoolErrorRecordsTwo(s: State, rec: ClusterRec, g: Id, v: Id, a: Id, addr: string)
    requires AtFirstLook(s, rec) && Named(s.conf, s.cloud, s.cw.k, IpSetKind, g)
    requires Named(s.conf, s.cloud, s.cw.k, ServiceKind, v) && Named(s.conf, s.cloud, s.cw.k, VAppKind, a)
    ensures Turns(s, [Good, Bad] + [Good, Good, Good, Good], addr).clusters[s.cw.k]
            == rec.(refs := Refs(Some(a), Some(v), rec.refs.pool, rec.refs.ipset))
  {
    var found := Refs(None, None, None, Some(g));
    var b := s.(cw := s.cw.(found := found, pc := CLook(PoolKind)));
    var c := s.(cw := s.cw.(found := found, pc := CLook(ServiceKind)));
    LookFinds(s, IpSetKind, g, addr);
    ClusterErrorEndsPass(b, Bad, addr);
    TwoTurns(s, Good, Bad, [Good, Good, Good, Good], addr);
    RestOfPass(c, found, v, a, addr);
  }

  lemma TwoTurns(s: State, o: Outcome, o': Outcome, os: seq<Outcome>, addr: string)
    requires Shape(s) && s.cw.CBusy? && ClusterStep(s, o, addr).cw.CBusy?
    ensures Turns(s, [o, o'] + os, addr) == Turns(ClusterStep(ClusterStep(s, o, addr), o', addr), os, addr)
  {
    TurnsUnfold(s, o, [o'] + os, addr);
    TurnsUnfold(ClusterStep(s, o, addr), o', os, addr);
    assert [o] + ([o'] + os) == [o, o'] + os;
  }

  /** When only the IP set's lookup fails, the other three are recorded, and the cluster is not ready. */
  lemma IpSetErrorRecordsThree(s: State, rec: ClusterRec, p: Id, v: Id, a: Id, addr: string)
    requires AtFirstLook(s, rec) && Named(s.conf, s.cloud, s.cw.k, PoolKind, p)
    requires Named(s.conf, s.cloud, s.cw.k, ServiceKind, v) && Named(s.conf, s.cloud, s.cw.k, VAppKind, a)
    ensures Turns(s, [Bad, Good] + [Good, Good, Good, Good], addr).clusters[s.cw.k]
            == rec.(refs := Refs(Some(a), Some(v), Some(p), rec.refs.ipset))
  {
    var found := Refs(None, None, Some(p), None);
    var b := s.(cw := s.cw.(pc := CLook(PoolKind)));
    var c := s.(cw := s.cw.(found := found, pc := CLook(ServiceKind)));
    ClusterErrorEndsPass(s, Bad, addr);
    LookFinds(b, PoolKind, p, addr);
    TwoTurns(s, Bad, Good, [Good, Good, Good, Good], addr);
    RestOfPass(c, found, v, a, addr);
  }

  /** Without an IP set at hand a pool that is missing is not created: the pass ends with its copy as it was. */
  lemma IpSetErrorCreatesNoPool(s: State, rec: ClusterRec, addr: string)
    requires AtFirstLook(s, rec) && Absent(s.conf, s.cloud, s.cw.k, PoolKind)
    ensures Turns(s, [Bad, Good], addr) == s.(cw := s.cw.(pc := CPatch))
  {
    var b := s.(cw := CBusy(s.cw.k, rec, CLook(PoolKind), NO_REFS));
    ClusterErrorEndsPass(s, Bad, addr);
    TurnsUnfold(s, Bad, [Good], addr);
    TurnsUnfold(b, Good, [], addr);
    assert [Bad] + [Good] == [Bad, Good] && [Good] + [] == [Good];
    CS.PlainSteps(b, Good, addr);
    var hit := Find(b.cloud, b.cloud.next, PoolKind, NameFor(b.conf[b.cw.k], PoolKind));
    assert hit.Some? ==> Named(b.conf, b.cloud, b.cw.k, PoolKind, hit.value);
  }

  // ----- the machine reconciler -----

  predicate MachineCalls(w: MWorker)
    requires w.MBusy?
  {
    match w.pc
    case MFinalizer => false
    case MReady => false
    case XRelease => false
    case MPatch => false
    case XVApp => w.refs.vapp.Some?
    case _ => true
  }

  /**
    An error ends the pass with nothing in its copy changed, but for the task that adds a VM: when that was accepted
    and came to nothing, the pass looks the VM up all the same.
  */
  lemma MachineErrorEndsPass(s: State, o: Outcome, nics: Option<seq<string>>)
    requires Shape(s) && s.mw.MBusy? && MachineCalls(s.mw) && !o.Good?
    ensures MachineStep(s, o, nics).mw == s.mw.(pc := if s.mw.pc == MVmAdd && o == Dropped then MVmAgain else MPatch)
    ensures MachineStep(s, o, nics).machines == s.machines
    ensures o != BadApplied ==> MachineStep(s, o, nics).cloud == s.cloud
  {
    if MachineChangesCloud(s.mw.pc) {
      WriteErrorEndsPass(s, o, nics);
    } else if MTeardown(s.mw.pc) {
      MS.PlainTeardownSteps(s, o, nics);
    } else {
      MS.PlainSteps(s, o, nics);
    }
  }

  lemma WriteErrorEndsPass(s: State, o: Outcome, nics: Option<seq<string>>)
    requires Shape(s) && s.mw.MBusy? && MachineChangesCloud(s.mw.pc) && !o.Good?
    ensures MachineStep(s, o, nics).mw == s.mw.(pc := if s.mw.pc == MVmAdd && o == Dropped then MVmAgain else MPatch)
    ensures o != BadApplied ==> MachineStep(s, o, nics).cloud == s.cloud
  {
    MS.StepByPc(s, o, nics);
  }

  /** A machine of a cluster without an identity is left as it is, before any client is asked for. */
  lemma NoIdentityEndsPass(s: State, o: Outcome, nics: Option<seq<string>>)
    requires Shape(s) && s.mw.MBusy? && s.mw.pc.MCluster? && !s.conf[s.mw.m.cluster].identity
    ensures var w := MachineStep(s, o, nics).mw; w.MBusy? && w.pc == MPatch && w.rec == s.mw.rec
  {
    MS.PlainSteps(s, o, nics);
  }

  /** Nothing is added, configured, started, joined or recorded before the call that prepares it has succeeded. */
  lemma MachineCallsInOrder(s: State, o: Outcome, nics: Option<seq<string>>)
    requires Shape(s) && s.mw.MBusy? && MachineStep(s, o, nics).mw.MBusy? && !MTeardown(s.mw.pc)
    ensures var from := s.mw.pc;
            var to := MachineStep(s, o, nics).mw.pc;
            var rec := s.mw.rec;
            && (to == MGates ==> from == MFinalizer && rec.finalizer && !rec.deleting && s.mw.infra)
            && (to == MCluster ==> from == MGates && o == Good)
            && (to == MConnect ==> from == MCluster && o == Good && s.conf[s.mw.m.cluster].identity)
            && (to == MVApp ==> from == MConnect && o == Good)
            && (to == MCatalog ==> from == MVApp && o == Good && rec.providerId.None?)
            && (to == MVmLook ==> from == MCatalog && o == Good)
            && (to == MTemplate ==> from == MVmLook && o == Good)
            && (to == MVmAdd ==> from == MTemplate && o == Good)
            && (to == MVmAgain ==> from == MVmAdd && (o == Good || o == Dropped))
            && (to == MConfigure ==> (from == MVmLook || from == MVmAgain) && o == Good)
            && (to == MPower ==> from == MConfigure && o == Good)
            && (to == MGroup ==> (from == MVApp || from == MPower) && o == Good && rec.controlPlane)
            && (to == MJoin ==> from == MGroup && o == Good)
            && (to == MReady ==>
                  && o == Good
                  && (from == MGroup || from == MJoin || ((from == MVApp || from == MPower) && !rec.controlPlane)))
            && (to == XCluster ==> from == MFinalizer && rec.deleting && s.conf[s.mw.m.cluster].infraRef)
            && (to == XRelease ==> from == MFinalizer && rec.deleting && !s.conf[s.mw.m.cluster].infraRef)
            && (MTeardown(to) ==> to == XCluster || to == XRelease)
  {
    if MachineChangesCloud(s.mw.pc) || s.mw.pc.MPatch? {
      WritesInOrder(s, o, nics);
    } else if !s.mw.pc.MFinalizer? {
      MS.PlainSteps(s, o, nics);
    }
  }

  lemma WritesInOrder(s: State, o: Outcome, nics: Option<seq<string>>)
    requires Shape(s) && s.mw.MBusy? && MachineStep(s, o, nics).mw.MBusy? && !MTeardown(s.mw.pc)
    requires MachineChangesCloud(s.mw.pc) || s.mw.pc.MPatch?
    ensures var from := s.mw.pc;
            var to := MachineStep(s, o, nics).mw.pc;
            || to == MPatch
            || (from == MVmAdd && to == MVmAgain && (o == Good || o == Dropped))
            || (from == MPower && to == (if s.mw.rec.controlPlane then MGroup else MReady) && o == Good)
            || (from == MJoin && to == MReady && o == Good)
  {
    MS.StepByPc(s, o, nics);
  }

  /** A machine leaves the IP set before its VM is looked for, and is released only without a VM left to delete. */
  lemma MachineLeavesInOrder(s: State, o: Outcome, nics: Option<seq<string>>)
    requires Shape(s) && s.mw.MBusy? && MTeardown(s.mw.pc)
    ensures var from := s.mw.pc;
            var to := MachineStep(s, o, nics).mw.pc;
            var listed := s.mw.rec.controlPlane && LastInternal(s.mw.rec.addresses) != "";
            && MachineStep(s, o, nics).mw.MBusy?
            && (to == XConnect ==> from == XCluster && o == Good)
            && (to == XGroup ==> from == XConnect && o == Good && s.conf[s.mw.m.cluster].identity && listed)
            && (to == XLeave ==> from == XGroup && o == Good)
            && (to == XVApp ==>
                  && o == Good
                  && (from == XLeave || (from == XConnect && s.conf[s.mw.m.cluster].identity && !listed)))
            && (to == XVm ==> from == XVApp && o == Good)
            && (to == XDrop ==> from == XVm && o == Good)
            && (to == XRelease ==>
                  || (from == XVApp && s.mw.refs.vapp == None)
                  || (o == Good && (from == XVm || from == XDrop)))
            && (MTeardown(to) || to == MPatch)
  {
    if MachineChangesCloud(s.mw.pc) {
      TeardownWritesInOrder(s, o, nics);
    } else {
      MS.PlainTeardownSteps(s, o, nics);
    }
  }

  lemma TeardownWritesInOrder(s: State, o: Outcome, nics: Option<seq<string>>)
    requires Shape(s) && s.mw.MBusy? && (s.mw.pc.XLeave? || s.mw.pc.XDrop?)
    ensures MachineStep(s, o, nics).mw.MBusy?
    ensures var to := MachineStep(s, o, nics).mw.pc;
            to == MPatch || (o == Good && to == if s.mw.pc.XLeave? then XVApp else XRelease)
  {
    MS.StepByPc(s, o, nics);
  }
}
