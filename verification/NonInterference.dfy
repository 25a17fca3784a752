/** Reconciling one cluster and its machines leaves every other cluster's objects alone. */
module NonInterference {
  import opened Options
  import opened Clouds
  import opened Naming
  import opened Protocol
  import opened Invariant
  import opened CloudFacts
  import opened AllRuns
  import CS = ClusterSteps
  import MS = MachineSteps

  /** Everything that belongs to cluster `k` in the cloud is the same object with the same contents. */
  ghost predicate SameObjects(conf: Conf, c: Cloud, d: Cloud, k: CKey) {
    && (forall kind, i :: Named(conf, d, k, kind, i) <==> Named(conf, c, k, kind, i))
    && (forall kind, i | Named(conf, c, k, kind, i) :: i in d.objs && d.objs[i] == c.objs[i])
    && (forall m: MKey, i | m.cluster == k :: VmOf(conf, d, m, i) <==> VmOf(conf, c, m, i))
    && (forall m: MKey, i | m.cluster == k && VmOf(conf, c, m, i) :: i in d.objs && d.objs[i] == c.objs[i])
  }

  ghost predicate SameView(s: State, t: State, k: CKey) {
    && SameObjects(s.conf, s.cloud, t.cloud, k)
    && (k in s.clusters <==> k in t.clusters)
    && (k in s.clusters ==> t.clusters[k] == s.clusters[k])
    && (forall m: MKey | m.cluster == k :: m in s.machines <==> m in t.machines)
    && (forall m: MKey | m.cluster == k && m in s.machines :: m in t.machines && t.machines[m] == s.machines[m])
  }

  /** The event is a step of a pass over cluster `k` or one of its machines, or something done to them. */
  ghost predicate Concerns(s: State, e: Event, k: CKey) {
    match e
    case ClusterBegin(k') => k' == k
    case ClusterAct(_, _) => s.cw.CBusy? && s.cw.k == k
    case ClusterCrash => s.cw.CBusy? && s.cw.k == k
    case MachineBegin(m) => m.cluster == k
    case MachineAct(_, _) => s.mw.MBusy? && s.mw.m.cluster == k
    case MachineCrash => s.mw.MBusy? && s.mw.m.cluster == k
    case CreateMachine(m, _) => m.cluster == k
    case DeleteMachine(m) => m.cluster == k
    case OwnerLeaves(m) => m.cluster == k
    case DeleteCluster(k') => k' == k
    case MirrorReady(k') => k' == k
  }

  /** Changing one object in place touches no other cluster than its owner. */
  lemma UpdateIsLocal(conf: Conf, c: Cloud, id: Id, r: Resource, k: CKey)
    requires SameOwnership(conf, c, Update(c, id, r)) && id in c.objs
    requires forall kind :: !Named(conf, c, k, kind, id)
    requires forall m: MKey | m.cluster == k :: !VmOf(conf, c, m, id)
    ensures SameObjects(conf, c, Update(c, id, r), k)
  {
  }

  lemma NotOthers(conf: Conf, c: Cloud, k: CKey, kind: Kind, id: Id, k': CKey)
    requires DistinctNames(conf) && Named(conf, c, k, kind, id) && k' != k
    ensures forall kind' :: !Named(conf, c, k', kind', id)
    ensures forall m: MKey | m.cluster == k' :: !VmOf(conf, c, m, id)
  {
    forall kind' ensures !Named(conf, c, k', kind', id) {
      if Named(conf, c, k', kind', id) { CS.OwnedByOne(conf, c, k, kind, k', kind', id); }
    }
  }

  lemma NotOthersVm(conf: Conf, c: Cloud, m: MKey, id: Id, k': CKey)
    requires DistinctNames(conf) && VmOf(conf, c, m, id) && k' != m.cluster
    ensures forall kind' :: !Named(conf, c, k', kind', id)
    ensures forall m': MKey | m'.cluster == k' :: !VmOf(conf, c, m', id)
  {
    forall m': MKey | m'.cluster == k' ensures !VmOf(conf, c, m', id) {
      if VmOf(conf, c, m', id) { MS.VmOfOne(conf, c, m, m', id); }
    }
  }

  lemma ClusterStepIsLocal(s: State, o: Outcome, addr: string, k: CKey)
    requires Inv(s) && s.cw.CBusy? && s.cw.k != k
    ensures SameObjects(s.conf, s.cloud, ClusterStep(s, o, addr).cloud, k)
  {
    CS.StepByPc(s, o, addr);
    match s.cw.pc
    case CMake(kind) => MakeIsLocal(s, kind, o, k);
    case CAttach => AttachIsLocal(s, o, k);
    case DDrop(kind) => DropIsLocal(s, kind, o, k);
    case _ =>
  }

  lemma OtherRecordStays(s: State, o: Outcome, addr: string, k: CKey)
    requires Shape(s) && s.cw.CBusy? && s.cw.k != k && k in s.clusters
    ensures ClusterStep(s, o, addr).clusters[k] == s.clusters[k]
    ensures !ClusterStep(s, o, addr).cw.CBusy? || ClusterStep(s, o, addr).cw.k != k
  {
    if s.cw.pc.CPatch? { CS.StepByPc(s, o, addr); }
  }

  lemma MakeIsLocal(s: State, kind: Kind, o: Outcome, k: CKey)
    requires CS.Context(s) && s.cw.pc == CMake(kind) && s.cw.k != k
    ensures SameObjects(s.conf, s.cloud, StepMake(s, kind, o).cloud, k)
  {
    if Applied(o) { CS.MakeCreates(s, kind); }
  }

  lemma AttachIsLocal(s: State, o: Outcome, k: CKey)
    requires CS.Context(s) && s.cw.pc.CAttach? && s.cw.k != k
    ensures SameObjects(s.conf, s.cloud, StepAttach(s, o).cloud, k)
  {
    var id := s.cw.found.vapp.value;
    if StepAttach(s, o).cloud != s.cloud {
      assert At(s.cw.found, VAppKind) == Some(id);
      var r := s.cloud.objs[id].(network := true);
      UpdateOwned(s.conf, s.cloud, id, r);
      NotOthers(s.conf, s.cloud, s.cw.k, VAppKind, id, k);
      UpdateIsLocal(s.conf, s.cloud, id, r, k);
    }
  }

  lemma DropIsLocal(s: State, kind: Kind, o: Outcome, k: CKey)
    requires CS.Context(s) && s.cw.pc == DDrop(kind) && s.cw.k != k
    requires MachinesOk(s.conf, s.cloud, s.infra, s.owners, s.machines)
    ensures SameObjects(s.conf, s.cloud, StepTeardownDrop(s, kind, o).cloud, k)
  {
    var id := At(s.cw.rec.refs, kind).value;
    if id in s.cloud.objs {
      CS.NoOwnerNoVm(s, s.cw.k);
      CS.TeardownDrops(s, kind);
      NotOthers(s.conf, s.cloud, s.cw.k, kind, id, k);
      DroppedIsLocal(s.conf, s.cloud, Drop(s.cloud, id), id, k);
    } else {
      assert Drop(s.cloud, id).objs == s.cloud.objs;
    }
  }

  lemma DroppedIsLocal(conf: Conf, c: Cloud, d: Cloud, id: Id, k: CKey)
    requires CS.Dropped1(conf, c, d, id) && forall kind :: !Named(conf, c, k, kind, id)
    requires forall m: MKey | m.cluster == k :: !VmOf(conf, c, m, id)
    ensures SameObjects(conf, c, d, k)
  {
  }

  lemma MachineStepIsLocal(s: State, o: Outcome, nics: Option<seq<string>>, k: CKey)
    requires MS.Context(s) && s.mw.m.cluster != k
    ensures SameObjects(s.conf, s.cloud, MachineStep(s, o, nics).cloud, k)
  {
    if MachineChangesCloud(s.mw.pc) { LoudStepIsLocal(s, o, nics, k); }
  }

  lemma LoudStepIsLocal(s: State, o: Outcome, nics: Option<seq<string>>, k: CKey)
    requires MS.Context(s) && s.mw.m.cluster != k && MachineChangesCloud(s.mw.pc)
    ensures SameObjects(s.conf, s.cloud, MachineStep(s, o, nics).cloud, k)
  {
    MS.StepByPc(s, o, nics);
    match s.mw.pc
    case MVmAdd => VmAddIsLocal(s, o, nics, k);
    case MPower => PowerIsLocal(s, o, k);
    case MJoin => WriteIsLocal(s, o, MReady, k);
    case XLeave => WriteIsLocal(s, o, XVApp, k);
    case XDrop => VmDropIsLocal(s, k);
  }

  lemma VmAddIsLocal(s: State, o: Outcome, nics: Option<seq<string>>, k: CKey)
    requires MS.Context(s) && s.mw.pc.MVmAdd? && s.mw.m.cluster != k
    ensures SameObjects(s.conf, s.cloud, StepVmAdd(s, o, nics).cloud, k)
  {
    if Applied(o) { MS.AddCreates(s, o, nics); }
  }

  lemma PowerIsLocal(s: State, o: Outcome, k: CKey)
    requires Shape(s) && s.mw.MBusy? && DistinctNames(s.conf) && CloudOk(s.conf, s.cloud) && s.mw.m.cluster != k
    requires VmOf(s.conf, s.cloud, s.mw.m, s.mw.vm)
    ensures SameObjects(s.conf, s.cloud, StepPower(s, o).cloud, k)
  {
    var r := s.cloud.objs[s.mw.vm].(on := true);
    assert StepPower(s, o).cloud == if Applied(o) then Update(s.cloud, s.mw.vm, r) else s.cloud;
    UpdateOwned(s.conf, s.cloud, s.mw.vm, r);
    NotOthersVm(s.conf, s.cloud, s.mw.m, s.mw.vm, k);
    UpdateIsLocal(s.conf, s.cloud, s.mw.vm, r, k);
  }

  lemma WriteIsLocal(s: State, o: Outcome, done: MPc, k: CKey)
    requires Shape(s) && s.mw.MBusy? && DistinctNames(s.conf) && CloudOk(s.conf, s.cloud) && s.mw.m.cluster != k
    requires s.mw.refs.ipset.Some? && Named(s.conf, s.cloud, s.mw.m.cluster, IpSetKind, s.mw.refs.ipset.value)
    ensures SameObjects(s.conf, s.cloud, StepWriteGroup(s, o, done).cloud, k)
  {
    var id := s.mw.refs.ipset.value;
    var r := s.cloud.objs[id].(ips := NewIps(s.mw));
    assert StepWriteGroup(s, o, done).cloud == if Applied(o) then Update(s.cloud, id, r) else s.cloud;
    UpdateOwned(s.conf, s.cloud, id, r);
    NotOthers(s.conf, s.cloud, s.mw.m.cluster, IpSetKind, id, k);
    UpdateIsLocal(s.conf, s.cloud, id, r, k);
  }

  lemma VmDropIsLocal(s: State, k: CKey)
    requires MS.Context(s) && s.mw.pc.XDrop? && s.mw.m.cluster != k
    ensures SameObjects(s.conf, s.cloud, Drop(s.cloud, s.mw.vm), k)
  {
    MS.VmDropped(s);
    NotOthersVm(s.conf, s.cloud, s.mw.m, s.mw.vm, k);
  }

  /** Besides the cloud, a step writes at most the record its worker works on. */
  lemma StepsWriteOwnRecord(s: State, e: Event)
    requires Shape(s) && Enabled(s, e)
    ensures e.ClusterAct? ==> Apply(s, e).machines == s.machines
    ensures e.ClusterAct? ==> forall k | k in s.clusters && k != s.cw.k :: Apply(s, e).clusters[k] == s.clusters[k]
    ensures e.MachineAct? ==> Apply(s, e).clusters == s.clusters && Apply(s, e).machines.Keys == s.machines.Keys
    ensures e.MachineAct? ==> forall m | m in s.machines && m != s.mw.m :: Apply(s, e).machines[m] == s.machines[m]
  {
    match e
    case ClusterAct(o, addr) => CS.StepByPc(s, o, addr);
    case MachineAct(o, nics) => MS.StepByPc(s, o, nics);
    case _ =>
  }

  lemma EnvironmentIsLocal(s: State, e: Event, k: CKey, k': CKey)
    requires Shape(s) && Enabled(s, e) && Concerns(s, e, k) && k' != k && !e.ClusterAct? && !e.MachineAct?
    ensures SameView(s, Apply(s, e), k')
  {
  }

  lemma EventIsLocal(s: State, e: Event, k: CKey, k': CKey)
    requires Inv(s) && Enabled(s, e) && Concerns(s, e, k) && k' != k
    ensures SameView(s, Apply(s, e), k')
  {
    if e.ClusterAct? || e.MachineAct? {
      StepsWriteOwnRecord(s, e);
      StepIsLocal(s, e, k');
    } else {
      EnvironmentIsLocal(s, e, k, k');
    }
  }

  lemma StepIsLocal(s: State, e: Event, k: CKey)
    requires Inv(s) && Enabled(s, e) && (e.ClusterAct? || e.MachineAct?)
    requires e.ClusterAct? ==> s.cw.k != k
    requires e.MachineAct? ==> s.mw.m.cluster != k
    ensures SameObjects(s.conf, s.cloud, Apply(s, e).cloud, k)
  {
    if e.ClusterAct? {
      ClusterStepIsLocal(s, e.o, e.addr, k);
    } else {
      MS.ContextHolds(s);
      MachineStepIsLocal(s, e.o, e.nics, k);
    }
  }

  /** A run all of whose events concern cluster `k` or its machines. */
  ghost predicate RunsFor(s: State, es: seq<Event>, t: State, k: CKey)
    decreases |es|
  {
    && Shape(s)
    && if es == [] then s == t
       else Enabled(s, es[0]) && Concerns(s, es[0], k) && RunsFor(Apply(s, es[0]), es[1..], t, k)
  }

  lemma SameViewTransitive(s: State, t: State, u: State, k: CKey)
    requires SameView(s, t, k) && SameView(t, u, k) && t.conf == s.conf
    ensures SameView(s, u, k)
  {
  }

  /**
    From any reachable state, any run of reconciles for one cluster and its machines, with whatever failures, leaves
    another cluster's record, machines, cloud objects, VMs and IP set contents exactly as they were.
  */
  lemma {:induction false} OtherClustersUntouched(s: State, es: seq<Event>, t: State, k: CKey, k': CKey)
    requires Inv(s) && RunsFor(s, es, t, k) && k' != k
    ensures Inv(t) && SameView(s, t, k')
    decreases |es|
  {
    if es != [] {
      var u := Apply(s, es[0]);
      EventKeeps(s, es[0]);
      EventIsLocal(s, es[0], k, k');
      OtherClustersUntouched(u, es[1..], t, k, k');
      SameViewTransitive(s, u, t, k');
    }
  }

  /** The distinct-names condition of a start state, from UID naming with distinct UIDs. */
  lemma DistinctUidsSuffice(conf: Conf)
    requires forall k | k in conf :: conf[k].meta.useUid
    requires forall k, k' | k in conf && k' in conf && conf[k].meta.uid == conf[k'].meta.uid :: k == k'
    ensures DistinctNames(conf)
  {
    forall k, k', kind: Kind | k in conf && k' in conf && NameFor(conf[k], kind) == NameFor(conf[k'], kind)
      ensures k == k'
    {
      UidNamesAreInjective(conf[k].meta, conf[k'].meta, CONTROL_PLANE_USE);
    }
  }
}
