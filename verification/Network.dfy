/** What becomes of a cluster whose vApp was created but never connected to its network. */
module Network {
  import opened Options
  import opened Clouds
  import opened Protocol
  import opened Invariant
  import opened CloudFacts
  import opened AllRuns
  import CS = ClusterSteps
  import MS = MachineSteps
  import N = NonInterference
  import opened MachineProgress

  // ----- vApps under a step -----

  ghost predicate SameVApps(c: Cloud, d: Cloud) {
    && (forall i | i in c.objs && c.objs[i].VApp? :: i in d.objs && d.objs[i] == c.objs[i])
    && (forall i | i in d.objs && d.objs[i].VApp? :: i in c.objs && c.objs[i] == d.objs[i])
  }

  lemma MachineKeepsVApps(s: State, o: Outcome, nics: Option<seq<string>>)
    requires Shape(s) && s.mw.MBusy? && MS.WorkerOk(s, s.mw) && (forall i | i in s.cloud.objs :: i < s.cloud.next)
    ensures SameVApps(s.cloud, MachineStep(s, o, nics).cloud)
  {
    if MachineChangesCloud(s.mw.pc) { MS.StepByPc(s, o, nics); }
  }

  /** Of the cluster's own vApp only creation, attaching and deletion change anything. */
  lemma ClusterKeepsVApps(s: State, o: Outcome, addr: string)
    requires CS.Context(s) && !s.cw.pc.CAttach?
    requires s.cw.pc != CMake(VAppKind) && s.cw.pc != DDrop(VAppKind)
    ensures SameVApps(s.cloud, ClusterStep(s, o, addr).cloud)
  {
    CS.StepByPc(s, o, addr);
    if s.cw.pc.DDrop? {
      var ref := At(s.cw.rec.refs, s.cw.pc.kind);
      assert RefOk(s.conf, s.cloud, s.cw.k, s.cw.pc.kind, ref, Kept(s.clusters, s.owners, s.cw, s.cw.k));
    }
  }

  // ----- a machine with a provider id has seen the network -----

  /** The machine's VM has been configured, or its pass is about to power it on. */
  ghost predicate Configured(machines: map<MKey, MachineRec>, w: MWorker, m: MKey) {
    && m in machines
    && (|| machines[m].providerId.Some?
        || (w.MBusy? && w.m == m && (w.rec.providerId.Some? || w.pc.MPower?)))
  }

  ghost predicate NetworkOk(s: State) {
    forall m | Configured(s.machines, s.mw, m) :: NetworkAttached(s.conf, s.cloud, m.cluster)
  }

  lemma ConfiguredHasInfra(s: State, m: MKey)
    requires Inv(s) && Configured(s.machines, s.mw, m)
    ensures m.cluster in s.infra
  {
    assert MachineOk(s.conf, s.cloud, s.infra, s.owners, m, s.machines[m]);
  }

  /** A cluster that was reported ready never creates its vApp again. */
  lemma MakesNoSecondVApp(s: State)
    requires CS.Context(s) && InfraOk(s.conf, s.clusters, s.infra) && s.cw.pc == CMake(VAppKind)
    ensures s.cw.k !in s.infra
  {
    assert RefOk(s.conf, s.cloud, s.cw.k, VAppKind, At(s.clusters[s.cw.k].refs, VAppKind), true);
  }

  lemma OwnStepKeepsAttached(s: State, o: Outcome, addr: string)
    requires CS.Context(s) && NetworkAttached(s.conf, s.cloud, s.cw.k) && s.cw.pc != CMake(VAppKind)
    ensures NetworkAttached(s.conf, ClusterStep(s, o, addr).cloud, s.cw.k)
  {
    if s.cw.pc.CAttach? || s.cw.pc == DDrop(VAppKind) {
      TouchedStaysAttached(s, o, addr);
    } else {
      assert SameVApps(s.cloud, ClusterStep(s, o, addr).cloud) by { ClusterKeepsVApps(s, o, addr); }
      SameVAppsAttached(s.conf, s.cloud, ClusterStep(s, o, addr).cloud, s.cw.k);
    }
  }

  lemma TouchedStaysAttached(s: State, o: Outcome, addr: string)
    requires Shape(s) && s.cw.CBusy? && NetworkAttached(s.conf, s.cloud, s.cw.k)
    requires s.cw.pc.CAttach? || s.cw.pc == DDrop(VAppKind)
    ensures NetworkAttached(s.conf, ClusterStep(s, o, addr).cloud, s.cw.k)
  {
    CS.StepByPc(s, o, addr);
  }

  lemma ClusterActNetwork(s: State, o: Outcome, addr: string)
    requires Inv(s) && s.cw.CBusy? && NetworkOk(s)
    ensures NetworkOk(ClusterStep(s, o, addr))
  {
    var t := ClusterStep(s, o, addr);
    forall m | Configured(t.machines, t.mw, m) ensures NetworkAttached(t.conf, t.cloud, m.cluster) {
      assert Configured(s.machines, s.mw, m);
      if m.cluster != s.cw.k {
        N.ClusterStepIsLocal(s, o, addr, m.cluster);
        LocalKeepsAttached(s.conf, s.cloud, t.cloud, m.cluster);
      } else {
        ConfiguredHasInfra(s, m);
        if s.cw.pc == CMake(VAppKind) { MakesNoSecondVApp(s); }
        OwnStepKeepsAttached(s, o, addr);
      }
    }
  }

  lemma LocalKeepsAttached(conf: Conf, c: Cloud, d: Cloud, k: CKey)
    requires N.SameObjects(conf, c, d, k)
    ensures NetworkAttached(conf, c, k) <==> NetworkAttached(conf, d, k)
  {
  }

  lemma ConfiguredBefore(s: State, o: Outcome, nics: Option<seq<string>>, m: MKey)
    requires Shape(s) && s.mw.MBusy?
    requires Configured(MachineStep(s, o, nics).machines, MachineStep(s, o, nics).mw, m)
    ensures Configured(s.machines, s.mw, m)
            || (m == s.mw.m && s.mw.pc.MConfigure? && Configurable(s.cloud, s.mw.vm))
  {
    if MachineChangesCloud(s.mw.pc) || s.mw.pc.MPatch? {
      MS.StepByPc(s, o, nics);
    } else if MTeardown(s.mw.pc) {
      MS.PlainTeardownSteps(s, o, nics);
    } else if !s.mw.pc.MFinalizer? {
      MS.PlainSteps(s, o, nics);
    }
  }

  lemma ConfigurableIsAttached(s: State)
    requires Shape(s) && s.mw.MBusy? && MS.WorkerOk(s, s.mw) && CloudOk(s.conf, s.cloud)
    requires s.mw.pc.MConfigure? && Configurable(s.cloud, s.mw.vm)
    ensures NetworkAttached(s.conf, s.cloud, s.mw.m.cluster)
  {
    assert VmOf(s.conf, s.cloud, s.mw.m, s.mw.vm);
  }

  lemma MachineActNetwork(s: State, o: Outcome, nics: Option<seq<string>>)
    requires Inv(s) && s.mw.MBusy? && NetworkOk(s)
    ensures NetworkOk(MachineStep(s, o, nics))
  {
    var t := MachineStep(s, o, nics);
    assert SameVApps(s.cloud, t.cloud) by { MachineKeepsVApps(s, o, nics); }
    forall m | Configured(t.machines, t.mw, m) ensures NetworkAttached(t.conf, t.cloud, m.cluster) {
      assert NetworkAttached(s.conf, s.cloud, m.cluster) by { AttachedBefore(s, o, nics, m); }
      SameVAppsAttached(s.conf, s.cloud, t.cloud, m.cluster);
    }
  }

  lemma SameVAppsAttached(conf: Conf, c: Cloud, d: Cloud, k: CKey)
    requires SameVApps(c, d)
    ensures NetworkAttached(conf, c, k) <==> NetworkAttached(conf, d, k)
  {
  }

  lemma AttachedBefore(s: State, o: Outcome, nics: Option<seq<string>>, m: MKey)
    requires Shape(s) && s.mw.MBusy? && MS.WorkerOk(s, s.mw) && CloudOk(s.conf, s.cloud) && NetworkOk(s)
    requires Configured(MachineStep(s, o, nics).machines, MachineStep(s, o, nics).mw, m)
    ensures NetworkAttached(s.conf, s.cloud, m.cluster)
  {
    ConfiguredBefore(s, o, nics, m);
    if !Configured(s.machines, s.mw, m) { ConfigurableIsAttached(s); }
  }

  lemma EventNetwork(s: State, e: Event)
    requires Inv(s) && Enabled(s, e) && NetworkOk(s)
    ensures NetworkOk(Apply(s, e))
  {
    if e.ClusterAct? {
      ClusterActNetwork(s, e.o, e.addr);
    } else if e.MachineAct? {
      MachineActNetwork(s, e.o, e.nics);
    } else {
      QuietEventNetwork(s, e);
    }
  }

  lemma QuietEventNetwork(s: State, e: Event)
    requires Shape(s) && Enabled(s, e) && NetworkOk(s) && !e.ClusterAct? && !e.MachineAct?
    ensures NetworkOk(Apply(s, e))
  {
    var t := Apply(s, e);
    forall m | Configured(t.machines, t.mw, m) ensures NetworkAttached(t.conf, t.cloud, m.cluster) {
      assert Configured(s.machines, s.mw, m);
    }
  }

  lemma {:induction false} RunNetwork(s: State, es: seq<Event>, t: State)
    requires Inv(s) && NetworkOk(s) && Runs(s, es, t)
    ensures NetworkOk(t)
    decreases |es|
  {
    if es != [] {
      EventKeeps(s, es[0]);
      EventNetwork(s, es[0]);
      RunNetwork(Apply(s, es[0]), es[1..], t);
    }
  }

  /** In every reachable state a machine with a provider id belongs to a cluster whose vApp, if any, has its network. */
  lemma ProviderNeedsNetwork(s: State, m: MKey)
    requires Reachable(s) && m in s.machines && s.machines[m].providerId.Some?
    ensures NetworkAttached(s.conf, s.cloud, m.cluster)
  {
    var s0, es :| Init(s0) && Runs(s0, es, s);
    InitEstablishes(s0);
    RunNetwork(s0, es, s);
    assert Configured(s.machines, s.mw, m);
  }

  // ----- a network that was missed never comes -----

  ghost predicate NoNetwork(conf: Conf, c: Cloud, k: CKey) {
    forall i | Named(conf, c, k, VAppKind, i) :: !c.objs[i].network
  }

  /** The running pass, if it is over `k`, may still connect the network. */
  ghost predicate Connecting(w: CWorker, k: CKey) { w.CBusy? && w.k == k && (w.pc.CNetwork? || w.pc.CAttach?) }

  /** Whether the vApp is there, or is gone for good. */
  ghost predicate VAppSettled(conf: Conf, c: Cloud, clusters: map<CKey, ClusterRec>, w: CWorker, k: CKey) {
    && k in clusters
    && (Absent(conf, c, k, VAppKind) ==> clusters[k].deleting && (w.CBusy? && w.k == k ==> w.rec.deleting))
  }

  ghost predicate Disconnected(s: State, k: CKey) {
    && (forall m: MKey | m.cluster == k :: !Configured(s.machines, s.mw, m))
    && NoNetwork(s.conf, s.cloud, k)
    && !Connecting(s.cw, k)
    && VAppSettled(s.conf, s.cloud, s.clusters, s.cw, k)
  }

  lemma SameVAppsNoNetwork(conf: Conf, c: Cloud, d: Cloud, k: CKey)
    requires SameVApps(c, d)
    ensures NoNetwork(conf, c, k) <==> NoNetwork(conf, d, k)
    ensures Absent(conf, c, k, VAppKind) <==> Absent(conf, d, k, VAppKind)
  {
    forall i ensures Named(conf, c, k, VAppKind, i) <==> Named(conf, d, k, VAppKind, i) { }
  }

  lemma LocalNoNetwork(conf: Conf, c: Cloud, d: Cloud, k: CKey)
    requires N.SameObjects(conf, c, d, k)
    ensures NoNetwork(conf, c, k) <==> NoNetwork(conf, d, k)
    ensures Absent(conf, c, k, VAppKind) <==> Absent(conf, d, k, VAppKind)
  {
  }

  lemma OwnPcStays(s: State, o: Outcome, addr: string)
    requires Shape(s) && s.cw.CBusy? && s.cw.pc != CMake(VAppKind) && !Connecting(s.cw, s.cw.k)
    ensures !Connecting(ClusterStep(s, o, addr).cw, s.cw.k)
  {
    if s.cw.pc.CMake? || s.cw.pc.DDrop? || s.cw.pc.CPatch? {
      CS.StepByPc(s, o, addr);
    } else if !s.cw.pc.CFinalizer? && !s.cw.pc.CEndpoint? {
      CS.PlainSteps(s, o, addr);
    }
  }

  lemma OwnRecStays(s: State, o: Outcome, addr: string)
    requires Shape(s) && s.cw.CBusy? && (s.cw.rec.deleting ==> s.clusters[s.cw.k].deleting)
    ensures var t := ClusterStep(s, o, addr);
            && (s.clusters[s.cw.k].deleting ==> t.clusters[s.cw.k].deleting)
            && (s.cw.rec.deleting && t.cw.CBusy? ==> t.cw.rec.deleting)
  {
    if ClusterChangesCloud(s.cw.pc) || s.cw.pc.CPatch? {
      CS.StepByPc(s, o, addr);
    } else {
      CS.QuietFrame(s, o, addr);
    }
  }

  lemma OwnStepDisconnected(s: State, o: Outcome, addr: string)
    requires CS.Context(s) && Disconnected(s, s.cw.k)
    ensures Disconnected(ClusterStep(s, o, addr), s.cw.k)
  {
    var t := ClusterStep(s, o, addr);
    OwnPcStays(s, o, addr);
    OwnRecStays(s, o, addr);
    if s.cw.pc == DDrop(VAppKind) {
      CS.StepByPc(s, o, addr);
    } else {
      assert SameVApps(s.cloud, t.cloud) by { ClusterKeepsVApps(s, o, addr); }
      SameVAppsNoNetwork(s.conf, s.cloud, t.cloud, s.cw.k);
    }
  }

  lemma OtherStepDisconnected(s: State, o: Outcome, addr: string, k: CKey)
    requires Inv(s) && s.cw.CBusy? && s.cw.k != k && Disconnected(s, k)
    ensures Disconnected(ClusterStep(s, o, addr), k)
  {
    var t := ClusterStep(s, o, addr);
    assert N.SameObjects(s.conf, s.cloud, t.cloud, k) by { N.ClusterStepIsLocal(s, o, addr, k); }
    LocalNoNetwork(s.conf, s.cloud, t.cloud, k);
    N.OtherRecordStays(s, o, addr, k);
  }

  lemma MachineActDisconnected(s: State, o: Outcome, nics: Option<seq<string>>, k: CKey)
    requires Shape(s) && s.mw.MBusy? && MS.WorkerOk(s, s.mw) && CloudOk(s.conf, s.cloud) && Disconnected(s, k)
    ensures Disconnected(MachineStep(s, o, nics), k)
  {
    var t := MachineStep(s, o, nics);
    assert SameVApps(s.cloud, t.cloud) by { MachineKeepsVApps(s, o, nics); }
    SameVAppsNoNetwork(s.conf, s.cloud, t.cloud, k);
    forall m: MKey | m.cluster == k ensures !Configured(t.machines, t.mw, m) {
      if Configured(t.machines, t.mw, m) { NotConfigured(s, o, nics, m); }
    }
  }

  lemma NotConfigured(s: State, o: Outcome, nics: Option<seq<string>>, m: MKey)
    requires Shape(s) && s.mw.MBusy? && MS.WorkerOk(s, s.mw) && NoNetwork(s.conf, s.cloud, m.cluster)
    requires Configured(MachineStep(s, o, nics).machines, MachineStep(s, o, nics).mw, m)
    ensures Configured(s.machines, s.mw, m)
  {
    ConfiguredBefore(s, o, nics, m);
    assert s.mw.pc.MConfigure? ==> VmOf(s.conf, s.cloud, s.mw.m, s.mw.vm);
  }

  lemma QuietEventDisconnected(s: State, e: Event, k: CKey)
    requires Shape(s) && Enabled(s, e) && Disconnected(s, k) && !e.ClusterAct? && !e.MachineAct?
    ensures Disconnected(Apply(s, e), k)
  {
    var t := Apply(s, e);
    forall m: MKey | m.cluster == k ensures !Configured(t.machines, t.mw, m) {
      assert !Configured(s.machines, s.mw, m);
    }
  }

  lemma EventDisconnected(s: State, e: Event, k: CKey)
    requires Inv(s) && Enabled(s, e) && Disconnected(s, k)
    ensures Disconnected(Apply(s, e), k)
  {
    if e.ClusterAct? {
      if s.cw.k == k { OwnStepDisconnected(s, e.o, e.addr); } else { OtherStepDisconnected(s, e.o, e.addr, k); }
    } else if e.MachineAct? {
      MachineActDisconnected(s, e.o, e.nics, k);
    } else {
      QuietEventDisconnected(s, e, k);
    }
  }

  lemma {:induction false} RunDisconnected(s: State, es: seq<Event>, t: State, k: CKey)
    requires Inv(s) && Disconnected(s, k) && Runs(s, es, t)
    ensures Inv(t) && Disconnected(t, k)
    decreases |es|
  {
    if es != [] {
      EventKeeps(s, es[0]);
      EventDisconnected(s, es[0], k);
      RunDisconnected(Apply(s, es[0]), es[1..], t, k);
    }
  }

  /**
    Once a vApp is there without its network and no pass is on its way to connect it, no run ever connects one, and no
    machine of the cluster ever gets a provider id or becomes ready.
  */
  lemma MissedNetworkNeverComes(s: State, es: seq<Event>, t: State, k: CKey, i: Id)
    requires Reachable(s) && Runs(s, es, t)
    requires Named(s.conf, s.cloud, k, VAppKind, i) && !s.cloud.objs[i].network && !Connecting(s.cw, k)
    ensures forall j | Named(t.conf, t.cloud, k, VAppKind, j) :: !t.cloud.objs[j].network
    ensures forall m | m in t.machines && m.cluster == k :: t.machines[m].providerId.None? && !t.machines[m].ready
  {
    assert Inv(s) by { ReachableInv(s); }
    assert Disconnected(s, k) by { StartsDisconnected(s, k, i); }
    assert Inv(t) && Disconnected(t, k) by { RunDisconnected(s, es, t, k); }
    NeverReady(t, k);
  }

  lemma NeverReady(s: State, k: CKey)
    requires Disconnected(s, k) && MachinesOk(s.conf, s.cloud, s.infra, s.owners, s.machines)
    ensures forall m | m in s.machines && m.cluster == k :: s.machines[m].providerId.None? && !s.machines[m].ready
  {
    forall m | m in s.machines && m.cluster == k ensures s.machines[m].providerId.None? && !s.machines[m].ready {
      assert !Configured(s.machines, s.mw, m);
      assert MachineOk(s.conf, s.cloud, s.infra, s.owners, m, s.machines[m]);
    }
  }

  lemma StartsDisconnected(s: State, k: CKey, i: Id)
    requires Reachable(s) && Named(s.conf, s.cloud, k, VAppKind, i) && !s.cloud.objs[i].network && !Connecting(s.cw, k)
    ensures Disconnected(s, k)
  {
    var s0, es :| Init(s0) && Runs(s0, es, s);
    InitEstablishes(s0);
    assert NetworkOk(s) by { RunNetwork(s0, es, s); }
    assert Unique(s.conf, s.cloud) by { ReachableInv(s); }
    assert forall m | Configured(s.machines, s.mw, m) :: NetworkAttached(s.conf, s.cloud, m.cluster);
  }

  // ----- when a machine can still become ready -----

  /** Some run from here makes the machine ready. */
  ghost predicate CanBecomeReady(s: State, m: MKey) {
    exists es, t :: Runs(s, es, t) && m in t.machines && t.machines[m].ready
  }

  lemma ReadyClusterStays(s: State, m: MKey)
    requires Reachable(s) && m in s.machines && !s.machines[m].deleting && m.cluster in s.infra
    ensures m in s.owners && m.cluster in s.clusters && !s.clusters[m.cluster].Gone()
  {
    ReachableInv(s);
    var k := m.cluster;
    assert MachineOk(s.conf, s.cloud, s.infra, s.owners, m, s.machines[m]);
    assert ClusterOk(s.conf, s.cloud, k, s.clusters[k], Kept(s.clusters, s.owners, s.cw, k));
    assert RefOk(s.conf, s.cloud, k, VAppKind, At(s.clusters[k].refs, VAppKind), true);
    assert TeardownRank(VAppKind) < 4;
  }

  /**
    An undeleted machine with its finalizer, in a cluster that was reported ready and has an identity, can still become
    ready exactly when the cluster's vApp has its network: no run helps a vApp that missed it.
  */
  lemma ReadinessNeedsNetworkExactly(s: State, m: MKey, nics: Option<seq<string>>)
    requires Reachable(s) && s.mw.MIdle? && m in s.machines && !s.machines[m].deleting && s.machines[m].finalizer
    requires m.cluster in s.infra && s.conf[m.cluster].identity && !Connecting(s.cw, m.cluster)
    requires NicsOk(s.machines[m].controlPlane, nics) && VmNicsOk(s.conf, s.cloud, m, s.machines[m].controlPlane)
    ensures CanBecomeReady(s, m) <==> NetworkAttached(s.conf, s.cloud, m.cluster)
  {
    ReadyClusterStays(s, m);
    if NetworkAttached(s.conf, s.cloud, m.cluster) {
      OnePassReadies(s, m, nics);
      var es := PassIsRun(s, m, nics);
      assert CanBecomeReady(s, m);
    } else {
      var i :| Named(s.conf, s.cloud, m.cluster, VAppKind, i) && !s.cloud.objs[i].network;
      forall es, t | Runs(s, es, t) && m in t.machines ensures !t.machines[m].ready {
        MissedNetworkNeverComes(s, es, t, m.cluster, i);
      }
    }
  }
}
