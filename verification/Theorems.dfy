/** What the protocol guarantees over all runs: the facts a reader would ask of the two controllers. */
module Theorems {
  import opened Options
  import opened Clouds
  import opened Protocol
  import opened Invariant
  import opened AllRuns
  import CS = ClusterSteps
  import MS = MachineSteps

  // ----- the cloud's shape -----

  /**
    In every reachable state, mid-pass and after any abort, no service, pool or VM has a dangling reference, and a
    cluster's service leads to its own pool and that to its own IP set.
  */
  lemma ReferentialIntegrity(s: State)
    requires Reachable(s)
    ensures Integrity(s.cloud)
    ensures Linked(s.conf, s.cloud)
  {
    ReachableInv(s);
  }

  /**
    At most one object per kind exists under a cluster's names, and a recorded identifier is that object: no other
    one carries the name, and it is there unless the cluster is being torn down.
  */
  lemma RecordedIsUnique(s: State, k: CKey, kind: Kind)
    requires Reachable(s) && k in s.clusters
    ensures forall i, j | Named(s.conf, s.cloud, k, kind, i) && Named(s.conf, s.cloud, k, kind, j) :: i == j
    ensures At(s.clusters[k].refs, kind).Some? ==>
              forall i | Named(s.conf, s.cloud, k, kind, i) :: i == At(s.clusters[k].refs, kind).value
    ensures At(s.clusters[k].refs, kind).Some? && (!s.clusters[k].deleting || !NoOwner(s.owners, k)) ==>
              Named(s.conf, s.cloud, k, kind, At(s.clusters[k].refs, kind).value)
  {
    ReachableInv(s);
    assert ClusterOk(s.conf, s.cloud, k, s.clusters[k], Kept(s.clusters, s.owners, s.cw, k));
    assert RefOk(s.conf, s.cloud, k, kind, At(s.clusters[k].refs, kind), Kept(s.clusters, s.owners, s.cw, k));
  }

  // ----- what is never taken back -----

  /** What the stored objects only ever gain. */
  ghost predicate Monotone(s: State, t: State) {
    && t.conf == s.conf
    && s.infra <= t.infra
    && (forall k | k in s.clusters :: k in t.clusters && ClusterGrows(s.clusters[k], t.clusters[k]))
    && (forall m | m in s.machines :: m in t.machines && MachineGrows(s.machines[m], t.machines[m]))
  }

  ghost predicate ClusterGrows(r: ClusterRec, r': ClusterRec) {
    && Extends(r.refs, r'.refs)
    && (r.ready ==> r'.ready)
    && (r.endpoint.host != "" ==> r'.endpoint == r.endpoint)
    && (r.deleting ==> r'.deleting)
    && (r.finalizer && !r'.finalizer ==> r'.deleting)
    && (r.Gone() ==> r' == r)
  }

  ghost predicate MachineGrows(r: MachineRec, r': MachineRec) {
    && r'.controlPlane == r.controlPlane
    && (r.providerId.Some? ==> r'.providerId == r.providerId && r'.addresses == r.addresses)
    && (r.ready ==> r'.ready)
    && (r.deleting ==> r'.deleting)
    && (r.finalizer && !r'.finalizer ==> r'.deleting)
    && (r.Gone() ==> r' == r)
  }

  lemma ClusterCommitGrows(s: State)
    requires Inv(s) && s.cw.CBusy? && s.cw.pc.CPatch?
    ensures ClusterGrows(s.clusters[s.cw.k], CommitCluster(s.clusters[s.cw.k], s.cw.rec))
  {
  }

  lemma MachineCommitGrows(s: State)
    requires Inv(s) && s.mw.MBusy? && s.mw.pc.MPatch?
    ensures MachineGrows(s.machines[s.mw.m], CommitMachine(s.machines[s.mw.m], s.mw.rec))
  {
  }

  lemma ClusterPatchGrows(s: State)
    requires Shape(s) && s.cw.CBusy?
    requires ClusterGrows(s.clusters[s.cw.k], CommitCluster(s.clusters[s.cw.k], s.cw.rec))
    ensures Monotone(s, CS.Committed(s))
  {
  }

  lemma ClusterActGrows(s: State, o: Outcome, addr: string)
    requires Inv(s) && s.cw.CBusy?
    ensures Monotone(s, ClusterStep(s, o, addr))
  {
    CS.StepByPc(s, o, addr);
    if s.cw.pc.CPatch? && Applied(o) {
      ClusterCommitGrows(s);
      ClusterPatchGrows(s);
    } else {
      SameStoreGrows(s, ClusterStep(s, o, addr));
    }
  }

  lemma SameStoreGrows(s: State, t: State)
    requires t.conf == s.conf && s.infra <= t.infra && t.clusters == s.clusters && t.machines == s.machines
    ensures Monotone(s, t)
  {
  }

  lemma MachinePatchGrows(s: State)
    requires Shape(s) && s.mw.MBusy?
    requires MachineGrows(s.machines[s.mw.m], CommitMachine(s.machines[s.mw.m], s.mw.rec))
    ensures Monotone(s, MS.Committed(s))
  {
  }

  lemma MachineActGrows(s: State, o: Outcome, nics: Option<seq<string>>)
    requires Inv(s) && s.mw.MBusy?
    ensures Monotone(s, MachineStep(s, o, nics))
  {
    MS.StepByPc(s, o, nics);
    if s.mw.pc.MPatch? && Applied(o) {
      MachineCommitGrows(s);
      MachinePatchGrows(s);
    } else {
      SameStoreGrows(s, MachineStep(s, o, nics));
    }
  }

  lemma EnvironmentGrows(s: State, e: Event)
    requires Shape(s) && Enabled(s, e)
    requires !e.ClusterAct? && !e.MachineAct?
    ensures Monotone(s, Apply(s, e))
  {
    if !e.CreateMachine? && !e.DeleteMachine? && !e.DeleteCluster? { SameStoreGrows(s, Apply(s, e)); }
  }

  lemma EventGrows(s: State, e: Event)
    requires Inv(s) && Enabled(s, e)
    ensures Monotone(s, Apply(s, e))
  {
    if e.ClusterAct? {
      ClusterActGrows(s, e.o, e.addr);
    } else if e.MachineAct? {
      MachineActGrows(s, e.o, e.nics);
    } else {
      EnvironmentGrows(s, e);
    }
  }

  lemma MonotoneTransitive(s: State, t: State, u: State)
    requires Monotone(s, t) && Monotone(t, u)
    ensures Monotone(s, u)
  {
    forall k | k in s.clusters ensures k in u.clusters && ClusterGrows(s.clusters[k], u.clusters[k]) {
      assert ClusterGrows(s.clusters[k], t.clusters[k]) && ClusterGrows(t.clusters[k], u.clusters[k]);
    }
    forall m | m in s.machines ensures m in u.machines && MachineGrows(s.machines[m], u.machines[m]) {
      assert MachineGrows(s.machines[m], t.machines[m]) && MachineGrows(t.machines[m], u.machines[m]);
    }
  }

  /**
    Over any run: references and readiness once stored are never cleared or changed, a stored endpoint is never
    rewritten, a stored provider id never changes, and a finalizer is only ever removed from a deleted object.
  */
  lemma {:induction false} StoredFactsStay(s: State, es: seq<Event>, t: State)
    requires Inv(s) && Runs(s, es, t)
    ensures Monotone(s, t)
    decreases |es|
  {
    if es != [] {
      var u := Apply(s, es[0]);
      EventKeeps(s, es[0]);
      EventGrows(s, es[0]);
      StoredFactsStay(u, es[1..], t);
      MonotoneTransitive(s, u, t);
    }
  }

  // ----- teardown and machines -----

  lemma ClusterStepKeepsObjects(s: State, o: Outcome, addr: string)
    requires Shape(s) && s.cw.CBusy? && !s.cw.pc.DDrop?
    ensures s.cloud.objs.Keys <= ClusterStep(s, o, addr).cloud.objs.Keys
  {
    CS.StepByPc(s, o, addr);
  }

  lemma MachineStepKeepsObjects(s: State, o: Outcome, nics: Option<seq<string>>, i: Id)
    requires Shape(s) && s.mw.MBusy? && i in s.cloud.objs && !s.cloud.objs[i].Vm?
    requires CloudOk(s.conf, s.cloud) && MS.WorkerOk(s, s.mw)
    ensures i in MachineStep(s, o, nics).cloud.objs
  {
    MS.StepByPc(s, o, nics);
    if s.mw.pc.XDrop? { MS.VmDropped(s); }
  }

  /**
    No step of any interleaving removes a service, pool, IP set or vApp of a cluster unless the cluster is deleted
    and every machine it ever had has lost its finalizer and its VM.
  */
  lemma TeardownWaitsForMachines(s: State, e: Event, k: CKey, kind: Kind, i: Id)
    requires Reachable(s) && Enabled(s, e)
    requires Named(s.conf, s.cloud, k, kind, i) && i !in Apply(s, e).cloud.objs
    ensures s.clusters[k].deleting
    ensures forall m | m in s.machines && m.cluster == k :: s.machines[m].Gone()
    ensures forall m: MKey | m.cluster == k :: NoVm(s.conf, s.cloud, m)
  {
    ReachableInv(s);
    OnlyTeardownRemoves(s, e, k, kind, i);
    DroppedIsOwn(s, e.o, e.addr, k, kind, i);
    CS.NoOwnerNoVm(s, k);
  }

  lemma OnlyTeardownRemoves(s: State, e: Event, k: CKey, kind: Kind, i: Id)
    requires Shape(s) && Enabled(s, e) && CloudOk(s.conf, s.cloud) && (s.mw.MBusy? ==> MS.WorkerOk(s, s.mw))
    requires Named(s.conf, s.cloud, k, kind, i) && i !in Apply(s, e).cloud.objs
    ensures e.ClusterAct? && s.cw.pc.DDrop?
  {
    if e.MachineAct? {
      MachineStepKeepsObjects(s, e.o, e.nics, i);
    } else if e.ClusterAct? && !s.cw.pc.DDrop? {
      ClusterStepKeepsObjects(s, e.o, e.addr);
    }
  }

  lemma DroppedIsOwn(s: State, o: Outcome, addr: string, k: CKey, kind: Kind, i: Id)
    requires Inv(s) && s.cw.CBusy? && s.cw.pc.DDrop?
    requires Named(s.conf, s.cloud, k, kind, i) && i !in ClusterStep(s, o, addr).cloud.objs
    ensures k == s.cw.k && s.clusters[k].deleting && NoOwner(s.owners, k)
    ensures At(s.clusters[k].refs, kind) == Some(i)
  {
    CS.StepByPc(s, o, addr);
    var kind' := s.cw.pc.kind;
    var id := At(s.cw.rec.refs, kind').value;
    assert i == id;
    assert RefOk(s.conf, s.cloud, s.cw.k, kind', At(s.cw.rec.refs, kind'), Kept(s.clusters, s.owners, s.cw, s.cw.k));
    CS.OwnedByOne(s.conf, s.cloud, s.cw.k, kind', k, kind, i);
  }

  lemma PassHoldsRefs(s: State)
    requires Shape(s) && s.mw.MBusy? && MS.WorkerOk(s, s.mw) && ReadCluster(s.mw.pc)
    ensures s.mw.pc.MVApp? || BeforeVm(s.mw.pc) || s.mw.pc.XVm? ==> s.mw.refs.vapp.Some?
    ensures s.mw.pc.MGroup? || s.mw.pc.MJoin? || s.mw.pc.XGroup? || s.mw.pc.XLeave? ==> s.mw.refs.ipset.Some?
    ensures s.mw.pc.XVApp? && s.mw.refs.vapp.None? ==> NoVm(s.conf, s.cloud, s.mw.m)
  {
  }

  /**
    Every reference a machine pass dereferences is there and names an existing object of its own cluster: the vApp
    and the IP set are never missing, neither when the machine is reconciled nor when it is deleted.
  */
  lemma MachineNeverMissesItsCluster(s: State)
    requires Reachable(s) && s.mw.MBusy? && ReadCluster(s.mw.pc)
    ensures s.mw.pc.MVApp? || BeforeVm(s.mw.pc) || s.mw.pc.XVm? ==>
              s.mw.refs.vapp.Some? && Named(s.conf, s.cloud, s.mw.m.cluster, VAppKind, s.mw.refs.vapp.value)
    ensures s.mw.pc.MGroup? || s.mw.pc.MJoin? || s.mw.pc.XGroup? || s.mw.pc.XLeave? ==>
              s.mw.refs.ipset.Some? && Named(s.conf, s.cloud, s.mw.m.cluster, IpSetKind, s.mw.refs.ipset.value)
    ensures s.mw.pc.XVApp? ==>
              if s.mw.refs.vapp.Some? then Named(s.conf, s.cloud, s.mw.m.cluster, VAppKind, s.mw.refs.vapp.value)
              else NoVm(s.conf, s.cloud, s.mw.m)
  {
    ReachableInv(s);
    MS.ContextHolds(s);
    PassRefsExist(s);
    PassHoldsRefs(s);
  }

  lemma PassRefsExist(s: State)
    requires MS.Context(s) && ReadCluster(s.mw.pc)
    ensures s.mw.refs.vapp.Some? ==> Named(s.conf, s.cloud, s.mw.m.cluster, VAppKind, s.mw.refs.vapp.value)
    ensures s.mw.refs.ipset.Some? ==> Named(s.conf, s.cloud, s.mw.m.cluster, IpSetKind, s.mw.refs.ipset.value)
  {
    if s.mw.refs.vapp.Some? { MS.ReadRefExists(s, VAppKind); }
    if s.mw.refs.ipset.Some? { MS.ReadRefExists(s, IpSetKind); }
  }

  /** Stored references form a chain, aborted passes included, and a cluster reported ready has all four. */
  lemma RecordedChain(s: State, k: CKey)
    requires Reachable(s) && k in s.clusters
    ensures Chain(s.clusters[k].refs, s.clusters[k].ready)
    ensures k in s.infra ==> Chain(s.clusters[k].refs, true)
  {
    ReachableInv(s);
    assert ClusterOk(s.conf, s.cloud, k, s.clusters[k], Kept(s.clusters, s.owners, s.cw, k));
  }

  /** If a run ever stored Ready for a cluster, nothing under its names is left once its finalizer is gone. */
  lemma NoLeakAfterReady(s: State, es: seq<Event>, t: State, k: CKey)
    requires Reachable(s) && k in s.clusters && s.clusters[k].ready && Runs(s, es, t)
    requires k in t.clusters && !t.clusters[k].finalizer
    ensures forall kind :: Absent(t.conf, t.cloud, k, kind)
  {
    ReachableInv(s);
    RunKeeps(s, es, t);
    StoredFactsStay(s, es, t);
    ReadyAndGone(t, k);
  }

  /** An object that outlives a step keeps its kind and its name. */
  lemma StepKeepsNames(s: State, e: Event, k: CKey, kind: Kind, i: Id)
    requires Shape(s) && Enabled(s, e) && CloudOk(s.conf, s.cloud) && Named(s.conf, s.cloud, k, kind, i)
    requires i in Apply(s, e).cloud.objs
    ensures Named(s.conf, Apply(s, e).cloud, k, kind, i)
  {
    if e.ClusterAct? && ClusterChangesCloud(s.cw.pc) {
      CS.StepByPc(s, e.o, e.addr);
    } else if e.MachineAct? {
      MachineStepKeepsNames(s, e.o, e.nics, k, kind, i);
    }
  }

  lemma MachineStepKeepsNames(s: State, o: Outcome, nics: Option<seq<string>>, k: CKey, kind: Kind, i: Id)
    requires Shape(s) && s.mw.MBusy? && CloudOk(s.conf, s.cloud) && Named(s.conf, s.cloud, k, kind, i)
    requires i in MachineStep(s, o, nics).cloud.objs
    ensures Named(s.conf, MachineStep(s, o, nics).cloud, k, kind, i)
  {
    if MachineChangesCloud(s.mw.pc) { MS.StepByPc(s, o, nics); }
  }

  /** Only an object that is recorded is ever removed. */
  lemma RemovedIsRecorded(s: State, e: Event, k: CKey, kind: Kind, i: Id)
    requires Inv(s) && Enabled(s, e)
    requires Named(s.conf, s.cloud, k, kind, i) && i !in Apply(s, e).cloud.objs
    ensures k in s.clusters && At(s.clusters[k].refs, kind) == Some(i) && Apply(s, e).clusters == s.clusters
  {
    OnlyTeardownRemoves(s, e, k, kind, i);
    DroppedIsOwn(s, e.o, e.addr, k, kind, i);
  }

  lemma {:induction false} StaysUnlessRecorded(s: State, es: seq<Event>, t: State, k: CKey, kind: Kind, i: Id)
    requires Inv(s) && Runs(s, es, t) && k in s.clusters && Named(s.conf, s.cloud, k, kind, i)
    ensures k in t.clusters && (Named(t.conf, t.cloud, k, kind, i) || At(t.clusters[k].refs, kind) == Some(i))
    decreases |es|
  {
    if es != [] {
      var u := Apply(s, es[0]);
      assert Inv(u) by { EventKeeps(s, es[0]); }
      if i in u.cloud.objs {
        StepKeepsNames(s, es[0], k, kind, i);
        assert k in u.clusters by { EventGrows(s, es[0]); }
        StaysUnlessRecorded(u, es[1..], t, k, kind, i);
      } else {
        RemovedIsRecorded(s, es[0], k, kind, i);
        StoredFactsStay(u, es[1..], t);
      }
    }
  }

  /**
    Of what a cluster ever had in the cloud, exactly the objects of a kind that was never recorded are left behind when
    its finalizer is gone.
  */
  lemma LeftBehindExactly(s: State, es: seq<Event>, t: State, k: CKey, kind: Kind, i: Id)
    requires Reachable(s) && Runs(s, es, t) && k in s.clusters && Named(s.conf, s.cloud, k, kind, i)
    requires k in t.clusters && t.clusters[k].Gone()
    ensures Named(t.conf, t.cloud, k, kind, i) <==> At(t.clusters[k].refs, kind).None?
  {
    assert Inv(s) by { ReachableInv(s); }
    StaysUnlessRecorded(s, es, t, k, kind, i);
    assert Inv(t) by { RunKeeps(s, es, t); }
    if At(t.clusters[k].refs, kind).Some? { GoneHasCleared(t, k, kind); }
  }

  lemma GoneHasCleared(s: State, k: CKey, kind: Kind)
    requires Inv(s) && k in s.clusters && s.clusters[k].Gone() && At(s.clusters[k].refs, kind).Some?
    ensures Absent(s.conf, s.cloud, k, kind)
  {
    assert ClusterOk(s.conf, s.cloud, k, s.clusters[k], Kept(s.clusters, s.owners, s.cw, k));
    assert TeardownRank(kind) < 4;
  }

  lemma ReadyAndGone(s: State, k: CKey)
    requires Inv(s) && k in s.clusters && s.clusters[k].ready && !s.clusters[k].finalizer
    ensures forall kind :: Absent(s.conf, s.cloud, k, kind)
  {
    var r := s.clusters[k];
    assert ClusterOk(s.conf, s.cloud, k, r, Kept(s.clusters, s.owners, s.cw, k));
    forall kind ensures Absent(s.conf, s.cloud, k, kind) {
      assert At(r.refs, kind).Some? && TeardownRank(kind) < 4;
    }
  }

  // ----- VMs -----

  /**
    A machine has at most one VM, and only while its finalizer is stored. A stored provider id names that VM, which
    is then powered on; unless the machine is deleted the VM exists.
  */
  lemma VmLifecycle(s: State, m: MKey)
    requires Reachable(s)
    ensures forall i, j | VmOf(s.conf, s.cloud, m, i) && VmOf(s.conf, s.cloud, m, j) :: i == j
    ensures forall i | VmOf(s.conf, s.cloud, m, i) :: m in s.machines && s.machines[m].finalizer
    ensures m in s.machines && s.machines[m].providerId.Some? ==>
              forall i | VmOf(s.conf, s.cloud, m, i) :: s.machines[m].providerId == Some(i) && s.cloud.objs[i].on
    ensures m in s.machines && s.machines[m].providerId.Some? && !s.machines[m].deleting ==>
              VmOf(s.conf, s.cloud, m, s.machines[m].providerId.value)
  {
    assert CloudOk(s.conf, s.cloud) && MachinesOk(s.conf, s.cloud, s.infra, s.owners, s.machines) by {
      ReachableInv(s);
    }
    if m in s.machines {
      assert MachineOk(s.conf, s.cloud, s.infra, s.owners, m, s.machines[m]);
    }
  }

  // ----- the endpoint -----

  /** Every service of a cluster carries exactly the host and port that are stored with the cluster. */
  lemma ServiceCarriesStoredEndpoint(s: State, k: CKey, i: Id)
    requires Reachable(s) && k in s.clusters && Named(s.conf, s.cloud, k, ServiceKind, i)
    ensures s.cloud.objs[i].vip == s.clusters[k].endpoint.host && s.cloud.objs[i].vip != ""
    ensures s.cloud.objs[i].port == s.clusters[k].endpoint.port
  {
    ReachableInv(s);
    assert ClusterOk(s.conf, s.cloud, k, s.clusters[k], Kept(s.clusters, s.owners, s.cw, k));
  }

  /** A pass that finds no stored endpoint changes nothing in the cloud. */
  lemma EndpointIsStoredFirst(s: State, o: Outcome, addr: string)
    requires Reachable(s) && s.cw.CBusy? && !s.cw.rec.deleting
    requires s.clusters[s.cw.k].endpoint.host == ""
    ensures ClusterStep(s, o, addr).cloud == s.cloud
  {
    ReachableInv(s);
  }
}
