/** From every start state with a complete cluster, a run that strands an address. */
module StrandingRun {
  import opened Options
  import opened Clouds
  import opened Protocol
  import opened Invariant
  import opened AllRuns
  import CS = ClusterSteps
  import C = Convergence
  import M = MachineProgress
  import opened Membership
  import opened Network
  import opened Stranding
  import opened Holdup

  // ----- a failure-free pass connects the vApp it creates -----

  /** Every vApp of the pass's cluster has its network, but for the one it is about to connect. */
  ghost predicate ConnectedOrNext(s: State) {
    s.cw.CBusy? && forall i | Named(s.conf, s.cloud, s.cw.k, VAppKind, i) ::
      s.cloud.objs[i].network || ((s.cw.pc.CNetwork? || s.cw.pc.CAttach?) && s.cw.found.vapp == Some(i))
  }

  lemma MakesNext(s: State, addr: string)
    requires CS.Context(s) && s.cw.pc == CMake(VAppKind)
    ensures ConnectedOrNext(ClusterStep(s, Good, addr))
  {
    CS.StepByPc(s, Good, addr);
    CS.MakeCreates(s, VAppKind);
  }

  lemma NextIsConnected(s: State, addr: string)
    requires CS.Context(s) && ConnectedOrNext(s) && s.cw.pc.CAttach?
    ensures ConnectedOrNext(ClusterStep(s, Good, addr))
  {
    CS.StepByPc(s, Good, addr);
  }

  lemma OtherwiseConnected(s: State, addr: string)
    requires CS.Context(s) && ConnectedOrNext(s)
    requires s.cw.pc != CMake(VAppKind) && !s.cw.pc.CAttach? && !s.cw.pc.CPatch?
    ensures ConnectedOrNext(ClusterStep(s, Good, addr))
  {
    if s.cw.pc == DDrop(VAppKind) {
      CS.StepByPc(s, Good, addr);
    } else {
      ClusterKeepsVApps(s, Good, addr);
      if s.cw.pc.CNetwork? { CS.PlainSteps(s, Good, addr); }
    }
  }

  lemma StepConnects(s: State, addr: string)
    requires CS.Context(s) && ConnectedOrNext(s) && !s.cw.pc.CPatch?
    ensures ConnectedOrNext(ClusterStep(s, Good, addr))
  {
    if s.cw.pc == CMake(VAppKind) {
      MakesNext(s, addr);
    } else if s.cw.pc.CAttach? {
      NextIsConnected(s, addr);
    } else {
      OtherwiseConnected(s, addr);
    }
  }

  lemma {:induction false} FinishConnects(s: State, addr: string)
    requires Inv(s) && addr != "" && ConnectedOrNext(s)
    ensures M.NetworkAttached(s.conf, C.Finish(s, addr).cloud, s.cw.k)
    decreases C.CallsLeft(s.cw.pc)
  {
    C.PassEnds(s, Good, addr);
    if s.cw.pc.CPatch? {
      C.PatchCommits(s, addr);
    } else {
      var t := ClusterStep(s, Good, addr);
      assert ConnectedOrNext(t) by { StepConnects(s, addr); }
      assert Inv(t) by { CS.ClusterStepKeeps(s, Good, addr); }
      FinishConnects(t, addr);
    }
  }

  // ----- a cluster that has come up, without machines -----

  /** Nothing has happened but failure-free passes over cluster `k`. */
  ghost predicate ComingUp(s: State, k: CKey) {
    && Reachable(s) && s.cw.CIdle? && s.mw.MIdle? && s.machines == map[]
    && k in s.clusters && !s.clusters[k].Gone() && M.NetworkAttached(s.conf, s.cloud, k)
  }

  lemma PassComesUp(s: State, k: CKey, addr: string)
    requires ComingUp(s, k) && addr != "" && !s.clusters[k].deleting && C.Complete(s.conf[k])
    ensures ComingUp(C.Pass(s, k, addr), k) && !C.Pass(s, k, addr).clusters[k].deleting
    ensures C.Pass(s, k, addr).owners == s.owners
  {
    var b := ClusterBegun(s, k);
    assert Reachable(b) by { ReachableNext(s, ClusterBegin(k)); }
    assert Inv(b) by { ReachableInv(b); }
    FinishConnects(b, addr);
    C.FinishIsClusterOnly(b, addr);
    C.PassIsReachable(s, k, addr);
    assert !C.Pass(s, k, addr).clusters[k].deleting by {
      ReachableInv(s);
      C.PassMakesProgress(s, k, addr);
    }
  }

  ghost function ThreePasses(s: State, k: CKey, addr: string): (t: State)
    requires Shape(s) && k in s.clusters
  {
    C.Pass(C.Pass(C.Pass(s, k, addr), k, addr), k, addr)
  }

  lemma ComesUp(s: State, k: CKey, addr: string)
    requires ComingUp(s, k) && addr != "" && !s.clusters[k].deleting && C.Complete(s.conf[k])
    ensures ComingUp(ThreePasses(s, k, addr), k) && ThreePasses(s, k, addr).clusters[k].ready
    ensures !ThreePasses(s, k, addr).clusters[k].deleting && ThreePasses(s, k, addr).conf == s.conf
    ensures ThreePasses(s, k, addr).owners == s.owners
  {
    var t := C.Pass(s, k, addr);
    PassComesUp(s, k, addr);
    PassComesUp(t, k, addr);
    PassComesUp(C.Pass(t, k, addr), k, addr);
    C.ThreePassesReachReady(s, k, addr);
  }

  // ----- its first machine -----

  /** The cluster is reported ready, and its one machine has its finalizer and nothing else. */
  ghost function FirstMachine(s: State, m: MKey): State {
    s.(infra := s.infra + {m.cluster}, owners := s.owners + {m},
       machines := s.machines[m := MachineRec(true, true, false, None, [], false)])
  }

  lemma FirstMachineIsReachable(s: State, m: MKey, nics: Option<seq<string>>)
    requires ComingUp(s, m.cluster) && s.clusters[m.cluster].ready && !s.clusters[m.cluster].deleting
    requires s.conf[m.cluster].infraRef
    ensures Reachable(FirstMachine(s, m))
  {
    NewMachineIsReachable(s, m);
    FirstMachineIsPass(s, m, nics);
    PassIsReachable(NewMachine(s, m), m, nics);
  }

  lemma FirstMachineIsPass(s: State, m: MKey, nics: Option<seq<string>>)
    requires Shape(NewMachine(s, m)) && s.mw.MIdle?
    ensures M.Pass(NewMachine(s, m), m, nics) == FirstMachine(s, m)
  {
    var b := NewMachine(s, m);
    M.FinalizerPass(b, m, nics);
    assert b.machines[m := b.machines[m].(finalizer := true)] == FirstMachine(s, m).machines;
  }

  ghost function NewMachine(s: State, m: MKey): State {
    s.(infra := s.infra + {m.cluster}, owners := s.owners + {m},
       machines := s.machines[m := MachineRec(true, false, false, None, [], false)])
  }

  lemma NewMachineIsReachable(s: State, m: MKey)
    requires ComingUp(s, m.cluster) && s.clusters[m.cluster].ready && !s.clusters[m.cluster].deleting
    requires s.conf[m.cluster].infraRef
    ensures Reachable(NewMachine(s, m))
  {
    var a := s.(infra := s.infra + {m.cluster});
    assert Reachable(a) by { ReachableNext(s, MirrorReady(m.cluster)); }
    ReachableNext(a, CreateMachine(m, true));
  }

  lemma OneMachineListing(s: State, m: MKey)
    requires Reachable(s) && s.mw.MIdle? && s.machines.Keys == {m} && !s.machines[m].ready
    ensures ListingOk(s)
  {
    forall k, g | Named(s.conf, s.cloud, k, IpSetKind, g)
      ensures NoDuplicates(s.cloud.objs[g].ips) && "" !in s.cloud.objs[g].ips
    {
      MembersAreDistinct(s, k, g);
    }
  }

  lemma FirstMachineUnrecorded(s: State, m: MKey, nics: Option<seq<string>>)
    requires ComingUp(s, m.cluster) && s.clusters[m.cluster].ready && !s.clusters[m.cluster].deleting
    requires s.conf[m.cluster].infraRef && s.conf[m.cluster].identity && M.NicsOk(true, nics)
    ensures Unrecorded(FirstMachine(s, m), m, nics)
  {
    var t := FirstMachine(s, m);
    FirstMachineIsReachable(s, m, nics);
    OneMachineListing(t, m);
    NoVmYet(s, m);
  }

  lemma NoVmYet(s: State, m: MKey)
    requires Reachable(s) && s.machines == map[]
    ensures NoVm(s.conf, s.cloud, m)
  {
    ReachableInv(s);
  }

  lemma StartComesUp(s: State, k: CKey)
    requires Init(s) && k in s.clusters
    ensures ComingUp(s, k) && !s.clusters[k].deleting && s.owners == {}
  {
    assert Runs(s, [], s);
    assert Absent(s.conf, s.cloud, k, VAppKind);
  }

  // ----- and the cluster's deletion never ends -----

  lemma {:induction false} FinishIsMachineOnly(s: State, nics: Option<seq<string>>)
    requires Shape(s)
    ensures var t := M.Finish(s, nics); t == s.(cloud := t.cloud, mw := t.mw, machines := t.machines)
    decreases if s.mw.MIdle? then 0 else 1 + M.CallsLeft(s.mw.pc)
  {
    if s.mw.MBusy? {
      M.PassEnds(s, Good, nics);
      FinishIsMachineOnly(MachineStep(s, Good, nics), nics);
    }
  }

  lemma IpSetIsRecorded(s: State, k: CKey, g: Id)
    requires Reachable(s) && k in s.clusters && s.clusters[k].ready && !s.clusters[k].deleting
    requires Named(s.conf, s.cloud, k, IpSetKind, g)
    ensures s.clusters[k].refs.ipset == Some(g) && s.clusters[k].finalizer
  {
    ReachableInv(s);
    assert ClusterOk(s.conf, s.cloud, k, s.clusters[k], Kept(s.clusters, s.owners, s.cw, k));
    assert RefOk(s.conf, s.cloud, k, IpSetKind, At(s.clusters[k].refs, IpSetKind), true);
  }

  /** The state once the machine's owner is gone and the cluster is marked as deleted. */
  ghost function ClusterDeleted(s: State, m: MKey): State
    requires m.cluster in s.clusters
  {
    s.(owners := s.owners - {m}, clusters := s.clusters[m.cluster := s.clusters[m.cluster].(deleting := true)])
  }

  lemma ClusterDeletedIsReachable(s: State, m: MKey)
    requires Reachable(s) && m in s.owners && s.machines[m].Gone() && m.cluster in s.clusters
    ensures Reachable(ClusterDeleted(s, m))
  {
    var a := s.(owners := s.owners - {m});
    assert Reachable(a) by { ReachableNext(s, OwnerLeaves(m)); }
    ReachableNext(a, DeleteCluster(m.cluster));
  }

  /** The end of the run that loses the patch of the cluster's first machine. */
  ghost function Stranded(s: State, m: MKey, nics: Option<seq<string>>): (t: State)
    requires Shape(s) && m in s.machines
  {
    M.Pass(Deleted(LostPass(s, m, nics), m), m, nics)
  }

  lemma StrandedFrame(s: State, m: MKey, nics: Option<seq<string>>)
    requires Shape(s) && m in s.machines
    ensures var t := Stranded(s, m, nics);
            t.conf == s.conf && t.clusters == s.clusters && t.owners == s.owners && t.cw == s.cw
  {
    FinishIsMachineOnly(MachineBegun(Deleted(LostPass(s, m, nics), m), m), nics);
  }

  lemma StrandedHoldsUp(s: State, m: MKey, g: Id, a: string)
    requires Reachable(s) && s.cw.CIdle? && s.owners == {m} && s.machines[m].Gone() && m.cluster in s.clusters
    requires s.clusters[m.cluster].ready && !s.clusters[m.cluster].deleting && Orphaned(s, m.cluster, g, a)
    ensures Reachable(ClusterDeleted(s, m)) && Undeletable(ClusterDeleted(s, m), m.cluster)
  {
    var u := ClusterDeleted(s, m);
    IpSetIsRecorded(s, m.cluster, g);
    ClusterDeletedIsReachable(s, m);
    forall es, v | Runs(u, es, v) ensures m.cluster in v.clusters && v.clusters[m.cluster].finalizer {
      NonEmptySetHoldsUpForever(u, es, v, m.cluster, g);
    }
  }

  /** No run removes the cluster's finalizer, whatever is retried. */
  ghost predicate Undeletable(s: State, k: CKey) {
    forall es, t | Runs(s, es, t) :: k in t.clusters && t.clusters[k].finalizer
  }

  /**
    For every start state and every complete cluster in it there is a run that loses nothing but the one patch of a
    machine. The machine goes, its address stays in the IP set recorded by nobody, and once the cluster is deleted no
    run whatever gets rid of it.
  */
  lemma SomeRunStrands(s: State, k: CKey, addr: string, name: string, nics: Option<seq<string>>)
      returns (t: State, g: Id, a: string)
    requires Init(s) && k in s.clusters && C.Complete(s.conf[k]) && s.conf[k].infraRef && addr != ""
    requires M.NicsOk(true, nics)
    ensures Reachable(t) && MKey(k, name) in t.machines && t.machines[MKey(k, name)].Gone() && Orphaned(t, k, g, a)
    ensures Reachable(ClusterDeleted(t, MKey(k, name))) && Undeletable(ClusterDeleted(t, MKey(k, name)), k)
  {
    var m := MKey(k, name);
    StartComesUp(s, k);
    ComesUp(s, k, addr);
    var u := ThreePasses(s, k, addr);
    t, g, a := FirstMachineStrands(u, m, nics);
    StrandedHoldsUp(t, m, g, a);
  }

  lemma FirstMachineStrands(s: State, m: MKey, nics: Option<seq<string>>) returns (t: State, g: Id, a: string)
    requires ComingUp(s, m.cluster) && s.clusters[m.cluster].ready && !s.clusters[m.cluster].deleting
    requires s.conf[m.cluster].infraRef && s.conf[m.cluster].identity && M.NicsOk(true, nics) && s.owners == {}
    ensures Reachable(t) && m in t.machines && t.machines[m].Gone() && Orphaned(t, m.cluster, g, a)
    ensures t.cw.CIdle? && t.owners == {m} && t.clusters == s.clusters
  {
    var f := FirstMachine(s, m);
    assert Unrecorded(f, m, nics) by { FirstMachineUnrecorded(s, m, nics); }
    t, g, a := FirstPatchLost(f, m, nics);
  }

  lemma FirstPatchLost(s: State, m: MKey, nics: Option<seq<string>>) returns (t: State, g: Id, a: string)
    requires Unrecorded(s, m, nics)
    ensures Reachable(t) && m in t.machines && t.machines[m].Gone() && Orphaned(t, m.cluster, g, a)
    ensures t.cw == s.cw && t.owners == s.owners && t.clusters == s.clusters
  {
    g, a := AddressOutlivesMachine(s, m, nics);
    t := Stranded(s, m, nics);
    StrandedFrame(s, m, nics);
  }
}
