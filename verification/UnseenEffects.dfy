/** Runs in which a creating call takes effect although it returns an error, and its pass is lost. */
module UnseenEffects {
  import opened Options
  import opened Clouds
  import opened Protocol
  import opened Invariant
  import opened AllRuns
  import opened Convergence
  import opened Network
  import CS = ClusterSteps
  import T = Theorems

  // ----- a cluster that is about to create its resources -----

  /** Nothing has happened yet but that the cluster has its finalizer and its endpoint. */
  ghost predicate Armed(s: State, k: CKey) {
    && Reachable(s) && s.cw.CIdle? && s.mw.MIdle? && s.owners == {}
    && k in s.clusters && Complete(s.conf[k])
    && s.clusters[k] == ClusterRec(true, false, s.clusters[k].endpoint, NO_REFS, false)
    && s.clusters[k].endpoint.host != ""
    && forall kind :: Absent(s.conf, s.cloud, k, kind)
  }

  lemma Arms(s: State, k: CKey, addr: string) returns (t: State)
    requires Init(s) && k in s.clusters && Complete(s.conf[k]) && addr != ""
    ensures Armed(t, k)
  {
    assert Runs(s, [], s);
    InitEstablishes(s);
    var a := Pass(s, k, addr);
    FirstPass(s, k, addr);
    PassIsReachable(s, k, addr);
    if s.clusters[k].endpoint.host == "" {
      t := Pass(a, k, addr);
      ReachableInv(a);
      EndpointPass(a, k, addr);
      PassIsReachable(a, k, addr);
    } else {
      t := a;
    }
  }

  /** The pass at its first lookup. */
  ghost function Looking(s: State, k: CKey): State
    requires k in s.clusters
  {
    s.(cw := CBusy(k, s.clusters[k], CLook(IpSetKind), NO_REFS))
  }

  lemma LookingIsReachable(s: State, k: CKey, addr: string)
    requires Armed(s, k) && addr != ""
    ensures Reachable(Looking(s, k))
  {
    var a := ClusterBegun(s, k);
    var b := a.(cw := a.cw.(pc := CConnect));
    var c := a.(cw := a.cw.(pc := CEndpoint));
    assert Reachable(a) by { ReachableNext(s, ClusterBegin(k)); }
    GateSteps(a, addr);
    assert Reachable(b) by { ReachableNext(a, ClusterAct(Good, addr)); }
    assert Reachable(c) by { ReachableNext(b, ClusterAct(Good, addr)); }
    ReachableNext(c, ClusterAct(Good, addr));
  }

  lemma GateSteps(s: State, addr: string)
    requires Shape(s) && s.cw.CBusy? && s.cw.pc.CFinalizer? && Complete(s.conf[s.cw.k])
    requires s.cw.rec.finalizer && !s.cw.rec.deleting && s.cw.rec.endpoint.host != ""
    ensures ClusterStep(s, Good, addr) == s.(cw := s.cw.(pc := CConnect))
    ensures ClusterStep(s.(cw := s.cw.(pc := CConnect)), Good, addr) == s.(cw := s.cw.(pc := CEndpoint))
    ensures ClusterStep(s.(cw := s.cw.(pc := CEndpoint)), Good, addr) == s.(cw := s.cw.(pc := CLook(IpSetKind)))
  {
  }

  // ----- the effect nobody learns of -----

  /** The object is created, the call returns an error, and the process dies before its patch. */
  ghost function CreatedUnseen(s: State): State
    requires s.cw.CBusy? && s.cw.pc.CMake? && s.cw.k in s.conf
  {
    s.(cloud := Create(s.cloud, NewResource(s.conf[s.cw.k], s.cw.pc.kind, s.cw.rec.endpoint, s.cw.found)), cw := CIdle)
  }

  lemma UnseenIsReachable(s: State, addr: string)
    requires Reachable(s) && s.cw.CBusy? && s.cw.pc.CMake? && addr != ""
    ensures Reachable(CreatedUnseen(s))
  {
    var t := ClusterStep(s, BadApplied, addr);
    CS.StepByPc(s, BadApplied, addr);
    assert Reachable(t) by { ReachableNext(s, ClusterAct(BadApplied, addr)); }
    ReachableNext(t, ClusterCrash);
    assert t.(cw := CIdle) == CreatedUnseen(s);
  }

  lemma UnseenIsThere(s: State)
    requires Reachable(s) && s.cw.CBusy? && s.cw.pc.CMake?
    ensures Named(s.conf, CreatedUnseen(s).cloud, s.cw.k, s.cw.pc.kind, s.cloud.next)
  {
    assert CS.Context(s) by { ReachableInv(s); }
    CS.MakeCreates(s, s.cw.pc.kind);
  }

  // ----- an IP set that is left behind -----

  lemma LookMisses(s: State, kind: Kind, addr: string)
    requires Shape(s) && s.cw.CBusy? && s.cw.pc == CLook(kind) && Absent(s.conf, s.cloud, s.cw.k, kind)
    ensures ClusterStep(s, Good, addr) == s.(cw := s.cw.(pc := AfterMissing(kind, s.cw.found)))
  {
    assert ClusterStep(s, Good, addr) == StepLook(s, kind, Good) by { CS.PlainSteps(s, Good, addr); }
    var hit := Find(s.cloud, s.cloud.next, kind, NameFor(s.conf[s.cw.k], kind));
    assert hit.Some? ==> Named(s.conf, s.cloud, s.cw.k, kind, hit.value);
  }

  lemma FirstMiss(s: State, k: CKey, addr: string)
    requires Armed(s, k) && addr != ""
    ensures var t := Looking(s, k); Reachable(t.(cw := t.cw.(pc := CMake(IpSetKind))))
  {
    LookingIsReachable(s, k, addr);
    LookMisses(Looking(s, k), IpSetKind, addr);
    ReachableNext(Looking(s, k), ClusterAct(Good, addr));
  }

  /** The cluster is marked as deleted. */
  ghost function Marked(s: State, k: CKey): State
    requires k in s.clusters
  {
    s.(clusters := s.clusters[k := s.clusters[k].(deleting := true)])
  }

  lemma UnrecordedIsLeft(s: State, k: CKey, g: Id, addr: string)
    requires Reachable(s) && s.cw.CIdle? && s.owners == {} && k in s.clusters && Complete(s.conf[k]) && addr != ""
    requires s.clusters[k].finalizer && s.clusters[k].refs == NO_REFS && Named(s.conf, s.cloud, k, IpSetKind, g)
    ensures var t := Pass(Marked(s, k), k, addr);
            Reachable(t) && t.clusters[k].Gone() && Named(t.conf, t.cloud, k, IpSetKind, g)
  {
    var u := Marked(s, k);
    assert Reachable(u) by { ReachableNext(s, DeleteCluster(k)); }
    OnePassDeletes(u, k, addr);
    PassIsReachable(u, k, addr);
    var es := PassIsRun(u, k, addr);
    T.LeftBehindExactly(u, es, Pass(u, k, addr), k, IpSetKind, g);
  }

  /**
    From every start state and for every complete cluster in it: the call that creates the IP set takes effect but
    returns an error, the process dies, the cluster is deleted, and one good pass later its finalizer is gone and the
    IP set still there.
  */
  lemma SomeRunLeavesBehind(s: State, k: CKey, addr: string) returns (t: State, g: Id)
    requires Init(s) && k in s.clusters && Complete(s.conf[k]) && addr != ""
    ensures Reachable(t) && k in t.clusters && t.clusters[k].Gone() && Named(t.conf, t.cloud, k, IpSetKind, g)
  {
    var a := Arms(s, k, addr);
    var b := Looking(a, k).(cw := Looking(a, k).cw.(pc := CMake(IpSetKind)));
    FirstMiss(a, k, addr);
    UnseenIsReachable(b, addr);
    UnseenIsThere(b);
    g := b.cloud.next;
    UnrecordedIsLeft(CreatedUnseen(b), k, g, addr);
    t := Pass(Marked(CreatedUnseen(b), k), k, addr);
  }

  // ----- a vApp that misses its network -----

  /** A pass in which no lookup has failed, on its way to creating the vApp. */
  ghost predicate OnTheWay(s: State)
    requires s.cw.CBusy?
  {
    && Creating(s.cw.pc) && HoldsAll(s.cw) && CallsLeft(s.cw.pc) >= CallsLeft(CMake(VAppKind))
    && Absent(s.conf, s.cloud, s.cw.k, VAppKind)
  }

  lemma EarlierStays(s: State, addr: string)
    requires Shape(s) && s.cw.CBusy? && OnTheWay(s) && CallsLeft(s.cw.pc) > CallsLeft(CLook(VAppKind))
    ensures CallsLeft(ClusterStep(s, Good, addr).cw.pc) >= CallsLeft(CMake(VAppKind))
  {
    GoodStepHoldsAll(s, addr);
    if s.cw.pc.CMake? { CS.StepByPc(s, Good, addr); } else { CS.PlainSteps(s, Good, addr); }
  }

  lemma WayGoesOn(s: State, addr: string)
    requires CS.Context(s) && OnTheWay(s) && s.cw.pc != CMake(VAppKind)
    ensures var t := ClusterStep(s, Good, addr);
            t.cw.CBusy? && OnTheWay(t) && t.cw.k == s.cw.k && t == s.(cloud := t.cloud, cw := t.cw)
  {
    var t := ClusterStep(s, Good, addr);
    GoodStepHoldsAll(s, addr);
    if s.cw.pc == CLook(VAppKind) { LookMisses(s, VAppKind, addr); } else { EarlierStays(s, addr); }
    assert SameVApps(s.cloud, t.cloud) by { ClusterKeepsVApps(s, Good, addr); }
    SameVAppsNoNetwork(s.conf, s.cloud, t.cloud, s.cw.k);
  }

  lemma {:induction false} ReachesVApp(s: State, addr: string) returns (t: State)
    requires Reachable(s) && s.cw.CBusy? && OnTheWay(s) && addr != ""
    ensures Reachable(t) && t == s.(cloud := t.cloud, cw := t.cw)
    ensures t.cw.CBusy? && t.cw.k == s.cw.k && t.cw.pc == CMake(VAppKind)
    decreases CallsLeft(s.cw.pc)
  {
    if s.cw.pc == CMake(VAppKind) {
      t := s;
    } else {
      var u := ClusterStep(s, Good, addr);
      assert u.cw.CBusy? && OnTheWay(u) && u.cw.k == s.cw.k && u == s.(cloud := u.cloud, cw := u.cw) by {
        ReachableInv(s);
        WayGoesOn(s, addr);
      }
      assert Reachable(u) by { ReachableNext(s, ClusterAct(Good, addr)); }
      PassEnds(s, Good, addr);
      t := ReachesVApp(u, addr);
    }
  }

  /** A good pass records the vApp it finds, and leaves it as it is. */
  lemma ReadyWithoutNetwork(s: State, k: CKey, i: Id, addr: string) returns (j: Id)
    requires Reachable(s) && s.cw.CIdle? && k in s.clusters && Complete(s.conf[k]) && addr != ""
    requires !s.clusters[k].deleting && Rank(s.clusters[k]) == 1
    requires Named(s.conf, s.cloud, k, VAppKind, i) && !s.cloud.objs[i].network
    ensures var t := Pass(s, k, addr);
            && Reachable(t) && t.clusters[k].ready && !t.clusters[k].deleting
            && Named(t.conf, t.cloud, k, VAppKind, j) && !t.cloud.objs[j].network
  {
    var t := Pass(s, k, addr);
    OnePassReadies(s, k, addr);
    j := ReadyHasVApp(t, k);
    assert NoNetwork(s.conf, t.cloud, k) by { StaysWithoutNetwork(s, k, i, addr); }
  }

  lemma OnePassReadies(s: State, k: CKey, addr: string)
    requires Reachable(s) && s.cw.CIdle? && k in s.clusters && Complete(s.conf[k]) && addr != ""
    requires !s.clusters[k].deleting && Rank(s.clusters[k]) == 1
    ensures var t := Pass(s, k, addr); Reachable(t) && t.clusters[k].ready && !t.clusters[k].deleting
  {
    assert Reachable(Pass(s, k, addr)) by { PassIsReachable(s, k, addr); }
    assert Inv(s) by { ReachableInv(s); }
    ReadyPass(s, k, addr);
  }

  lemma ReadyHasVApp(s: State, k: CKey) returns (j: Id)
    requires Reachable(s) && k in s.clusters && s.clusters[k].ready && !s.clusters[k].deleting
    ensures Named(s.conf, s.cloud, k, VAppKind, j)
  {
    ReachableInv(s);
    assert ClusterOk(s.conf, s.cloud, k, s.clusters[k], Kept(s.clusters, s.owners, s.cw, k));
    assert RefOk(s.conf, s.cloud, k, VAppKind, At(s.clusters[k].refs, VAppKind), true);
    j := s.clusters[k].refs.vapp.value;
  }

  lemma StaysWithoutNetwork(s: State, k: CKey, i: Id, addr: string)
    requires Reachable(s) && s.cw.CIdle? && k in s.clusters && !s.clusters[k].Gone() && addr != ""
    requires Named(s.conf, s.cloud, k, VAppKind, i) && !s.cloud.objs[i].network
    ensures NoNetwork(s.conf, Pass(s, k, addr).cloud, k)
  {
    var es := PassIsRun(s, k, addr);
    MissedNetworkNeverComes(s, es, Pass(s, k, addr), k, i);
  }

  /**
    From every start state and for every complete cluster in it: the call that creates the vApp takes effect but returns
    an error, and the process dies. One good pass later the cluster is ready, and its vApp has no network.
  */
  lemma SomeRunMissesNetwork(s: State, k: CKey, addr: string) returns (t: State, i: Id)
    requires Init(s) && k in s.clusters && Complete(s.conf[k]) && addr != ""
    ensures Reachable(t) && t.cw.CIdle? && t.mw.MIdle? && k in t.clusters && t.clusters[k].ready
    ensures Named(t.conf, t.cloud, k, VAppKind, i) && !t.cloud.objs[i].network
  {
    var a := Arms(s, k, addr);
    var b, j := VAppUnseen(a, k, addr);
    i := ReadyWithoutNetwork(b, k, j, addr);
    t := Pass(b, k, addr);
    PassIsClusterOnly(b, k, addr);
  }

  lemma VAppUnseen(s: State, k: CKey, addr: string) returns (t: State, i: Id)
    requires Armed(s, k) && addr != ""
    ensures Reachable(t) && t == s.(cloud := t.cloud)
    ensures Named(t.conf, t.cloud, k, VAppKind, i) && !t.cloud.objs[i].network
  {
    var b := ComesToVApp(s, k, addr);
    UnseenIsReachable(b, addr);
    UnseenIsThere(b);
    NewVAppHasNoNetwork(b);
    t := CreatedUnseen(b);
    i := b.cloud.next;
  }

  lemma NewVAppHasNoNetwork(s: State)
    requires s.cw.CBusy? && s.cw.pc == CMake(VAppKind) && s.cw.k in s.conf
    ensures var r := CreatedUnseen(s).cloud.objs[s.cloud.next]; r.VApp? && !r.network
  {
  }

  lemma ComesToVApp(s: State, k: CKey, addr: string) returns (t: State)
    requires Armed(s, k) && addr != ""
    ensures Reachable(t) && t == s.(cloud := t.cloud, cw := t.cw)
    ensures t.cw.CBusy? && t.cw.k == k && t.cw.pc == CMake(VAppKind)
  {
    assert Reachable(Looking(s, k)) by { LookingIsReachable(s, k, addr); }
    assert OnTheWay(Looking(s, k)) by { assert Absent(s.conf, s.cloud, k, VAppKind); }
    t := ReachesVApp(Looking(s, k), addr);
  }

  lemma PassIsClusterOnly(s: State, k: CKey, addr: string)
    requires Shape(s) && k in s.clusters
    ensures Pass(s, k, addr).mw == s.mw
  {
    FinishIsClusterOnly(ClusterBegun(s, k), addr);
  }
}
