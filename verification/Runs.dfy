/** The invariant holds in every state of every run. */
module AllRuns {
  import opened Options
  import opened Clouds
  import opened Protocol
  import opened Invariant
  import CS = ClusterSteps
  import MS = MachineSteps

  // ----- what the environment does -----

  lemma RefsOkWeakens(conf: Conf, c: Cloud, k: CKey, refs: Refs, kept: bool, kept': bool)
    requires RefsOk(conf, c, k, refs, kept) && (kept' ==> kept)
    ensures RefsOk(conf, c, k, refs, kept')
  {
    forall kind ensures RefOk(conf, c, k, kind, At(refs, kind), kept') {
      assert RefOk(conf, c, k, kind, At(refs, kind), kept);
    }
  }

  lemma WorkerWeakens(conf: Conf, c: Cloud, st: ClusterRec, owners: set<MKey>, st': ClusterRec, owners': set<MKey>,
                      w: CWorker, kept: bool, kept': bool)
    requires w.CBusy? && CBusyOk(conf, c, st, owners, w, kept) && (kept' ==> kept)
    requires st' == st || st' == st.(deleting := true)
    requires NoOwner(owners, w.k) ==> NoOwner(owners', w.k)
    ensures CBusyOk(conf, c, st', owners', w, kept')
  {
    if w.pc.CPatch? { RefsOkWeakens(conf, c, w.k, w.rec.refs, kept, kept'); }
  }

  lemma OwnersChange(s: State, owners: set<MKey>)
    requires Shape(s)
    requires ClustersOk(s.conf, s.cloud, s.clusters, s.owners, s.cw)
    requires CWorkerOk(s.conf, s.cloud, s.clusters, s.owners, s.cw)
    requires forall k | k in s.clusters && s.clusters[k].deleting && NoOwner(s.owners, k) :: NoOwner(owners, k)
    ensures ClustersOk(s.conf, s.cloud, s.clusters, owners, s.cw)
    ensures CWorkerOk(s.conf, s.cloud, s.clusters, owners, s.cw)
  {
    forall k | k in s.clusters
      ensures ClusterOk(s.conf, s.cloud, k, s.clusters[k], Kept(s.clusters, owners, s.cw, k))
    {
      assert ClusterOk(s.conf, s.cloud, k, s.clusters[k], Kept(s.clusters, s.owners, s.cw, k));
      RefsOkWeakens(s.conf, s.cloud, k, s.clusters[k].refs, Kept(s.clusters, s.owners, s.cw, k),
                    Kept(s.clusters, owners, s.cw, k));
    }
    if s.cw.CBusy? {
      var st := s.clusters[s.cw.k];
      if st.deleting {
        WorkerWeakens(s.conf, s.cloud, st, s.owners, st, owners, s.cw,
                      Kept(s.clusters, s.owners, s.cw, s.cw.k), Kept(s.clusters, owners, s.cw, s.cw.k));
      }
    }
  }

  lemma MachinesAfterCreate(s: State, m: MKey, cp: bool)
    requires MachinesOk(s.conf, s.cloud, s.infra, s.owners, s.machines) && m !in s.machines
    ensures MachinesOk(s.conf, s.cloud, s.infra, s.owners + {m},
                       s.machines[m := MachineRec(cp, false, false, None, [], false)])
  {
    var machines := s.machines[m := MachineRec(cp, false, false, None, [], false)];
    forall m' | m' in machines ensures MachineOk(s.conf, s.cloud, s.infra, s.owners + {m}, m', machines[m']) {
      assert m' != m ==> MachineOk(s.conf, s.cloud, s.infra, s.owners, m', s.machines[m']);
    }
  }

  lemma CreateMachineKeeps(s: State, m: MKey, cp: bool)
    requires Inv(s) && m !in s.machines && m.cluster in s.clusters && !s.clusters[m.cluster].deleting
    ensures Inv(s.(machines := s.machines[m := MachineRec(cp, false, false, None, [], false)],
                   owners := s.owners + {m}))
  {
    OwnersChange(s, s.owners + {m});
    MachinesAfterCreate(s, m, cp);
  }

  lemma OwnerLeavesKeeps(s: State, m: MKey)
    requires Inv(s) && m in s.owners && s.machines[m].Gone()
    ensures Inv(s.(owners := s.owners - {m}))
  {
    OwnersChange(s, s.owners - {m});
    forall m' | m' in s.machines ensures MachineOk(s.conf, s.cloud, s.infra, s.owners - {m}, m', s.machines[m']) {
      assert MachineOk(s.conf, s.cloud, s.infra, s.owners, m', s.machines[m']);
    }
  }

  lemma MachinesAfterMark(s: State, m: MKey)
    requires MachinesOk(s.conf, s.cloud, s.infra, s.owners, s.machines) && m in s.machines
    ensures MachinesOk(s.conf, s.cloud, s.infra, s.owners, s.machines[m := s.machines[m].(deleting := true)])
  {
    var machines := s.machines[m := s.machines[m].(deleting := true)];
    forall m' | m' in machines ensures MachineOk(s.conf, s.cloud, s.infra, s.owners, m', machines[m']) {
      assert MachineOk(s.conf, s.cloud, s.infra, s.owners, m', s.machines[m']);
    }
  }

  lemma DeleteMachineKeeps(s: State, m: MKey)
    requires Inv(s) && m in s.machines
    ensures Inv(s.(machines := s.machines[m := s.machines[m].(deleting := true)]))
  {
    MachinesAfterMark(s, m);
  }

  lemma ClustersAfterMark(s: State, k: CKey)
    requires Shape(s) && k in s.clusters
    requires ClustersOk(s.conf, s.cloud, s.clusters, s.owners, s.cw)
    requires CWorkerOk(s.conf, s.cloud, s.clusters, s.owners, s.cw)
    ensures ClustersOk(s.conf, s.cloud, s.clusters[k := s.clusters[k].(deleting := true)], s.owners, s.cw)
    ensures CWorkerOk(s.conf, s.cloud, s.clusters[k := s.clusters[k].(deleting := true)], s.owners, s.cw)
  {
    var clusters := s.clusters[k := s.clusters[k].(deleting := true)];
    forall k' | k' in clusters
      ensures ClusterOk(s.conf, s.cloud, k', clusters[k'], Kept(clusters, s.owners, s.cw, k'))
    {
      assert ClusterOk(s.conf, s.cloud, k', s.clusters[k'], Kept(s.clusters, s.owners, s.cw, k'));
      RefsOkWeakens(s.conf, s.cloud, k', s.clusters[k'].refs, Kept(s.clusters, s.owners, s.cw, k'),
                    Kept(clusters, s.owners, s.cw, k'));
    }
    if s.cw.CBusy? {
      WorkerWeakens(s.conf, s.cloud, s.clusters[s.cw.k], s.owners, clusters[s.cw.k], s.owners, s.cw,
                    Kept(s.clusters, s.owners, s.cw, s.cw.k), Kept(clusters, s.owners, s.cw, s.cw.k));
    }
  }

  lemma DeleteClusterKeeps(s: State, k: CKey)
    requires Inv(s) && k in s.clusters
    ensures Inv(s.(clusters := s.clusters[k := s.clusters[k].(deleting := true)]))
  {
    ClustersAfterMark(s, k);
  }

  lemma MachineSideAfterMirror(s: State, k: CKey)
    requires Shape(s) && MachinesOk(s.conf, s.cloud, s.infra, s.owners, s.machines)
    requires MWorkerOk(s.conf, s.cloud, s.clusters, s.infra, s.machines, s.mw)
    ensures MachinesOk(s.conf, s.cloud, s.infra + {k}, s.owners, s.machines)
    ensures MWorkerOk(s.conf, s.cloud, s.clusters, s.infra + {k}, s.machines, s.mw)
  {
    forall m | m in s.machines ensures MachineOk(s.conf, s.cloud, s.infra + {k}, s.owners, m, s.machines[m]) {
      assert MachineOk(s.conf, s.cloud, s.infra, s.owners, m, s.machines[m]);
    }
  }

  lemma MirrorReadyKeeps(s: State, k: CKey)
    requires Inv(s) && k in s.clusters && s.clusters[k].ready && s.conf[k].infraRef
    ensures Inv(s.(infra := s.infra + {k}))
  {
    MachineSideAfterMirror(s, k);
  }

  // ----- every event, every run -----

  lemma EventKeeps(s: State, e: Event)
    requires Inv(s) && Enabled(s, e)
    ensures Inv(Apply(s, e))
  {
    if e.ClusterBegin? || e.ClusterAct? || e.ClusterCrash? {
      ClusterEventKeeps(s, e);
    } else if e.MachineBegin? || e.MachineAct? || e.MachineCrash? {
      MachineEventKeeps(s, e);
    } else {
      EnvironmentKeeps(s, e);
    }
  }

  lemma MachineEventKeeps(s: State, e: Event)
    requires Inv(s) && Enabled(s, e) && (e.MachineBegin? || e.MachineAct? || e.MachineCrash?)
    ensures Inv(Apply(s, e))
  {
    match e
    case MachineBegin(m) => MS.BeginStep(s, m);
    case MachineAct(o, nics) => MS.MachineStepKeeps(s, o, nics);
    case MachineCrash => MS.MoveWorker(s, MIdle);
  }

  lemma ClusterEventKeeps(s: State, e: Event)
    requires Inv(s) && Enabled(s, e) && (e.ClusterBegin? || e.ClusterAct? || e.ClusterCrash?)
    ensures Inv(Apply(s, e))
  {
    match e
    case ClusterBegin(k) => CS.BeginStep(s, k);
    case ClusterAct(o, addr) => CS.ClusterStepKeeps(s, o, addr);
    case ClusterCrash => CS.MoveWorker(s, CIdle);
  }

  lemma EnvironmentKeeps(s: State, e: Event)
    requires Inv(s) && Enabled(s, e)
    requires e.CreateMachine? || e.DeleteMachine? || e.OwnerLeaves? || e.DeleteCluster? || e.MirrorReady?
    ensures Inv(Apply(s, e))
  {
    match e
    case CreateMachine(m, cp) => CreateMachineKeeps(s, m, cp);
    case DeleteMachine(m) => DeleteMachineKeeps(s, m);
    case OwnerLeaves(m) => OwnerLeavesKeeps(s, m);
    case DeleteCluster(k) => DeleteClusterKeeps(s, k);
    case MirrorReady(k) => MirrorReadyKeeps(s, k);
  }

  lemma {:induction false} RunKeeps(s: State, es: seq<Event>, t: State)
    requires Inv(s) && Runs(s, es, t)
    ensures Inv(t)
    decreases |es|
  {
    if es != [] {
      EventKeeps(s, es[0]);
      RunKeeps(Apply(s, es[0]), es[1..], t);
    }
  }

  lemma RunCons(s: State, e: Event, es: seq<Event>, t: State)
    requires Shape(s) && Enabled(s, e) && Runs(Apply(s, e), es, t)
    ensures Runs(s, [e] + es, t)
  {
    assert ([e] + es)[1..] == es;
  }

  lemma {:induction false} RunsCompose(s: State, es: seq<Event>, t: State, es': seq<Event>, u: State)
    requires Runs(s, es, t) && Runs(t, es', u)
    ensures Runs(s, es + es', u)
    decreases |es|
  {
    if es == [] {
      assert es + es' == es';
    } else {
      assert (es + es')[0] == es[0] && (es + es')[1..] == es[1..] + es';
      RunsCompose(Apply(s, es[0]), es[1..], t, es', u);
    }
  }

  /** `t` is reached from some start state by some run. */
  ghost predicate Reachable(t: State) {
    Shape(t) && exists s, es :: Init(s) && Runs(s, es, t)
  }

  lemma ReachableGoesOn(s: State, es: seq<Event>, t: State)
    requires Reachable(s) && Runs(s, es, t)
    ensures Reachable(t)
  {
    var s0, before :| Init(s0) && Runs(s0, before, s);
    RunsCompose(s0, before, s, es, t);
    RunHasShape(s, es, t);
  }

  lemma {:induction false} RunHasShape(s: State, es: seq<Event>, t: State)
    requires Runs(s, es, t)
    ensures Shape(t)
    decreases |es|
  {
    if es != [] { RunHasShape(Apply(s, es[0]), es[1..], t); }
  }

  lemma ReachableNext(s: State, e: Event)
    requires Reachable(s) && Enabled(s, e)
    ensures Reachable(Apply(s, e))
  {
    var t := Apply(s, e);
    assert Runs(t, [], t);
    RunCons(s, e, [], t);
    ReachableGoesOn(s, [e] + [], t);
  }

  lemma ReachableInv(t: State)
    requires Reachable(t)
    ensures Inv(t)
  {
    var s, es :| Init(s) && Runs(s, es, t);
    InitEstablishes(s);
    RunKeeps(s, es, t);
  }
}
