/** A cluster that lacks its identity, its owner or its control-plane reference is ignored. */
module Ignored {
  import opened Options
  import opened Clouds
  import opened Protocol
  import opened Invariant
  import opened AllRuns
  import CS = ClusterSteps
  import MS = MachineSteps
  import N = NonInterference
  import C = Convergence

  /** Nothing has been created, recorded or reported for the cluster. */
  ghost predicate Untouched(s: State, k: CKey) {
    && k in s.clusters && s.clusters[k].refs == NO_REFS && !s.clusters[k].ready
    && forall kind :: Absent(s.conf, s.cloud, k, kind)
  }

  /** A pass over the cluster has not begun to create anything. */
  ghost predicate PassesBy(w: CWorker, k: CKey) {
    w.CBusy? && w.k == k ==> w.rec.refs == NO_REFS && !w.rec.ready && !C.Creating(w.pc)
  }

  lemma OwnStepPassesBy(s: State, o: Outcome, addr: string)
    requires Shape(s) && s.cw.CBusy? && !C.Complete(s.conf[s.cw.k]) && PassesBy(s.cw, s.cw.k)
    requires s.cw.pc.CConnect? || s.cw.pc.CEndpoint? ==> s.conf[s.cw.k].identity
    ensures PassesBy(ClusterStep(s, o, addr).cw, s.cw.k)
    ensures var w := ClusterStep(s, o, addr).cw;
            w.CBusy? && (w.pc.CConnect? || w.pc.CEndpoint?) ==> s.conf[w.k].identity
    ensures ClusterStep(s, o, addr).cloud == s.cloud
    ensures s.clusters[s.cw.k].refs == NO_REFS && !s.clusters[s.cw.k].ready ==>
              var r := ClusterStep(s, o, addr).clusters[s.cw.k]; r.refs == NO_REFS && !r.ready
  {
    if s.cw.pc.DDrop? || s.cw.pc.CPatch? { CS.StepByPc(s, o, addr); }
    if s.cw.pc.DLook? { CS.PlainSteps(s, o, addr); }
  }

  ghost predicate IgnoredSoFar(s: State, k: CKey) {
    && Untouched(s, k) && PassesBy(s.cw, k)
    && (s.cw.CBusy? && s.cw.k == k && (s.cw.pc.CConnect? || s.cw.pc.CEndpoint?) ==> k in s.conf && s.conf[k].identity)
  }

  /** Machine passes create nothing but VMs, and rename nothing. */
  lemma MachineNamesNothing(s: State, o: Outcome, nics: Option<seq<string>>, k: CKey, kind: Kind, i: Id)
    requires Shape(s) && s.mw.MBusy? && Named(s.conf, MachineStep(s, o, nics).cloud, k, kind, i)
    ensures Named(s.conf, s.cloud, k, kind, i)
  {
    if MachineChangesCloud(s.mw.pc) { MS.StepByPc(s, o, nics); }
  }

  lemma OwnStepIgnores(s: State, o: Outcome, addr: string, k: CKey)
    requires Shape(s) && s.cw.CBusy? && s.cw.k == k && IgnoredSoFar(s, k) && !C.Complete(s.conf[k])
    ensures IgnoredSoFar(ClusterStep(s, o, addr), k)
  {
    OwnStepPassesBy(s, o, addr);
  }

  lemma OtherStepIgnores(s: State, o: Outcome, addr: string, k: CKey)
    requires Inv(s) && s.cw.CBusy? && s.cw.k != k && IgnoredSoFar(s, k)
    ensures IgnoredSoFar(ClusterStep(s, o, addr), k)
  {
    var t := ClusterStep(s, o, addr);
    N.OtherRecordStays(s, o, addr, k);
    assert N.SameObjects(s.conf, s.cloud, t.cloud, k) by { N.ClusterStepIsLocal(s, o, addr, k); }
    StillAbsent(s.conf, s.cloud, t.cloud, k);
  }

  lemma MachineStepIgnores(s: State, o: Outcome, nics: Option<seq<string>>, k: CKey)
    requires Shape(s) && s.mw.MBusy? && IgnoredSoFar(s, k)
    ensures IgnoredSoFar(MachineStep(s, o, nics), k)
  {
    var d := MachineStep(s, o, nics).cloud;
    forall kind ensures Absent(s.conf, d, k, kind) {
      forall i ensures !Named(s.conf, d, k, kind, i) {
        assert Absent(s.conf, s.cloud, k, kind);
        if Named(s.conf, d, k, kind, i) { MachineNamesNothing(s, o, nics, k, kind, i); }
      }
    }
  }

  lemma EventIgnores(s: State, e: Event, k: CKey)
    requires Inv(s) && Enabled(s, e) && IgnoredSoFar(s, k) && !C.Complete(s.conf[k])
    ensures IgnoredSoFar(Apply(s, e), k)
  {
    if e.ClusterAct? {
      if s.cw.k == k { OwnStepIgnores(s, e.o, e.addr, k); } else { OtherStepIgnores(s, e.o, e.addr, k); }
    } else if e.MachineAct? {
      MachineStepIgnores(s, e.o, e.nics, k);
    } else {
      QuietEventIgnores(s, e, k);
    }
  }

  lemma QuietEventIgnores(s: State, e: Event, k: CKey)
    requires Shape(s) && Enabled(s, e) && IgnoredSoFar(s, k) && !e.ClusterAct? && !e.MachineAct?
    ensures IgnoredSoFar(Apply(s, e), k)
  {
  }

  lemma StillAbsent(conf: Conf, c: Cloud, d: Cloud, k: CKey)
    requires N.SameObjects(conf, c, d, k) && forall kind :: Absent(conf, c, k, kind)
    ensures forall kind :: Absent(conf, d, k, kind)
  {
    forall kind ensures Absent(conf, d, k, kind) { assert Absent(conf, c, k, kind); }
  }

  lemma {:induction false} RunIgnores(s: State, es: seq<Event>, t: State, k: CKey)
    requires Inv(s) && Runs(s, es, t) && IgnoredSoFar(s, k) && !C.Complete(s.conf[k])
    ensures IgnoredSoFar(t, k)
    decreases |es|
  {
    if es != [] {
      EventKeeps(s, es[0]);
      EventIgnores(s, es[0], k);
      RunIgnores(Apply(s, es[0]), es[1..], t, k);
    }
  }

  /**
    In every reachable state, a cluster without an identity, an owner or a control-plane reference has nothing in the
    cloud, no recorded reference, and is not ready.
  */
  lemma IncompleteClusterIsIgnored(s: State, k: CKey)
    requires Reachable(s) && k in s.clusters
    requires !s.conf[k].identity || !s.conf[k].owner || !s.conf[k].controlPlaneRef
    ensures forall kind :: Absent(s.conf, s.cloud, k, kind)
    ensures s.clusters[k].refs == Refs(None, None, None, None) && !s.clusters[k].ready
  {
    var s0, es :| Init(s0) && Runs(s0, es, s);
    InitEstablishes(s0);
    RunKeepsKeys(s0, es, s);
    RunIgnores(s0, es, s, k);
  }

  lemma {:induction false} RunKeepsKeys(s: State, es: seq<Event>, t: State)
    requires Runs(s, es, t)
    ensures t.conf == s.conf && t.clusters.Keys == s.clusters.Keys
    decreases |es|
  {
    if es != [] { RunKeepsKeys(Apply(s, es[0]), es[1..], t); }
  }

  /**
    A failure-free pass over an undeleted cluster with finalizer and endpoint that is not ready yet ends ready exactly
    when the cluster has its identity, its owner and its control-plane reference.
  */
  lemma PassReadiesExactly(s: State, k: CKey, addr: string)
    requires Reachable(s) && s.cw.CIdle? && k in s.clusters && !s.clusters[k].deleting && addr != ""
    requires s.clusters[k].finalizer && s.clusters[k].endpoint.host != "" && !s.clusters[k].ready
    ensures C.Pass(s, k, addr).clusters[k].ready <==>
              s.conf[k].identity && s.conf[k].owner && s.conf[k].controlPlaneRef
  {
    if C.Complete(s.conf[k]) {
      ReachableInv(s);
      C.ReadyPass(s, k, addr);
    } else {
      C.PassIsReachable(s, k, addr);
      IncompleteClusterIsIgnored(C.Pass(s, k, addr), k);
    }
  }
}
