/** What passes without failures achieve, from whatever state earlier failures have left behind. */
module Convergence {
  import opened Options
  import opened Clouds
  import opened Protocol
  import opened Invariant
  import opened AllRuns
  import CS = ClusterSteps
  import T = Theorems

  // ----- every pass ends -----

  function CreateRank(kind: Kind): nat {
    match kind
    case IpSetKind => 0
    case PoolKind => 1
    case ServiceKind => 2
    case VAppKind => 3
  }

  /** A bound on the calls a pass still makes. */
  function CallsLeft(pc: CPc): nat {
    match pc
    case CFinalizer => 30
    case CConnect => 29
    case CEndpoint => 28
    case CLook(kind) => 27 - 3 * CreateRank(kind)
    case CEngine => 20
    case CMake(kind) => 25 - 3 * CreateRank(kind)
    case CNetwork => 15
    case CAttach => 14
    case CPower => 13
    case CRecord => 12
    case DMachines => 11
    case DConnect => 10
    case DLook(kind) => 9 - 2 * TeardownRank(kind)
    case DDrop(kind) => 8 - 2 * TeardownRank(kind)
    case DRelease => 1
    case CPatch => 0
  }

  lemma LookMoves(s: State, kind: Kind, o: Outcome)
    requires Shape(s) && s.cw.CBusy? && s.cw.pc == CLook(kind)
    ensures CallsLeft(StepLook(s, kind, o).cw.pc) < CallsLeft(s.cw.pc)
  {
  }

  lemma CreationMoves(s: State, o: Outcome, addr: string)
    requires Shape(s) && s.cw.CBusy? && !Teardown(s.cw.pc) && !s.cw.pc.CPatch? && !s.cw.pc.CLook?
    ensures CallsLeft(ClusterStep(s, o, addr).cw.pc) < CallsLeft(s.cw.pc)
  {
  }

  lemma TeardownMoves(s: State, o: Outcome, addr: string)
    requires Shape(s) && s.cw.CBusy? && Teardown(s.cw.pc)
    ensures CallsLeft(ClusterStep(s, o, addr).cw.pc) < CallsLeft(s.cw.pc)
  {
    if s.cw.pc.DDrop? {
      assert ClusterStep(s, o, addr) == StepTeardownDrop(s, s.cw.pc.kind, o) by { CS.StepByPc(s, o, addr); }
    } else if s.cw.pc.DLook? {
      assert ClusterStep(s, o, addr) == StepTeardownLook(s, s.cw.pc.kind, o) by { CS.PlainSteps(s, o, addr); }
      CS.TeardownLookEnds(s, s.cw.pc.kind, o);
    } else {
      CS.PlainSteps(s, o, addr);
    }
  }

  /** Whatever the outcomes, a pass makes at most thirty-one steps. */
  lemma PassEnds(s: State, o: Outcome, addr: string)
    requires Shape(s) && s.cw.CBusy?
    ensures s.cw.pc.CPatch? ==> ClusterStep(s, o, addr).cw.CIdle?
    ensures !s.cw.pc.CPatch? ==> CallsLeft(ClusterStep(s, o, addr).cw.pc) < CallsLeft(s.cw.pc)
  {
    if s.cw.pc.CLook? {
      LookMoves(s, s.cw.pc.kind, o);
    } else if Teardown(s.cw.pc) {
      TeardownMoves(s, o, addr);
    } else if !s.cw.pc.CPatch? {
      CreationMoves(s, o, addr);
    }
  }

  /** The rest of the current pass when every call succeeds, including the patch. */
  ghost function Finish(s: State, addr: string): (t: State)
    requires Shape(s)
    ensures Shape(t) && t.cw.CIdle? && t.conf == s.conf
    decreases if s.cw.CIdle? then 0 else 1 + CallsLeft(s.cw.pc)
  {
    if s.cw.CIdle? then s
    else
      PassEnds(s, Good, addr);
      Finish(ClusterStep(s, Good, addr), addr)
  }

  /** One failure-free pass over cluster `k`. */
  ghost function Pass(s: State, k: CKey, addr: string): (t: State)
    requires Shape(s) && k in s.clusters
    ensures Shape(t) && t.cw.CIdle? && t.conf == s.conf
  {
    Finish(ClusterBegun(s, k), addr)
  }

  /** A failure-free pass is a run of the protocol, so it keeps the invariant. */
  lemma {:induction false} FinishIsRun(s: State, addr: string) returns (es: seq<Event>)
    requires Inv(s) && addr != ""
    ensures Runs(s, es, Finish(s, addr)) && Inv(Finish(s, addr))
    decreases if s.cw.CIdle? then 0 else 1 + CallsLeft(s.cw.pc)
  {
    if s.cw.CIdle? {
      es := [];
    } else {
      PassEnds(s, Good, addr);
      CS.ClusterStepKeeps(s, Good, addr);
      var rest := FinishIsRun(ClusterStep(s, Good, addr), addr);
      RunCons(s, ClusterAct(Good, addr), rest, Finish(s, addr));
      es := [ClusterAct(Good, addr)] + rest;
    }
  }

  lemma PassIsRun(s: State, k: CKey, addr: string) returns (es: seq<Event>)
    requires Reachable(s) && s.cw.CIdle? && k in s.clusters && !s.clusters[k].Gone() && addr != ""
    ensures Runs(s, es, Pass(s, k, addr))
  {
    var a := ClusterBegun(s, k);
    assert Inv(a) by {
      ReachableInv(s);
      CS.BeginStep(s, k);
    }
    var rest := FinishIsRun(a, addr);
    RunCons(s, ClusterBegin(k), rest, Finish(a, addr));
    es := [ClusterBegin(k)] + rest;
  }

  lemma PassIsReachable(s: State, k: CKey, addr: string)
    requires Reachable(s) && s.cw.CIdle? && k in s.clusters && !s.clusters[k].Gone() && addr != ""
    ensures Reachable(Pass(s, k, addr))
  {
    var es := PassIsRun(s, k, addr);
    ReachableGoesOn(s, es, Pass(s, k, addr));
  }

  lemma {:induction false} FinishIsClusterOnly(s: State, addr: string)
    requires Shape(s)
    ensures var t := Finish(s, addr); t == s.(cloud := t.cloud, cw := t.cw, clusters := t.clusters)
    decreases if s.cw.CIdle? then 0 else 1 + CallsLeft(s.cw.pc)
  {
    if s.cw.CBusy? {
      PassEnds(s, Good, addr);
      FinishIsClusterOnly(ClusterStep(s, Good, addr), addr);
    }
  }

  // ----- creating -----

  /** Everything an undeleted cluster needs from its surroundings. */
  predicate Complete(conf: ClusterConf) { conf.identity && conf.owner && conf.controlPlaneRef }

  function KindsDone(pc: CPc): nat {
    match pc
    case CLook(kind) => CreateRank(kind)
    case CMake(kind) => CreateRank(kind)
    case CEngine => 2
    case CNetwork => 4
    case CAttach => 4
    case CPower => 4
    case CRecord => 4
    case _ => 0
  }

  predicate Creating(pc: CPc) {
    pc.CLook? || pc.CEngine? || pc.CMake? || pc.CNetwork? || pc.CAttach? || pc.CPower? || pc.CRecord?
  }

  /** No lookup of this pass has failed: it holds every object it should hold by now. */
  ghost predicate HoldsAll(w: CWorker)
    requires w.CBusy?
  {
    forall kind | CreateRank(kind) < KindsDone(w.pc) :: At(w.found, kind).Some?
  }

  lemma GoodStepHoldsAll(s: State, addr: string)
    requires Shape(s) && s.cw.CBusy? && Creating(s.cw.pc) && !s.cw.pc.CRecord? && HoldsAll(s.cw)
    ensures var w := ClusterStep(s, Good, addr).cw; Creating(w.pc) && HoldsAll(w) && w.rec == s.cw.rec
  {
    var found := s.cw.found;
    assert KindsDone(s.cw.pc) > 0 ==> At(found, IpSetKind).Some?;
    assert KindsDone(s.cw.pc) > 1 ==> At(found, PoolKind).Some?;
    assert KindsDone(s.cw.pc) > 2 ==> At(found, ServiceKind).Some?;
    assert KindsDone(s.cw.pc) > 3 ==> At(found, VAppKind).Some?;
  }

  lemma {:induction false} CreatingReachesReady(s: State, addr: string)
    requires Inv(s) && s.cw.CBusy? && addr != "" && Creating(s.cw.pc) && HoldsAll(s.cw)
    ensures var t := Finish(s, addr);
            t.clusters[s.cw.k].ready && t.clusters[s.cw.k].deleting == s.clusters[s.cw.k].deleting
    decreases CallsLeft(s.cw.pc)
  {
    PassEnds(s, Good, addr);
    var t := ClusterStep(s, Good, addr);
    if s.cw.pc.CRecord? {
      assert At(s.cw.found, IpSetKind).Some? && At(s.cw.found, PoolKind).Some?;
      assert t == s.(cw := s.cw.(rec := RecordRefs(s.cw.rec, s.cw.found), pc := CPatch));
      PatchCommits(t, addr);
    } else {
      CS.ClusterStepKeeps(s, Good, addr);
      GoodStepHoldsAll(s, addr);
      CreatingReachesReady(t, addr);
    }
  }

  lemma PatchCommits(s: State, addr: string)
    requires Shape(s) && s.cw.CBusy? && s.cw.pc.CPatch?
    ensures Finish(s, addr) == CS.Committed(s)
  {
    CS.StepByPc(s, Good, addr);
    PassEnds(s, Good, addr);
  }

  /** A pass up to the first lookup, for a cluster that is complete and has its finalizer and endpoint. */
  lemma GatesOpen(s: State, k: CKey, addr: string) returns (t: State)
    requires Inv(s) && s.cw.CIdle? && k in s.clusters && Complete(s.conf[k])
    requires !s.clusters[k].deleting && s.clusters[k].finalizer && s.clusters[k].endpoint.host != ""
    ensures t == s.(cw := CBusy(k, s.clusters[k], CLook(IpSetKind), NO_REFS)) && Inv(t)
    ensures Pass(s, k, addr) == Finish(t, addr)
  {
    t := s.(cw := CBusy(k, s.clusters[k], CLook(IpSetKind), NO_REFS));
    GatesSteps(s, k, addr);
    FirstLookOk(s.conf, s.cloud, s.clusters[k], s.owners, k);
    CS.MoveWorker(s, t.cw);
  }

  lemma FirstLookOk(conf: Conf, c: Cloud, r: ClusterRec, owners: set<MKey>, k: CKey)
    requires !r.deleting && r.finalizer && r.endpoint.host != ""
    ensures CBusyOk(conf, c, r, owners, CBusy(k, r, CLook(IpSetKind), NO_REFS), true)
  {
  }

  lemma GatesSteps(s: State, k: CKey, addr: string)
    requires Shape(s) && k in s.clusters && Complete(s.conf[k])
    requires !s.clusters[k].deleting && s.clusters[k].finalizer && s.clusters[k].endpoint.host != ""
    ensures Pass(s, k, addr) == Finish(s.(cw := CBusy(k, s.clusters[k], CLook(IpSetKind), NO_REFS)), addr)
  {
    var a := ClusterBegun(s, k);
    var b := s.(cw := a.cw.(pc := CConnect));
    var c := s.(cw := a.cw.(pc := CEndpoint));
    var d := s.(cw := a.cw.(pc := CLook(IpSetKind)));
    assert ClusterStep(a, Good, addr) == b;
    assert ClusterStep(b, Good, addr) == c;
    assert ClusterStep(c, Good, addr) == d;
    assert Finish(a, addr) == Finish(b, addr) == Finish(c, addr) == Finish(d, addr);
  }

  // ----- the rank -----

  /** What an undeleted cluster still lacks: its finalizer, its endpoint, or its recorded resources. */
  function Rank(r: ClusterRec): nat {
    if !r.finalizer then 3 else if r.endpoint.host == "" then 2 else if !r.ready then 1 else 0
  }

  lemma FirstPass(s: State, k: CKey, addr: string)
    requires Inv(s) && s.cw.CIdle? && k in s.clusters && !s.clusters[k].deleting && !s.clusters[k].finalizer
    ensures Pass(s, k, addr) == s.(clusters := s.clusters[k := s.clusters[k].(finalizer := true)])
  {
    var a := ClusterBegun(s, k);
    var b := s.(cw := CBusy(k, s.clusters[k].(finalizer := true), CPatch, NO_REFS));
    assert ClusterStep(a, Good, addr) == b;
    PatchCommits(b, addr);
    assert Finish(a, addr) == Finish(b, addr);
  }

  lemma EndpointPass(s: State, k: CKey, addr: string)
    requires Inv(s) && s.cw.CIdle? && k in s.clusters && s.conf[k].identity
    requires !s.clusters[k].deleting && s.clusters[k].finalizer && s.clusters[k].endpoint.host == ""
    ensures Pass(s, k, addr) == s.(clusters := s.clusters[k := s.clusters[k].(endpoint := Endpoint(addr, API_PORT))])
  {
    var a := ClusterBegun(s, k);
    var b := s.(cw := a.cw.(pc := CConnect));
    var c := s.(cw := a.cw.(pc := CEndpoint));
    var d := s.(cw := CBusy(k, s.clusters[k].(endpoint := Endpoint(addr, API_PORT)), CPatch, NO_REFS));
    assert ClusterStep(a, Good, addr) == b;
    assert ClusterStep(b, Good, addr) == c;
    assert ClusterStep(c, Good, addr) == d;
    PatchCommits(d, addr);
    assert Finish(a, addr) == Finish(b, addr) == Finish(c, addr) == Finish(d, addr);
  }

  lemma ReadyPass(s: State, k: CKey, addr: string)
    requires Inv(s) && s.cw.CIdle? && k in s.clusters && Complete(s.conf[k]) && addr != ""
    requires !s.clusters[k].deleting && s.clusters[k].finalizer && s.clusters[k].endpoint.host != ""
    ensures Pass(s, k, addr).clusters[k].ready && !Pass(s, k, addr).clusters[k].deleting
  {
    var t := GatesOpen(s, k, addr);
    CreatingReachesReady(t, addr);
  }

  // ----- a ready cluster is left alone -----

  /** The pass has found exactly the recorded objects so far. */
  ghost predicate FindsRecorded(s: State)
    requires Shape(s) && s.cw.CBusy?
  {
    var w := s.cw;
    && (w.pc.CLook? || w.pc.CRecord?)
    && w.rec == s.clusters[w.k] && w.rec.ready && !w.rec.deleting && !w.rec.Gone()
    && (forall kind | CreateRank(kind) < KindsDone(w.pc) :: At(w.found, kind) == At(w.rec.refs, kind))
  }

  lemma LookFindsRecorded(s: State, addr: string)
    requires CS.Context(s) && FindsRecorded(s) && s.cw.pc.CLook?
    ensures var t := ClusterStep(s, Good, addr); t == s.(cw := t.cw) && FindsRecorded(t)
  {
    var w := s.cw;
    var kind := w.pc.kind;
    var ref := At(w.rec.refs, kind);
    assert ref.Some?;
    assert RefOk(s.conf, s.cloud, w.k, kind, ref, true);
    var hit := Find(s.cloud, s.cloud.next, kind, NameFor(s.conf[w.k], kind));
    assert Named(s.conf, s.cloud, w.k, kind, ref.value);
    assert hit.Some? && Named(s.conf, s.cloud, w.k, kind, hit.value);
    assert forall kind' :: At(Put(w.found, kind, hit), kind') == if kind' == kind then hit else At(w.found, kind');
  }

  lemma {:induction false} NothingLeftToDo(s: State, addr: string)
    requires Inv(s) && s.cw.CBusy? && addr != "" && FindsRecorded(s)
    ensures Finish(s, addr) == s.(cw := CIdle)
    decreases CallsLeft(s.cw.pc)
  {
    PassEnds(s, Good, addr);
    var t := ClusterStep(s, Good, addr);
    if s.cw.pc.CRecord? {
      assert Chain(s.cw.rec.refs, true);
      RecordingChangesNothing(s, addr);
    } else {
      LookFindsRecorded(s, addr);
      CS.ClusterStepKeeps(s, Good, addr);
      NothingLeftToDo(t, addr);
    }
  }

  lemma RecordingChangesNothing(s: State, addr: string)
    requires Shape(s) && s.cw.CBusy? && FindsRecorded(s) && s.cw.pc.CRecord? && Chain(s.cw.rec.refs, true)
    ensures Finish(s, addr) == s.(cw := CIdle)
  {
    PassEnds(s, Good, addr);
    var t := ClusterStep(s, Good, addr);
    RecordsTheSame(s);
    PatchCommits(t, addr);
    assert CS.Committed(t) == s.(cw := CIdle);
  }

  lemma RecordsTheSame(s: State)
    requires Shape(s) && s.cw.CBusy? && FindsRecorded(s) && s.cw.pc.CRecord? && Chain(s.cw.rec.refs, true)
    ensures RecordRefs(s.cw.rec, s.cw.found) == s.cw.rec
  {
    assert forall kind :: At(s.cw.found, kind) == At(s.cw.rec.refs, kind);
    assert At(s.cw.found, VAppKind) == s.cw.rec.refs.vapp && At(s.cw.found, ServiceKind) == s.cw.rec.refs.service;
    assert At(s.cw.found, PoolKind) == s.cw.rec.refs.pool && At(s.cw.found, IpSetKind) == s.cw.rec.refs.ipset;
  }

  lemma ReadyIsFixed(s: State, k: CKey, addr: string)
    requires Inv(s) && s.cw.CIdle? && k in s.clusters && Complete(s.conf[k]) && addr != ""
    requires !s.clusters[k].deleting && Rank(s.clusters[k]) == 0
    ensures Pass(s, k, addr) == s
  {
    var t := GatesOpen(s, k, addr);
    NothingLeftToDo(t, addr);
  }

  /**
    From any state the failures of earlier passes may have left, a failure-free pass over an undeleted, complete
    cluster lowers the rank; at rank zero it changes neither the cloud nor any object.
  */
  lemma PassMakesProgress(s: State, k: CKey, addr: string)
    requires Inv(s) && s.cw.CIdle? && k in s.clusters && Complete(s.conf[k]) && addr != ""
    requires !s.clusters[k].deleting
    ensures Inv(Pass(s, k, addr)) && !Pass(s, k, addr).clusters[k].deleting
    ensures Rank(s.clusters[k]) > 0 ==> Rank(Pass(s, k, addr).clusters[k]) < Rank(s.clusters[k])
    ensures Rank(s.clusters[k]) == 0 ==> Pass(s, k, addr) == s
  {
    var t := Pass(s, k, addr);
    CS.BeginStep(s, k);
    var es := FinishIsRun(ClusterBegun(s, k), addr);
    T.StoredFactsStay(ClusterBegun(s, k), es, t);
    if !s.clusters[k].finalizer {
      FirstPass(s, k, addr);
    } else if s.clusters[k].endpoint.host == "" {
      EndpointPass(s, k, addr);
    } else if !s.clusters[k].ready {
      ReadyPass(s, k, addr);
    } else {
      ReadyIsFixed(s, k, addr);
    }
  }

  /** A pass that keeps the cluster's rank at zero or lowers it. */
  lemma Advance(s: State, k: CKey, addr: string) returns (t: State)
    requires Inv(s) && s.cw.CIdle? && k in s.clusters && Complete(s.conf[k]) && addr != ""
    requires !s.clusters[k].deleting
    ensures t == Pass(s, k, addr) && Inv(t) && t.cw.CIdle? && t.conf == s.conf && !t.clusters[k].deleting
    ensures Rank(t.clusters[k]) == 0 || Rank(t.clusters[k]) < Rank(s.clusters[k])
  {
    t := Pass(s, k, addr);
    PassMakesProgress(s, k, addr);
  }

  /** Ready, with every reference recorded, and left unchanged by any further failure-free pass. */
  ghost predicate Settled(s: State, k: CKey, addr: string) {
    && Shape(s) && k in s.clusters
    && s.clusters[k].ready && Chain(s.clusters[k].refs, true)
    && Pass(s, k, addr) == s
  }

  lemma OnePassSettles(s: State, k: CKey, addr: string)
    requires Inv(s) && s.cw.CIdle? && k in s.clusters && Complete(s.conf[k]) && addr != ""
    requires !s.clusters[k].deleting && Rank(s.clusters[k]) <= 1
    ensures Settled(Pass(s, k, addr), k, addr)
  {
    var t := Advance(s, k, addr);
    ReadyHasAll(t, k);
    ReadyIsFixed(t, k, addr);
  }

  lemma TwoPassesSettle(s: State, k: CKey, addr: string)
    requires Inv(s) && s.cw.CIdle? && k in s.clusters && Complete(s.conf[k]) && addr != ""
    requires !s.clusters[k].deleting && Rank(s.clusters[k]) <= 2
    ensures Settled(Pass(Pass(s, k, addr), k, addr), k, addr)
  {
    var t := Advance(s, k, addr);
    OnePassSettles(t, k, addr);
  }

  /** Three failure-free passes make an undeleted, complete cluster ready, and a fourth changes nothing. */
  lemma ThreePassesReachReady(s: State, k: CKey, addr: string)
    requires Reachable(s) && s.cw.CIdle? && k in s.clusters && Complete(s.conf[k]) && addr != ""
    requires !s.clusters[k].deleting
    ensures Settled(Pass(Pass(Pass(s, k, addr), k, addr), k, addr), k, addr)
  {
    ReachableInv(s);
    var t := Advance(s, k, addr);
    TwoPassesSettle(t, k, addr);
  }

  lemma ReadyHasAll(s: State, k: CKey)
    requires Inv(s) && k in s.clusters && s.clusters[k].ready
    ensures Chain(s.clusters[k].refs, true)
  {
    assert ClusterOk(s.conf, s.cloud, k, s.clusters[k], Kept(s.clusters, s.owners, s.cw, k));
  }

  // ----- deletion -----

  /** The recorded IP set, if it still exists, has no members. */
  ghost predicate IpSetEmpty(c: Cloud, refs: Refs) {
    refs.ipset.Some? && refs.ipset.value in c.objs && c.objs[refs.ipset.value].Group? ==>
      c.objs[refs.ipset.value].ips == []
  }

  ghost predicate TearingDown(s: State)
    requires Shape(s)
  {
    && s.cw.CBusy?
    && s.cw.rec.deleting && s.cw.rec.finalizer && s.clusters[s.cw.k].deleting && s.clusters[s.cw.k].finalizer
    && s.conf[s.cw.k].owner && s.conf[s.cw.k].identity
    && NoOwner(s.owners, s.cw.k)
    && IpSetEmpty(s.cloud, s.cw.rec.refs)
    && (s.cw.pc.CFinalizer? || Teardown(s.cw.pc))
  }

  lemma TeardownGoesOn(s: State, addr: string)
    requires Shape(s) && TearingDown(s) && !s.cw.pc.DRelease?
    ensures TearingDown(ClusterStep(s, Good, addr)) && ClusterStep(s, Good, addr).cw.k == s.cw.k
    ensures ClusterStep(s, Good, addr).cw.rec == s.cw.rec
  {
  }

  lemma {:induction false} TeardownReleases(s: State, addr: string)
    requires Shape(s) && TearingDown(s)
    ensures Finish(s, addr).clusters[s.cw.k].Gone() && Finish(s, addr).clusters[s.cw.k].refs == s.cw.rec.refs
    decreases CallsLeft(s.cw.pc)
  {
    PassEnds(s, Good, addr);
    var t := ClusterStep(s, Good, addr);
    if s.cw.pc.DRelease? {
      assert t == s.(cw := s.cw.(rec := s.cw.rec.(finalizer := false), pc := CPatch));
      PatchCommits(t, addr);
    } else {
      TeardownGoesOn(s, addr);
      TeardownReleases(t, addr);
    }
  }

  /**
    From any prefix of an interrupted teardown, once no machine is left and the IP set is empty, one failure-free pass
    removes the finalizer and leaves none of the recorded objects in the cloud.
  */
  lemma OnePassDeletes(s: State, k: CKey, addr: string)
    requires Reachable(s) && s.cw.CIdle? && k in s.clusters && addr != ""
    requires s.conf[k].owner && s.conf[k].identity
    requires s.clusters[k].deleting && s.clusters[k].finalizer && NoOwner(s.owners, k)
    requires IpSetEmpty(s.cloud, s.clusters[k].refs)
    ensures var t := Pass(s, k, addr);
            && t.clusters[k].Gone()
            && t.clusters[k].refs == s.clusters[k].refs
            && Cleared(t.conf, t.cloud, k, t.clusters[k].refs, 4)
  {
    ReachableInv(s);
    var a := ClusterBegun(s, k);
    CS.BeginStep(s, k);
    TeardownReleases(a, addr);
    var es := FinishIsRun(a, addr);
    GoneIsCleared(Finish(a, addr), k);
  }

  lemma GoneIsCleared(s: State, k: CKey)
    requires Inv(s) && k in s.clusters && s.clusters[k].Gone()
    ensures Cleared(s.conf, s.cloud, k, s.clusters[k].refs, 4)
  {
    assert ClusterOk(s.conf, s.cloud, k, s.clusters[k], Kept(s.clusters, s.owners, s.cw, k));
  }

  // ----- when deletion does not end -----

  predicate BeforeIpSet(pc: CPc) {
    || pc.CFinalizer? || pc.DMachines? || pc.DConnect?
    || (pc.DLook? && !pc.kind.VAppKind?)
    || (pc.DDrop? && (pc.kind.ServiceKind? || pc.kind.PoolKind?))
  }

  /** A pass over a deleted cluster that has yet to come to the point where it stops, or has stopped there. */
  ghost predicate Blocked(s: State)
    requires Shape(s)
  {
    && s.cw.CBusy? && s.cw.rec.deleting && s.cw.rec.finalizer && s.clusters[s.cw.k].finalizer
    && var conf := s.conf[s.cw.k];
       var pc := s.cw.pc;
       || pc.CPatch?
       || ((!conf.owner || !NoOwner(s.owners, s.cw.k)) && (pc.CFinalizer? || pc.DMachines?))
       || (!conf.identity && (pc.CFinalizer? || pc.DMachines? || pc.DConnect?))
       || (!IpSetEmpty(s.cloud, s.cw.rec.refs) && BeforeIpSet(pc))
  }

  lemma DropSparesGroup(s: State, kind: Kind)
    requires CS.Context(s) && s.cw.pc == DDrop(kind) && (kind.ServiceKind? || kind.PoolKind?)
    ensures At(s.cw.rec.refs, kind).Some?
    ensures var id := At(s.cw.rec.refs, kind).value; id in s.cloud.objs ==> !s.cloud.objs[id].Group?
  {
    assert RefOk(s.conf, s.cloud, s.cw.k, kind, At(s.cw.rec.refs, kind), Kept(s.clusters, s.owners, s.cw, s.cw.k));
  }

  lemma BlockedDrop(s: State, kind: Kind, addr: string)
    requires Shape(s) && Blocked(s) && s.cw.pc == DDrop(kind) && At(s.cw.rec.refs, kind).Some?
    requires var id := At(s.cw.rec.refs, kind).value; id in s.cloud.objs ==> !s.cloud.objs[id].Group?
    ensures Blocked(ClusterStep(s, Good, addr)) && ClusterStep(s, Good, addr).cw.k == s.cw.k
  {
    assert ClusterStep(s, Good, addr) == StepTeardownDrop(s, kind, Good) by { CS.StepByPc(s, Good, addr); }
  }

  lemma BlockedAsk(s: State, addr: string)
    requires Shape(s) && Blocked(s) && !s.cw.pc.DDrop? && !s.cw.pc.CPatch?
    ensures Blocked(ClusterStep(s, Good, addr)) && ClusterStep(s, Good, addr).cw.k == s.cw.k
  {
    if !s.cw.pc.CFinalizer? { CS.PlainSteps(s, Good, addr); }
  }

  lemma {:induction false} BlockedKeepsFinalizer(s: State, addr: string)
    requires Inv(s) && addr != "" && Blocked(s)
    ensures Finish(s, addr).clusters[s.cw.k].finalizer
    decreases CallsLeft(s.cw.pc)
  {
    PassEnds(s, Good, addr);
    if s.cw.pc.CPatch? {
      PatchCommits(s, addr);
    } else {
      var t := ClusterStep(s, Good, addr);
      assert Blocked(t) && t.cw.k == s.cw.k by {
        if s.cw.pc.DDrop? {
          DropSparesGroup(s, s.cw.pc.kind);
          BlockedDrop(s, s.cw.pc.kind, addr);
        } else {
          BlockedAsk(s, addr);
        }
      }
      assert Inv(t) by { CS.ClusterStepKeeps(s, Good, addr); }
      BlockedKeepsFinalizer(t, addr);
    }
  }

  lemma BlockedPass(s: State, k: CKey, addr: string)
    requires Inv(s) && s.cw.CIdle? && k in s.clusters && addr != ""
    requires s.clusters[k].deleting && s.clusters[k].finalizer
    requires || !s.conf[k].owner || !s.conf[k].identity || !NoOwner(s.owners, k)
             || !IpSetEmpty(s.cloud, s.clusters[k].refs)
    ensures Pass(s, k, addr).clusters[k].finalizer
  {
    var a := ClusterBegun(s, k);
    assert Inv(a) by { CS.BeginStep(s, k); }
    BlockedKeepsFinalizer(a, addr);
  }

  /**
    A failure-free pass over a deleted cluster removes the finalizer exactly when the cluster has its owner and its
    identity, no machine is left and the recorded IP set, if it is still there, lists nobody.
  */
  lemma DeletionEndsExactly(s: State, k: CKey, addr: string)
    requires Reachable(s) && s.cw.CIdle? && k in s.clusters && addr != ""
    requires s.clusters[k].deleting && s.clusters[k].finalizer
    ensures Pass(s, k, addr).clusters[k].Gone() <==>
              && s.conf[k].owner && s.conf[k].identity && NoOwner(s.owners, k)
              && IpSetEmpty(s.cloud, s.clusters[k].refs)
  {
    if s.conf[k].owner && s.conf[k].identity && NoOwner(s.owners, k) && IpSetEmpty(s.cloud, s.clusters[k].refs) {
      OnePassDeletes(s, k, addr);
    } else {
      ReachableInv(s);
      BlockedPass(s, k, addr);
    }
  }
}
