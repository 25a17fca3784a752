/** What machine passes without failures achieve, from whatever state earlier failures have left behind. */
module MachineProgress {
  import opened Options
  import opened Clouds
  import opened Protocol
  import opened Invariant
  import opened AllRuns
  import MS = MachineSteps

  /** A bound on the calls a machine pass still makes. */
  function CallsLeft(pc: MPc): nat {
    match pc
    case MFinalizer => 20
    case MGates => 19
    case MCluster => 18
    case MConnect => 17
    case MVApp => 16
    case MCatalog => 15
    case MVmLook => 14
    case MTemplate => 13
    case MVmAdd => 12
    case MVmAgain => 11
    case MConfigure => 10
    case MPower => 9
    case MGroup => 8
    case MJoin => 7
    case MReady => 6
    case XCluster => 8
    case XConnect => 7
    case XGroup => 6
    case XLeave => 5
    case XVApp => 4
    case XVm => 3
    case XDrop => 2
    case XRelease => 1
    case MPatch => 0
  }

  lemma EarlyMoves(s: State, o: Outcome, nics: Option<seq<string>>)
    requires Shape(s) && s.mw.MBusy? && !MTeardown(s.mw.pc) && CallsLeft(s.mw.pc) > 13
    ensures CallsLeft(MachineStep(s, o, nics).mw.pc) < CallsLeft(s.mw.pc)
  {
  }

  lemma LateMoves(s: State, o: Outcome, nics: Option<seq<string>>)
    requires Shape(s) && s.mw.MBusy? && !MTeardown(s.mw.pc) && 0 < CallsLeft(s.mw.pc) <= 13
    ensures CallsLeft(MachineStep(s, o, nics).mw.pc) < CallsLeft(s.mw.pc)
  {
    if MachineChangesCloud(s.mw.pc) { LoudMoves(s, o, nics); } else { MS.PlainSteps(s, o, nics); }
  }

  lemma TeardownMoves(s: State, o: Outcome, nics: Option<seq<string>>)
    requires Shape(s) && s.mw.MBusy? && MTeardown(s.mw.pc)
    ensures CallsLeft(MachineStep(s, o, nics).mw.pc) < CallsLeft(s.mw.pc)
  {
    if MachineChangesCloud(s.mw.pc) { LoudMoves(s, o, nics); } else { TeardownAsks(s, o, nics); }
  }

  lemma TeardownAsks(s: State, o: Outcome, nics: Option<seq<string>>)
    requires Shape(s) && s.mw.MBusy? && MTeardown(s.mw.pc) && !MachineChangesCloud(s.mw.pc)
    ensures CallsLeft(MachineStep(s, o, nics).mw.pc) < CallsLeft(s.mw.pc)
  {
    MS.PlainTeardownSteps(s, o, nics);
  }

  lemma LoudMoves(s: State, o: Outcome, nics: Option<seq<string>>)
    requires Shape(s) && s.mw.MBusy? && MachineChangesCloud(s.mw.pc)
    ensures CallsLeft(MachineStep(s, o, nics).mw.pc) < CallsLeft(s.mw.pc)
  {
    if s.mw.pc.MJoin? || s.mw.pc.XLeave? { WriteMoves(s, o, nics); } else { VmMoves(s, o, nics); }
  }

  lemma WriteMoves(s: State, o: Outcome, nics: Option<seq<string>>)
    requires Shape(s) && s.mw.MBusy? && (s.mw.pc.MJoin? || s.mw.pc.XLeave?)
    ensures CallsLeft(MachineStep(s, o, nics).mw.pc) < CallsLeft(s.mw.pc)
  {
    var done := if s.mw.pc.MJoin? then MReady else XVApp;
    assert MachineStep(s, o, nics) == StepWriteGroup(s, o, done) by { MS.StepByPc(s, o, nics); }
  }

  lemma VmMoves(s: State, o: Outcome, nics: Option<seq<string>>)
    requires Shape(s) && s.mw.MBusy? && (s.mw.pc.MVmAdd? || s.mw.pc.MPower? || s.mw.pc.XDrop?)
    ensures CallsLeft(MachineStep(s, o, nics).mw.pc) < CallsLeft(s.mw.pc)
  {
    MS.StepByPc(s, o, nics);
  }

  /** Whatever the outcomes, a machine pass makes at most twenty-one steps. */
  lemma PassEnds(s: State, o: Outcome, nics: Option<seq<string>>)
    requires Shape(s) && s.mw.MBusy?
    ensures s.mw.pc.MPatch? ==> MachineStep(s, o, nics).mw.MIdle?
    ensures !s.mw.pc.MPatch? ==> CallsLeft(MachineStep(s, o, nics).mw.pc) < CallsLeft(s.mw.pc)
  {
    if MTeardown(s.mw.pc) {
      TeardownMoves(s, o, nics);
    } else if CallsLeft(s.mw.pc) > 13 {
      EarlyMoves(s, o, nics);
    } else if !s.mw.pc.MPatch? {
      LateMoves(s, o, nics);
    }
  }

  /** The rest of the current pass when every call succeeds, including the patch. */
  ghost function Finish(s: State, nics: Option<seq<string>>): (t: State)
    requires Shape(s)
    ensures Shape(t) && t.mw.MIdle? && t.conf == s.conf && t.machines.Keys == s.machines.Keys
    decreases if s.mw.MIdle? then 0 else 1 + CallsLeft(s.mw.pc)
  {
    if s.mw.MIdle? then s
    else
      PassEnds(s, Good, nics);
      Finish(MachineStep(s, Good, nics), nics)
  }

  /** One failure-free pass over machine `m`; `nics` is what the cloud assigns should a VM be added. */
  ghost function Pass(s: State, m: MKey, nics: Option<seq<string>>): (t: State)
    requires Shape(s) && m in s.machines
    ensures Shape(t) && t.mw.MIdle? && t.conf == s.conf && t.machines.Keys == s.machines.Keys
  {
    Finish(MachineBegun(s, m), nics)
  }

  lemma {:induction false} FinishKeeps(s: State, nics: Option<seq<string>>)
    requires Inv(s)
    ensures Inv(Finish(s, nics))
    decreases if s.mw.MIdle? then 0 else 1 + CallsLeft(s.mw.pc)
  {
    if s.mw.MBusy? {
      PassEnds(s, Good, nics);
      MS.MachineStepKeeps(s, Good, nics);
      FinishKeeps(MachineStep(s, Good, nics), nics);
    }
  }

  lemma {:induction false} FinishIsRun(s: State, nics: Option<seq<string>>) returns (es: seq<Event>)
    requires Shape(s)
    ensures Runs(s, es, Finish(s, nics))
    decreases if s.mw.MIdle? then 0 else 1 + CallsLeft(s.mw.pc)
  {
    if s.mw.MIdle? {
      es := [];
    } else {
      PassEnds(s, Good, nics);
      var rest := FinishIsRun(MachineStep(s, Good, nics), nics);
      RunCons(s, MachineAct(Good, nics), rest, Finish(s, nics));
      es := [MachineAct(Good, nics)] + rest;
    }
  }

  lemma PassIsRun(s: State, m: MKey, nics: Option<seq<string>>) returns (es: seq<Event>)
    requires Shape(s) && s.mw.MIdle? && m in s.owners && !s.machines[m].Gone()
    ensures Runs(s, es, Pass(s, m, nics))
  {
    var rest := FinishIsRun(MachineBegun(s, m), nics);
    RunCons(s, MachineBegin(m), rest, Pass(s, m, nics));
    es := [MachineBegin(m)] + rest;
  }

  lemma PatchCommits(s: State, nics: Option<seq<string>>)
    requires Shape(s) && s.mw.MBusy? && s.mw.pc.MPatch?
    ensures Finish(s, nics) == MS.Committed(s)
  {
    MS.StepByPc(s, Good, nics);
    PassEnds(s, Good, nics);
  }

  // ----- deletion -----

  ghost predicate Leaving(s: State)
    requires Shape(s)
  {
    && s.mw.MBusy?
    && s.mw.rec.deleting && s.mw.rec.finalizer && !s.machines[s.mw.m].Gone()
    && (s.conf[s.mw.m.cluster].infraRef ==> s.conf[s.mw.m.cluster].identity && !s.clusters[s.mw.m.cluster].Gone())
    && (MTeardown(s.mw.pc) && !s.mw.pc.XRelease? ==> s.conf[s.mw.m.cluster].infraRef)
    && (s.mw.pc.MFinalizer? || MTeardown(s.mw.pc))
  }

  lemma LeavingGoesOn(s: State, nics: Option<seq<string>>)
    requires MS.Context(s) && Leaving(s) && !s.mw.pc.XRelease?
    ensures Leaving(MachineStep(s, Good, nics)) && MachineStep(s, Good, nics).mw.m == s.mw.m
  {
    if ReadCluster(s.mw.pc) {
      LeavingFinds(s);
    }
    LeavingStep(s, nics);
  }

  /** On the way out the IP set and the vApp the pass refers to are there. */
  ghost predicate Finds(s: State)
    requires s.mw.MBusy?
  {
    && (s.mw.pc.XGroup? || s.mw.pc.XLeave? ==>
          s.mw.refs.ipset.Some? && s.mw.refs.ipset.value in s.cloud.objs && s.cloud.objs[s.mw.refs.ipset.value].Group?)
    && (s.mw.pc.XVApp? && s.mw.refs.vapp.Some? ==> s.mw.refs.vapp.value in s.cloud.objs)
    && (s.mw.pc.XVm? ==> s.mw.refs.vapp.Some?)
  }

  lemma LeavingFinds(s: State)
    requires MS.Context(s) && Leaving(s) && ReadCluster(s.mw.pc)
    ensures Finds(s)
  {
    if s.mw.refs.ipset.Some? { MS.ReadRefExists(s, IpSetKind); }
    if s.mw.refs.vapp.Some? { MS.ReadRefExists(s, VAppKind); }
  }

  lemma LeavingStep(s: State, nics: Option<seq<string>>)
    requires Shape(s) && s.mw.MBusy? && Leaving(s) && !s.mw.pc.XRelease? && (ReadCluster(s.mw.pc) ==> Finds(s))
    ensures Leaving(MachineStep(s, Good, nics))
  {
  }

  lemma {:induction false} LeavingReleases(s: State, nics: Option<seq<string>>)
    requires Inv(s) && s.mw.MBusy? && Leaving(s)
    ensures Finish(s, nics).machines[s.mw.m].Gone()
    decreases CallsLeft(s.mw.pc)
  {
    PassEnds(s, Good, nics);
    var t := MachineStep(s, Good, nics);
    if s.mw.pc.XRelease? {
      ReleaseCommits(s, nics);
    } else {
      assert Leaving(t) && t.mw.m == s.mw.m by {
        MS.ContextHolds(s);
        LeavingGoesOn(s, nics);
      }
      MS.MachineStepKeeps(s, Good, nics);
      LeavingReleases(t, nics);
    }
  }

  lemma ReleaseCommits(s: State, nics: Option<seq<string>>)
    requires Shape(s) && s.mw.MBusy? && Leaving(s) && s.mw.pc.XRelease? && s.machines[s.mw.m].deleting
    ensures Finish(s, nics).machines[s.mw.m].Gone()
  {
    PassEnds(s, Good, nics);
    var t := s.(mw := s.mw.(rec := s.mw.rec.(finalizer := false), pc := MPatch));
    assert MachineStep(s, Good, nics) == t;
    PatchCommits(t, nics);
  }

  lemma BeginsLeaving(s: State, m: MKey)
    requires Reachable(s) && s.mw.MIdle? && m in s.owners && s.machines[m].deleting && s.machines[m].finalizer
    requires s.conf[m.cluster].infraRef ==> s.conf[m.cluster].identity && !s.clusters[m.cluster].Gone()
    ensures var a := MachineBegun(s, m);
            Inv(a) && Leaving(a)
  {
    ReachableInv(s);
    MS.BeginStep(s, m);
  }

  /**
    Whatever an interrupted creation or deletion left behind, one failure-free pass over a deleted machine removes its
    VM and its finalizer, provided its cluster's object still exists and carries an identity.
  */
  lemma OnePassDeletes(s: State, m: MKey, nics: Option<seq<string>>)
    requires Reachable(s) && s.mw.MIdle? && m in s.owners && s.machines[m].deleting && s.machines[m].finalizer
    requires s.conf[m.cluster].infraRef ==> s.conf[m.cluster].identity && !s.clusters[m.cluster].Gone()
    ensures Inv(Pass(s, m, nics))
    ensures Pass(s, m, nics).machines[m].Gone()
    ensures NoVm(s.conf, Pass(s, m, nics).cloud, m)
  {
    var a := MachineBegun(s, m);
    BeginsLeaving(s, m);
    assert Finish(a, nics).machines[m].Gone() by { LeavingReleases(a, nics); }
    assert Inv(Finish(a, nics)) by { FinishKeeps(a, nics); }
    GoneHasNoVm(Finish(a, nics), m);
  }

  /** A pass that cannot reach its cluster keeps the finalizer. */
  lemma LeavingStops(s: State, nics: Option<seq<string>>)
    requires Shape(s) && s.mw.MBusy? && s.mw.pc.MFinalizer? && s.mw.rec.deleting && s.mw.rec.finalizer
    requires s.machines[s.mw.m].finalizer && s.conf[s.mw.m.cluster].infraRef
    requires !s.conf[s.mw.m.cluster].identity || s.clusters[s.mw.m.cluster].Gone()
    ensures Finish(s, nics).machines[s.mw.m].finalizer
  {
    var a := s.(mw := s.mw.(pc := XCluster));
    PassEnds(s, Good, nics);
    assert MachineStep(s, Good, nics) == a;
    LeavingStopsAtCluster(a, nics);
  }

  lemma LeavingStopsAtCluster(s: State, nics: Option<seq<string>>)
    requires Shape(s) && s.mw.MBusy? && s.mw.pc.XCluster? && s.mw.rec.finalizer && s.machines[s.mw.m].finalizer
    requires !s.conf[s.mw.m.cluster].identity || s.clusters[s.mw.m.cluster].Gone()
    ensures Finish(s, nics).machines[s.mw.m].finalizer
  {
    PassEnds(s, Good, nics);
    MS.PlainTeardownSteps(s, Good, nics);
    var b := MachineStep(s, Good, nics);
    if s.clusters[s.mw.m.cluster].Gone() {
      assert b == s.(mw := s.mw.(pc := MPatch));
      PatchCommits(b, nics);
    } else {
      assert b == s.(mw := s.mw.(refs := s.clusters[s.mw.m.cluster].refs, pc := XConnect));
      PassEnds(b, Good, nics);
      MS.PlainTeardownSteps(b, Good, nics);
      var c := b.(mw := b.mw.(pc := MPatch));
      assert MachineStep(b, Good, nics) == c;
      PatchCommits(c, nics);
    }
  }

  /**
    A failure-free pass over a deleted machine releases it exactly when its cluster has no infrastructure reference, or
    the cluster's object still exists and carries an identity.
  */
  lemma DeletionEndsExactly(s: State, m: MKey, nics: Option<seq<string>>)
    requires Reachable(s) && s.mw.MIdle? && m in s.owners && s.machines[m].deleting && s.machines[m].finalizer
    ensures Pass(s, m, nics).machines[m].Gone() <==>
              !s.conf[m.cluster].infraRef || (s.conf[m.cluster].identity && !s.clusters[m.cluster].Gone())
  {
    if !s.conf[m.cluster].infraRef || (s.conf[m.cluster].identity && !s.clusters[m.cluster].Gone()) {
      OnePassDeletes(s, m, nics);
    } else {
      LeavingStops(MachineBegun(s, m), nics);
    }
  }

  lemma GoneHasNoVm(s: State, m: MKey)
    requires Inv(s) && m in s.machines && s.machines[m].Gone()
    ensures NoVm(s.conf, s.cloud, m)
  {
    assert MachineOk(s.conf, s.cloud, s.infra, s.owners, m, s.machines[m]);
  }

  // ----- becoming ready -----

  /** The addresses the cloud gives a VM parse, and a control-plane machine gets at least one. */
  ghost predicate NicsOk(controlPlane: bool, nics: Option<seq<string>>) {
    && (nics.Some? ==> "" !in nics.value)
    && (controlPlane ==> nics.Some? && nics.value != [])
  }

  lemma PicksAnAddress(nics: Option<seq<string>>)
    requires NicsOk(true, nics)
    ensures LastInternal(AddressesOf(nics)) == nics.value[|nics.value| - 1] != ""
  {
    var last := nics.value[|nics.value| - 1];
    assert last in nics.value;
    assert AddressesOf(nics)[|nics.value| - 1] == MachineAddress(InternalIP, last);
  }

  /** What a machine needs from its cluster and the cloud to come up. */
  ghost predicate Suited(s: State, m: MKey, controlPlane: bool, nics: Option<seq<string>>)
    requires Shape(s)
  {
    && m.cluster in s.infra
    && s.conf[m.cluster].identity && !s.clusters[m.cluster].Gone()
    && NetworkAttached(s.conf, s.cloud, m.cluster)
    && NicsOk(controlPlane, nics)
    && VmNicsOk(s.conf, s.cloud, m, controlPlane)
  }

  ghost predicate NetworkAttached(conf: Conf, c: Cloud, k: CKey) {
    forall i | Named(conf, c, k, VAppKind, i) :: c.objs[i].network
  }

  ghost predicate VmNicsOk(conf: Conf, c: Cloud, m: MKey, controlPlane: bool) {
    forall i | VmOf(conf, c, m, i) :: NicsOk(controlPlane, c.objs[i].nics)
  }

  ghost predicate Joining(s: State, nics: Option<seq<string>>)
    requires Shape(s)
  {
    && s.mw.MBusy?
    && Suited(s, s.mw.m, s.mw.rec.controlPlane, nics)
    && !s.mw.rec.deleting && s.mw.rec.finalizer && !s.machines[s.mw.m].deleting
    && !s.mw.pc.MFinalizer? && !MTeardown(s.mw.pc) && !s.mw.pc.MPatch?
    && (s.mw.pc.MVmAgain? ==> !NoVm(s.conf, s.cloud, s.mw.m))
    && (s.mw.pc.MPower? ==> s.mw.vm in s.cloud.objs && s.cloud.objs[s.mw.vm].Vm?)
    && (s.mw.pc.MGroup? || s.mw.pc.MJoin? ==> LastInternal(s.mw.rec.addresses) != "")
  }

  /** The worker after a good call of a pass that joins, where the call leaves the cloud alone. */
  ghost predicate JoinFinds(s: State)
    requires s.mw.MBusy?
  {
    && (s.mw.pc.MVApp? ==> s.mw.refs.vapp.Some? && s.mw.refs.vapp.value in s.cloud.objs)
    && (s.mw.pc.MVApp? && s.mw.rec.providerId.Some? && s.mw.rec.controlPlane ==> LastInternal(s.mw.rec.addresses) != "")
    && (BeforeVm(s.mw.pc) ==> s.mw.refs.vapp.Some?)
    && (s.mw.pc.MVmAgain? ==> FindVm(s.cloud, s.cloud.next, s.mw.refs.vapp.value, s.mw.m.name).Some?)
    && (s.mw.pc.MConfigure? ==> Configurable(s.cloud, s.mw.vm))
    && (s.mw.pc.MGroup? || s.mw.pc.MJoin? ==>
          s.mw.refs.ipset.Some? && s.mw.refs.ipset.value in s.cloud.objs && s.cloud.objs[s.mw.refs.ipset.value].Group?)
  }

  lemma JoinStepQuiet(s: State, nics: Option<seq<string>>)
    requires Shape(s) && Joining(s, nics) && JoinFinds(s) && !MachineChangesCloud(s.mw.pc) && !s.mw.pc.MReady?
    ensures Joining(MachineStep(s, Good, nics), nics)
  {
    if CallsLeft(s.mw.pc) > 13 { JoinStepEarly(s, nics); } else { MS.PlainSteps(s, Good, nics); }
  }

  lemma JoinStepEarly(s: State, nics: Option<seq<string>>)
    requires Shape(s) && Joining(s, nics) && JoinFinds(s) && CallsLeft(s.mw.pc) > 13
    ensures Joining(MachineStep(s, Good, nics), nics)
  {
    MS.PlainSteps(s, Good, nics);
    var t := MachineStep(s, Good, nics);
    assert t == s.(mw := t.mw) && t.mw.rec == s.mw.rec;
    assert Suited(t, t.mw.m, t.mw.rec.controlPlane, nics);
  }

  lemma RecordedPick(s: State, nics: Option<seq<string>>)
    requires MS.Context(s) && Joining(s, nics) && s.mw.rec.providerId.Some? && s.mw.rec.controlPlane
    requires VmOf(s.conf, s.cloud, s.mw.m, s.mw.rec.providerId.value)
    ensures LastInternal(s.mw.rec.addresses) != ""
  {
    PicksAnAddress(s.cloud.objs[s.mw.rec.providerId.value].nics);
  }

  lemma JoinFindsEarly(s: State, nics: Option<seq<string>>)
    requires MS.Context(s) && Joining(s, nics)
    requires s.mw.pc.MVApp? || BeforeVm(s.mw.pc)
    ensures JoinFinds(s)
  {
    assert s.mw.refs.vapp.Some? && s.mw.refs.vapp.value in s.cloud.objs by { MS.ReadRefExists(s, VAppKind); }
    if s.mw.pc.MVApp? {
      if s.mw.rec.providerId.Some? && s.mw.rec.controlPlane { RecordedPick(s, nics); }
    } else if s.mw.pc.MVmAgain? {
      MS.LookupIsTruthful(s);
    }
  }

  lemma JoinFindsLate(s: State, nics: Option<seq<string>>)
    requires MS.Context(s) && Joining(s, nics) && !s.mw.pc.MVApp? && !BeforeVm(s.mw.pc)
    ensures JoinFinds(s)
  {
    if s.mw.pc.MGroup? || s.mw.pc.MJoin? { MS.ReadRefExists(s, IpSetKind); }
  }

  lemma AddJoins(s: State, nics: Option<seq<string>>)
    requires MS.Context(s) && Joining(s, nics) && s.mw.pc.MVmAdd?
    ensures Joining(StepVmAdd(s, Good, nics), nics)
  {
    var t := StepVmAdd(s, Good, nics);
    MS.AddCreates(s, Good, nics);
    assert VmOf(t.conf, t.cloud, t.mw.m, s.cloud.next);
    assert VmNicsOk(t.conf, t.cloud, t.mw.m, t.mw.rec.controlPlane);
    assert NetworkAttached(t.conf, t.cloud, t.mw.m.cluster);
  }

  lemma PowerJoins(s: State, nics: Option<seq<string>>)
    requires MS.Context(s) && Joining(s, nics) && s.mw.pc.MPower?
    ensures Joining(StepPower(s, Good), nics)
  {
    var t := StepPower(s, Good);
    MS.PowerSwitches(s, Good);
    assert VmNicsOk(t.conf, t.cloud, t.mw.m, t.mw.rec.controlPlane);
    assert NetworkAttached(t.conf, t.cloud, t.mw.m.cluster);
    if s.mw.rec.controlPlane { PicksAnAddress(s.cloud.objs[s.mw.vm].nics); }
  }

  lemma WriteJoins(s: State, nics: Option<seq<string>>)
    requires MS.Context(s) && Joining(s, nics) && s.mw.pc.MJoin?
    ensures Joining(StepWriteGroup(s, Good, MReady), nics)
  {
    var t := StepWriteGroup(s, Good, MReady);
    MS.ReadGroupExists(s);
    MS.WriteChanges(s.conf, s.cloud, s.mw.refs.ipset.value, NewIps(s.mw));
    assert VmNicsOk(t.conf, t.cloud, t.mw.m, t.mw.rec.controlPlane);
    assert NetworkAttached(t.conf, t.cloud, t.mw.m.cluster);
  }

  lemma JoiningGoesOn(s: State, nics: Option<seq<string>>)
    requires MS.Context(s) && Joining(s, nics) && !s.mw.pc.MReady?
    ensures Joining(MachineStep(s, Good, nics), nics)
  {
    MS.StepByPc(s, Good, nics);
    if s.mw.pc.MVmAdd? {
      AddJoins(s, nics);
    } else if s.mw.pc.MPower? {
      PowerJoins(s, nics);
    } else if s.mw.pc.MJoin? {
      WriteJoins(s, nics);
    } else {
      if s.mw.pc.MVApp? || BeforeVm(s.mw.pc) { JoinFindsEarly(s, nics); } else { JoinFindsLate(s, nics); }
      JoinStepQuiet(s, nics);
    }
  }

  lemma ReadyCommits(s: State, nics: Option<seq<string>>)
    requires Shape(s) && s.mw.MBusy? && s.mw.pc.MReady? && !s.machines[s.mw.m].Gone()
    ensures Finish(s, nics).machines[s.mw.m].ready
  {
    PassEnds(s, Good, nics);
    var t := s.(mw := s.mw.(rec := s.mw.rec.(ready := true), pc := MPatch));
    assert MachineStep(s, Good, nics) == t;
    PatchCommits(t, nics);
  }

  lemma {:induction false} JoiningReachesReady(s: State, nics: Option<seq<string>>)
    requires Inv(s) && s.mw.MBusy? && Joining(s, nics)
    ensures Finish(s, nics).machines[s.mw.m].ready
    decreases CallsLeft(s.mw.pc)
  {
    PassEnds(s, Good, nics);
    var t := MachineStep(s, Good, nics);
    if s.mw.pc.MReady? {
      ReadyCommits(s, nics);
    } else {
      assert Joining(t, nics) && t.mw.m == s.mw.m by {
        MS.ContextHolds(s);
        JoiningGoesOn(s, nics);
      }
      MS.MachineStepKeeps(s, Good, nics);
      JoiningReachesReady(t, nics);
    }
  }

  lemma FinalizerPass(s: State, m: MKey, nics: Option<seq<string>>)
    requires Shape(s) && s.mw.MIdle? && m in s.machines && !s.machines[m].deleting && !s.machines[m].finalizer
    ensures Pass(s, m, nics) == s.(machines := s.machines[m := s.machines[m].(finalizer := true)])
  {
    var a := MachineBegun(s, m);
    var b := s.(mw := a.mw.(rec := a.mw.rec.(finalizer := true), pc := MPatch));
    PassEnds(a, Good, nics);
    assert MachineStep(a, Good, nics) == b;
    PatchCommits(b, nics);
  }

  /**
    Once its finalizer is stored, one failure-free pass makes an undeleted machine of a suited cluster ready,
    whatever earlier passes left behind: no VM, an unconfigured one, or one whose patch was lost.
  */
  lemma OnePassReadies(s: State, m: MKey, nics: Option<seq<string>>)
    requires Reachable(s) && s.mw.MIdle? && m in s.owners && !s.machines[m].deleting && s.machines[m].finalizer
    requires Suited(s, m, s.machines[m].controlPlane, nics)
    ensures Pass(s, m, nics).machines[m].ready
  {
    ReachableInv(s);
    MS.BeginStep(s, m);
    var a := MachineBegun(s, m);
    var b := s.(mw := a.mw.(pc := MGates));
    PassEnds(a, Good, nics);
    assert MachineStep(a, Good, nics) == b;
    MS.MachineStepKeeps(a, Good, nics);
    JoiningReachesReady(b, nics);
  }
}
