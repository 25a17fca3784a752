/** A deleted cluster whose IP set is not empty stays for good. */
module Holdup {
  import opened Options
  import opened Clouds
  import opened Protocol
  import opened Invariant
  import opened AllRuns
  import CS = ClusterSteps
  import MS = MachineSteps
  import N = NonInterference

  predicate PastIpSet(pc: CPc) {
    pc == DDrop(IpSetKind) || pc == DLook(VAppKind) || pc == DDrop(VAppKind) || pc.DRelease?
  }

  /** The stored cluster waits for an IP set that lists someone although no machine is left to leave it. */
  ghost predicate HeldUpRecord(clusters: map<CKey, ClusterRec>, owners: set<MKey>, k: CKey, g: Id) {
    && k in clusters && clusters[k].deleting && clusters[k].finalizer && clusters[k].refs.ipset == Some(g)
    && NoOwner(owners, k)
  }

  ghost predicate HeldUp(s: State, k: CKey, g: Id) {
    && HeldUpRecord(s.clusters, s.owners, k, g)
    && Named(s.conf, s.cloud, k, IpSetKind, g) && s.cloud.objs[g].ips != []
    && (s.cw.CBusy? && s.cw.k == k ==> s.cw.rec.finalizer && !PastIpSet(s.cw.pc))
  }

  lemma OwnStepSparesGroup(s: State, o: Outcome, addr: string, g: Id)
    requires CS.Context(s) && HeldUp(s, s.cw.k, g)
    ensures g in ClusterStep(s, o, addr).cloud.objs && ClusterStep(s, o, addr).cloud.objs[g] == s.cloud.objs[g]
  {
    if ClusterChangesCloud(s.cw.pc) { CS.StepByPc(s, o, addr); }
    if s.cw.pc.DDrop? {
      var kind := s.cw.pc.kind;
      assert RefOk(s.conf, s.cloud, s.cw.k, kind, At(s.cw.rec.refs, kind), Kept(s.clusters, s.owners, s.cw, s.cw.k));
    }
  }

  lemma OwnPcStops(s: State, o: Outcome, addr: string, g: Id)
    requires Shape(s) && s.cw.CBusy? && HeldUp(s, s.cw.k, g) && !s.cw.pc.CPatch?
    requires s.cw.rec.refs.ipset == Some(g)
    ensures var w := ClusterStep(s, o, addr).cw;
            w.CBusy? && w.k == s.cw.k && w.rec.finalizer && !PastIpSet(w.pc)
  {
    if ClusterChangesCloud(s.cw.pc) {
      LoudPcStops(s, o, addr);
    } else if s.cw.pc.DLook? {
      LookStops(s, o, addr, g);
    } else {
      PlainPcStops(s, o, addr);
    }
  }

  lemma LoudPcStops(s: State, o: Outcome, addr: string)
    requires Shape(s) && s.cw.CBusy? && s.cw.rec.finalizer && !PastIpSet(s.cw.pc) && ClusterChangesCloud(s.cw.pc)
    ensures ClusterStep(s, o, addr).cw.rec.finalizer && !PastIpSet(ClusterStep(s, o, addr).cw.pc)
  {
    CS.StepByPc(s, o, addr);
  }

  lemma PlainPcStops(s: State, o: Outcome, addr: string)
    requires Shape(s) && s.cw.CBusy? && s.cw.rec.finalizer && !PastIpSet(s.cw.pc)
    requires !ClusterChangesCloud(s.cw.pc) && !s.cw.pc.DLook? && !s.cw.pc.CPatch?
    ensures ClusterStep(s, o, addr).cw.rec.finalizer && !PastIpSet(ClusterStep(s, o, addr).cw.pc)
  {
    if !s.cw.pc.CFinalizer? && !s.cw.pc.CEndpoint? { CS.PlainSteps(s, o, addr); }
  }

  lemma LookStops(s: State, o: Outcome, addr: string, g: Id)
    requires Shape(s) && s.cw.CBusy? && HeldUp(s, s.cw.k, g) && s.cw.pc.DLook? && s.cw.rec.refs.ipset == Some(g)
    ensures ClusterStep(s, o, addr).cw == s.cw.(pc := ClusterStep(s, o, addr).cw.pc)
    ensures !PastIpSet(ClusterStep(s, o, addr).cw.pc)
  {
    assert ClusterStep(s, o, addr) == StepTeardownLook(s, s.cw.pc.kind, o) by { CS.PlainSteps(s, o, addr); }
  }

  lemma OwnPatchHolds(s: State, o: Outcome, addr: string, g: Id)
    requires CS.Context(s) && HeldUp(s, s.cw.k, g) && s.cw.pc.CPatch?
    ensures HeldUp(ClusterStep(s, o, addr), s.cw.k, g)
  {
    CS.StepByPc(s, o, addr);
    assert At(s.clusters[s.cw.k].refs, IpSetKind).Some? ==>
        At(s.cw.rec.refs, IpSetKind) == At(s.clusters[s.cw.k].refs, IpSetKind);
  }

  lemma OwnStepHolds(s: State, o: Outcome, addr: string, g: Id)
    requires CS.Context(s) && HeldUp(s, s.cw.k, g)
    ensures HeldUp(ClusterStep(s, o, addr), s.cw.k, g)
  {
    if s.cw.pc.CPatch? {
      OwnPatchHolds(s, o, addr, g);
    } else {
      OwnStepSparesGroup(s, o, addr, g);
      OwnPcStops(s, o, addr, g);
    }
  }

  lemma OtherStepHolds(s: State, o: Outcome, addr: string, k: CKey, g: Id)
    requires Inv(s) && s.cw.CBusy? && s.cw.k != k && HeldUp(s, k, g)
    ensures HeldUp(ClusterStep(s, o, addr), k, g) && ClusterStep(s, o, addr).cloud.objs[g] == s.cloud.objs[g]
  {
    var t := ClusterStep(s, o, addr);
    assert N.SameObjects(s.conf, s.cloud, t.cloud, k) by { N.ClusterStepIsLocal(s, o, addr, k); }
    N.OtherRecordStays(s, o, addr, k);
  }

  /** No machine pass writes the list: the writers' machines still have their owners. */
  lemma MachineSparesGroup(s: State, o: Outcome, nics: Option<seq<string>>, k: CKey, g: Id)
    requires MS.Context(s) && HeldUp(s, k, g)
    ensures g in MachineStep(s, o, nics).cloud.objs && MachineStep(s, o, nics).cloud.objs[g] == s.cloud.objs[g]
  {
    if s.mw.pc.MJoin? || s.mw.pc.XLeave? {
      WriterIsElsewhere(s, k, g);
    }
    GroupUntouched(s, o, nics, g);
  }

  lemma GroupUntouched(s: State, o: Outcome, nics: Option<seq<string>>, g: Id)
    requires Shape(s) && s.mw.MBusy? && (forall i | i in s.cloud.objs :: i < s.cloud.next)
    requires g in s.cloud.objs && s.cloud.objs[g].Group?
    requires s.mw.pc.MJoin? || s.mw.pc.XLeave? ==> s.mw.refs.ipset != Some(g)
    requires s.mw.pc.XDrop? ==> s.mw.vm != g
    ensures g in MachineStep(s, o, nics).cloud.objs && MachineStep(s, o, nics).cloud.objs[g] == s.cloud.objs[g]
  {
    if MachineChangesCloud(s.mw.pc) { MS.StepByPc(s, o, nics); }
  }

  lemma WriterIsElsewhere(s: State, k: CKey, g: Id)
    requires MS.Context(s) && (s.mw.pc.MJoin? || s.mw.pc.XLeave?)
    requires NoOwner(s.owners, k) && Named(s.conf, s.cloud, k, IpSetKind, g)
    ensures s.mw.refs.ipset != Some(g)
  {
    WriterHasOwner(s);
    MS.ReadRefExists(s, IpSetKind);
    if s.mw.refs.ipset == Some(g) {
      CS.OwnedByOne(s.conf, s.cloud, k, IpSetKind, s.mw.m.cluster, IpSetKind, g);
    }
  }

  lemma WriterHasOwner(s: State)
    requires MS.Context(s) && (s.mw.pc.MJoin? || s.mw.pc.XLeave?)
    ensures s.mw.m in s.owners && s.mw.refs.ipset.Some?
  {
  }

  lemma EventHolds(s: State, e: Event, k: CKey, g: Id)
    requires Inv(s) && Enabled(s, e) && HeldUp(s, k, g)
    ensures HeldUp(Apply(s, e), k, g) && Apply(s, e).cloud.objs[g] == s.cloud.objs[g]
  {
    if e.ClusterAct? {
      if s.cw.k == k {
        OwnStepHolds(s, e.o, e.addr, g);
        OwnStepSparesGroup(s, e.o, e.addr, g);
      } else {
        OtherStepHolds(s, e.o, e.addr, k, g);
      }
    } else if e.MachineAct? {
      MS.ContextHolds(s);
      MachineSparesGroup(s, e.o, e.nics, k, g);
    } else {
      QuietEventHolds(s, e, k, g);
    }
  }

  lemma QuietEventHolds(s: State, e: Event, k: CKey, g: Id)
    requires Shape(s) && Enabled(s, e) && HeldUp(s, k, g) && !e.ClusterAct? && !e.MachineAct?
    ensures HeldUp(Apply(s, e), k, g) && Apply(s, e).cloud == s.cloud
  {
  }

  lemma {:induction false} RunHolds(s: State, es: seq<Event>, t: State, k: CKey, g: Id)
    requires Inv(s) && HeldUp(s, k, g) && Runs(s, es, t)
    ensures HeldUp(t, k, g) && t.cloud.objs[g] == s.cloud.objs[g]
    decreases |es|
  {
    if es != [] {
      EventKeeps(s, es[0]);
      EventHolds(s, es[0], k, g);
      RunHolds(Apply(s, es[0]), es[1..], t, k, g);
    }
  }

  // ----- a pass already under way -----

  /** A pass deletes the IP set only while that lists nobody. */
  ghost predicate DropsEmpty(s: State) {
    s.cw.CBusy? && s.cw.pc == DDrop(IpSetKind) ==>
      forall g | Named(s.conf, s.cloud, s.cw.k, IpSetKind, g) :: s.cloud.objs[g].ips == []
  }

  lemma LooksBeforeDrop(s: State, o: Outcome, addr: string)
    requires CS.Context(s)
    ensures DropsEmpty(ClusterStep(s, o, addr))
  {
    var t := ClusterStep(s, o, addr);
    if t.cw.CBusy? && t.cw.pc == DDrop(IpSetKind) {
      ComesFromLook(s, o, addr);
      var ref := At(s.cw.rec.refs, IpSetKind);
      assert RefOk(s.conf, s.cloud, s.cw.k, IpSetKind, ref, Kept(s.clusters, s.owners, s.cw, s.cw.k));
    }
  }

  lemma ComesFromLook(s: State, o: Outcome, addr: string)
    requires Shape(s) && s.cw.CBusy? && ClusterStep(s, o, addr).cw.CBusy?
    requires ClusterStep(s, o, addr).cw.pc == DDrop(IpSetKind)
    ensures s.cw.pc == DLook(IpSetKind) && ClusterStep(s, o, addr) == StepTeardownLook(s, IpSetKind, o)
  {
    if ClusterChangesCloud(s.cw.pc) || s.cw.pc.CPatch? {
      CS.StepByPc(s, o, addr);
    } else {
      CS.PlainSteps(s, o, addr);
    }
  }

  lemma MachineKeepsEmpty(s: State, o: Outcome, nics: Option<seq<string>>)
    requires MS.Context(s) && DropsEmpty(s) && (s.cw.CBusy? ==> CS.Context(s))
    requires forall i | i in s.cloud.objs :: i < s.cloud.next
    ensures DropsEmpty(MachineStep(s, o, nics))
  {
    var t := MachineStep(s, o, nics);
    if s.cw.CBusy? && s.cw.pc == DDrop(IpSetKind) {
      forall g | Named(s.conf, t.cloud, s.cw.k, IpSetKind, g) ensures t.cloud.objs[g].ips == [] {
        GroupWasThere(s, o, nics, g);
        if s.mw.pc.MJoin? || s.mw.pc.XLeave? { WriterIsElsewhere(s, s.cw.k, g); }
        GroupUntouched(s, o, nics, g);
      }
    }
  }

  /** Machine passes neither create groups nor rename them. */
  lemma GroupWasThere(s: State, o: Outcome, nics: Option<seq<string>>, g: Id)
    requires Shape(s) && s.mw.MBusy? && g in MachineStep(s, o, nics).cloud.objs
    requires MachineStep(s, o, nics).cloud.objs[g].Group?
    ensures g in s.cloud.objs && s.cloud.objs[g].Group?
    ensures s.cloud.objs[g] == MachineStep(s, o, nics).cloud.objs[g].(ips := s.cloud.objs[g].ips)
  {
    if MachineChangesCloud(s.mw.pc) { MS.StepByPc(s, o, nics); }
  }

  lemma EventDropsEmpty(s: State, e: Event)
    requires Inv(s) && Enabled(s, e) && DropsEmpty(s)
    ensures DropsEmpty(Apply(s, e))
  {
    if e.ClusterAct? {
      LooksBeforeDrop(s, e.o, e.addr);
    } else if e.MachineAct? {
      MS.ContextHolds(s);
      MachineKeepsEmpty(s, e.o, e.nics);
    }
  }

  lemma {:induction false} RunDropsEmpty(s: State, es: seq<Event>, t: State)
    requires Inv(s) && DropsEmpty(s) && Runs(s, es, t)
    ensures DropsEmpty(t)
    decreases |es|
  {
    if es != [] {
      EventKeeps(s, es[0]);
      EventDropsEmpty(s, es[0]);
      RunDropsEmpty(Apply(s, es[0]), es[1..], t);
    }
  }

  /** So a pass over the cluster that is under way has not got past the IP set. */
  lemma PassIsHeldUp(s: State, k: CKey, g: Id)
    requires CS.Context(s) && s.cw.k == k && DropsEmpty(s) && HeldUpRecord(s.clusters, s.owners, k, g)
    requires Named(s.conf, s.cloud, k, IpSetKind, g) && s.cloud.objs[g].ips != []
    ensures s.cw.rec.finalizer && !PastIpSet(s.cw.pc)
  {
    assert At(s.clusters[k].refs, IpSetKind) == Some(g);
    assert s.cw.pc.CPatch? ==> At(s.cw.rec.refs, IpSetKind) == Some(g);
  }

  /**
    Once a deleted cluster has no machines left and its recorded IP set still lists someone, no run whatever changes
    the list or removes the finalizer.
  */
  lemma NonEmptySetHoldsUpForever(s: State, es: seq<Event>, t: State, k: CKey, g: Id)
    requires Reachable(s) && Runs(s, es, t) && HeldUpRecord(s.clusters, s.owners, k, g)
    requires g in s.cloud.objs && s.cloud.objs[g].Group? && s.cloud.objs[g].ips != []
    ensures k in t.clusters && t.clusters[k].finalizer
    ensures g in t.cloud.objs && t.cloud.objs[g] == s.cloud.objs[g]
  {
    assert Inv(s) by { ReachableInv(s); }
    assert HeldUp(s, k, g) by { StartsHeldUp(s, k, g); }
    RunHolds(s, es, t, k, g);
  }

  lemma StartsHeldUp(s: State, k: CKey, g: Id)
    requires Reachable(s) && HeldUpRecord(s.clusters, s.owners, k, g)
    requires g in s.cloud.objs && s.cloud.objs[g].Group? && s.cloud.objs[g].ips != []
    ensures HeldUp(s, k, g)
  {
    var s0, before :| Init(s0) && Runs(s0, before, s);
    InitEstablishes(s0);
    RunDropsEmpty(s0, before, s);
    ReachableInv(s);
    assert Named(s.conf, s.cloud, k, IpSetKind, g) by {
      assert ClusterOk(s.conf, s.cloud, k, s.clusters[k], Kept(s.clusters, s.owners, s.cw, k));
      assert RefOk(s.conf, s.cloud, k, IpSetKind, At(s.clusters[k].refs, IpSetKind),
                   Kept(s.clusters, s.owners, s.cw, k));
    }
    if s.cw.CBusy? && s.cw.k == k { PassIsHeldUp(s, k, g); }
  }
}
