/** No VM is started before it could be configured. */
module Starting {
  import opened Options
  import opened Clouds
  import opened Protocol
  import opened Invariant
  import opened AllRuns
  import CS = ClusterSteps
  import MS = MachineSteps

  /** Every VM of a machine that is on, and the one a pass is about to power on, could be configured. */
  ghost predicate StartsOk(s: State) {
    && (forall m, i | VmOf(s.conf, s.cloud, m, i) && s.cloud.objs[i].on :: Configurable(s.cloud, i))
    && (s.mw.MBusy? && s.mw.pc.MPower? && s.mw.vm in s.cloud.objs ==> Configurable(s.cloud, s.mw.vm))
  }

  /** A change that leaves a VM and its vApp in place, connected if it was, and switches nothing on. */
  ghost predicate LeavesVms(c: Cloud, d: Cloud, but: Id) {
    && (forall i | i in c.objs && i in d.objs && c.objs[i].Vm? ::
          d.objs[i].Vm? && d.objs[i] == c.objs[i].(on := d.objs[i].on) && (d.objs[i].on ==> c.objs[i].on || i == but))
    && (forall i | i in c.objs && i in d.objs && c.objs[i].VApp? ::
          d.objs[i].VApp? && (c.objs[i].network ==> d.objs[i].network))
    && (forall i | && i in c.objs && c.objs[i].Vm? && i in d.objs
                   && c.objs[i].vapp in c.objs && c.objs[c.objs[i].vapp].VApp? :: c.objs[i].vapp in d.objs)
    && (forall i | i in d.objs && i !in c.objs :: !(d.objs[i].Vm? && d.objs[i].on))
    && (forall i | i in c.objs && i in d.objs && d.objs[i].Vm? :: c.objs[i].Vm?)
  }

  lemma StaysConfigurable(c: Cloud, d: Cloud, but: Id, i: Id)
    requires LeavesVms(c, d, but) && Configurable(c, i) && i in d.objs
    ensures Configurable(d, i)
  {
  }

  lemma CreateLeaves(c: Cloud, r: Resource, but: Id)
    requires (forall i | i in c.objs :: i < c.next) && !(r.Vm? && r.on)
    ensures LeavesVms(c, Create(c, r), but)
  {
  }

  lemma UpdateLeaves(c: Cloud, id: Id, r: Resource, but: Id)
    requires id in c.objs
    requires || (c.objs[id].Group? && r.Group?)
             || (c.objs[id].VApp? && r.VApp? && (c.objs[id].network ==> r.network))
             || (c.objs[id].Vm? && r == c.objs[id].(on := true) && id == but)
    ensures LeavesVms(c, Update(c, id, r), but)
  {
  }

  lemma DropLeaves(c: Cloud, id: Id, but: Id)
    ensures LeavesVms(c, Drop(c, id), but)
  {
  }

  lemma ClusterLeavesVms(s: State, o: Outcome, addr: string)
    requires Shape(s) && s.cw.CBusy? && forall i | i in s.cloud.objs :: i < s.cloud.next
    ensures LeavesVms(s.cloud, ClusterStep(s, o, addr).cloud, s.cloud.next)
  {
    if ClusterChangesCloud(s.cw.pc) { CS.StepByPc(s, o, addr); }
    match s.cw.pc
    case CMake(kind) =>
      CreateLeaves(s.cloud, NewResource(s.conf[s.cw.k], kind, s.cw.rec.endpoint, s.cw.found), s.cloud.next);
    case CAttach =>
      if ClusterStep(s, o, addr).cloud != s.cloud {
        var id := if s.cw.found.vapp.Some? then s.cw.found.vapp.value else 0;
        UpdateLeaves(s.cloud, id, s.cloud.objs[id].(network := true), s.cloud.next);
      }
    case DDrop(kind) =>
      if At(s.cw.rec.refs, kind).Some? { DropLeaves(s.cloud, At(s.cw.rec.refs, kind).value, s.cloud.next); }
    case _ =>
  }

  lemma MachineLeavesVms(s: State, o: Outcome, nics: Option<seq<string>>)
    requires Shape(s) && s.mw.MBusy? && forall i | i in s.cloud.objs :: i < s.cloud.next
    ensures LeavesVms(s.cloud, MachineStep(s, o, nics).cloud, if s.mw.pc.MPower? then s.mw.vm else s.cloud.next)
  {
    if MachineChangesCloud(s.mw.pc) { MS.StepByPc(s, o, nics); }
    var but := if s.mw.pc.MPower? then s.mw.vm else s.cloud.next;
    if s.mw.pc.MVmAdd? {
      var vapp := if s.mw.refs.vapp.Some? then s.mw.refs.vapp.value else 0;
      CreateLeaves(s.cloud, Vm(s.mw.m.name, vapp, nics, false), but);
    } else if s.mw.pc.MPower? {
      if s.mw.vm in s.cloud.objs && s.cloud.objs[s.mw.vm].Vm? {
        UpdateLeaves(s.cloud, s.mw.vm, s.cloud.objs[s.mw.vm].(on := true), but);
      }
    } else if s.mw.pc.XDrop? {
      DropLeaves(s.cloud, s.mw.vm, but);
    } else if MachineChangesCloud(s.mw.pc) {
      WriteLeaves(s, o, nics);
    }
  }

  lemma WriteLeaves(s: State, o: Outcome, nics: Option<seq<string>>)
    requires Shape(s) && s.mw.MBusy? && (s.mw.pc.MJoin? || s.mw.pc.XLeave?)
    ensures LeavesVms(s.cloud, MachineStep(s, o, nics).cloud, s.cloud.next)
  {
    MS.StepByPc(s, o, nics);
    if s.mw.refs.ipset.Some? && s.mw.refs.ipset.value in s.cloud.objs && s.cloud.objs[s.mw.refs.ipset.value].Group? {
      var g := s.mw.refs.ipset.value;
      UpdateLeaves(s.cloud, g, s.cloud.objs[g].(ips := NewIps(s.mw)), s.cloud.next);
    }
  }

  lemma StepStartsOk(s: State, t: State, but: Id)
    requires StartsOk(s) && t.conf == s.conf && LeavesVms(s.cloud, t.cloud, but)
    requires but in s.cloud.objs ==> Configurable(s.cloud, but)
    requires t.mw.MBusy? && t.mw.pc.MPower? && t.mw.vm in t.cloud.objs ==>
               t.mw.vm in s.cloud.objs && Configurable(s.cloud, t.mw.vm)
    requires forall m, i | VmOf(t.conf, t.cloud, m, i) && i in s.cloud.objs && s.cloud.objs[i].Vm? ::
               VmOf(s.conf, s.cloud, m, i)
    ensures StartsOk(t)
  {
    forall m, i | VmOf(t.conf, t.cloud, m, i) && t.cloud.objs[i].on ensures Configurable(t.cloud, i) {
      assert i in s.cloud.objs;
      StaysConfigurable(s.cloud, t.cloud, but, i);
    }
    if t.mw.MBusy? && t.mw.pc.MPower? && t.mw.vm in t.cloud.objs {
      StaysConfigurable(s.cloud, t.cloud, but, t.mw.vm);
    }
  }

  /** A VM that was there before belonged to the same machine. */
  lemma ClusterStepsKeepOwner(s: State, o: Outcome, addr: string, m: MKey, i: Id)
    requires CS.Context(s) && i in s.cloud.objs && s.cloud.objs[i].Vm?
    requires VmOf(s.conf, ClusterStep(s, o, addr).cloud, m, i)
    ensures VmOf(s.conf, s.cloud, m, i)
  {
    if ClusterChangesCloud(s.cw.pc) { CS.StepByPc(s, o, addr); }
  }

  lemma MachineStepsKeepOwner(s: State, o: Outcome, nics: Option<seq<string>>, m: MKey, i: Id)
    requires Shape(s) && s.mw.MBusy? && (forall j | j in s.cloud.objs :: j < s.cloud.next) && Integrity(s.cloud)
    requires i in s.cloud.objs && s.cloud.objs[i].Vm? && VmOf(s.conf, MachineStep(s, o, nics).cloud, m, i)
    ensures VmOf(s.conf, s.cloud, m, i)
  {
    if MachineChangesCloud(s.mw.pc) { MS.StepByPc(s, o, nics); }
  }

  lemma PowersConfigured(s: State, o: Outcome, nics: Option<seq<string>>)
    requires Shape(s) && s.mw.MBusy?
    ensures var w := MachineStep(s, o, nics).mw;
            w.MBusy? && w.pc.MPower? ==>
              s.mw.pc.MConfigure? && w.vm == s.mw.vm && Configurable(s.cloud, s.mw.vm)
  {
    if s.mw.pc.MConfigure? {
      MS.PlainSteps(s, o, nics);
    } else {
      NothingElsePowers(s, o, nics);
    }
  }

  lemma NothingElsePowers(s: State, o: Outcome, nics: Option<seq<string>>)
    requires Shape(s) && s.mw.MBusy? && !s.mw.pc.MConfigure?
    ensures var w := MachineStep(s, o, nics).mw; w.MBusy? ==> !w.pc.MPower?
  {
    if MachineChangesCloud(s.mw.pc) || s.mw.pc.MPatch? {
      MS.StepByPc(s, o, nics);
    } else if MTeardown(s.mw.pc) {
      MS.PlainTeardownSteps(s, o, nics);
    } else if !s.mw.pc.MFinalizer? {
      MS.PlainSteps(s, o, nics);
    }
  }

  lemma ClusterActStarts(s: State, o: Outcome, addr: string)
    requires CS.Context(s) && StartsOk(s) && (s.mw.MBusy? && s.mw.pc.MPower? ==> s.mw.vm in s.cloud.objs)
    ensures StartsOk(ClusterStep(s, o, addr))
  {
    var t := ClusterStep(s, o, addr);
    ClusterLeavesVms(s, o, addr);
    forall m, i | VmOf(t.conf, t.cloud, m, i) && i in s.cloud.objs && s.cloud.objs[i].Vm?
      ensures VmOf(s.conf, s.cloud, m, i)
    {
      ClusterStepsKeepOwner(s, o, addr, m, i);
    }
    StepStartsOk(s, t, s.cloud.next);
  }

  lemma MachineActStarts(s: State, o: Outcome, nics: Option<seq<string>>)
    requires MS.Context(s) && StartsOk(s)
    ensures StartsOk(MachineStep(s, o, nics))
  {
    var t := MachineStep(s, o, nics);
    var but := if s.mw.pc.MPower? then s.mw.vm else s.cloud.next;
    MachineLeavesVms(s, o, nics);
    forall m, i | VmOf(t.conf, t.cloud, m, i) && i in s.cloud.objs && s.cloud.objs[i].Vm?
      ensures VmOf(s.conf, s.cloud, m, i)
    {
      MachineStepsKeepOwner(s, o, nics, m, i);
    }
    PowersConfigured(s, o, nics);
    StepStartsOk(s, t, but);
  }

  lemma EventStarts(s: State, e: Event)
    requires Inv(s) && Enabled(s, e) && StartsOk(s)
    ensures StartsOk(Apply(s, e))
  {
    if e.ClusterAct? {
      assert s.mw.MBusy? && s.mw.pc.MPower? ==> VmOf(s.conf, s.cloud, s.mw.m, s.mw.vm);
      ClusterActStarts(s, e.o, e.addr);
    } else if e.MachineAct? {
      MS.ContextHolds(s);
      MachineActStarts(s, e.o, e.nics);
    } else {
      QuietEventStarts(s, e);
    }
  }

  lemma QuietEventStarts(s: State, e: Event)
    requires Shape(s) && Enabled(s, e) && StartsOk(s) && !e.ClusterAct? && !e.MachineAct?
    ensures StartsOk(Apply(s, e))
  {
  }

  lemma {:induction false} RunStarts(s: State, es: seq<Event>, t: State)
    requires Inv(s) && StartsOk(s) && Runs(s, es, t)
    ensures StartsOk(t)
    decreases |es|
  {
    if es != [] {
      EventKeeps(s, es[0]);
      EventStarts(s, es[0]);
      RunStarts(Apply(s, es[0]), es[1..], t);
    }
  }

  /**
    In every reachable state, a VM that is on sits in a vApp that has its network, and none of its addresses is empty:
    no VM is started before it could be configured.
  */
  lemma StartedVmWasConfigured(s: State, m: MKey, i: Id)
    requires Reachable(s) && VmOf(s.conf, s.cloud, m, i) && s.cloud.objs[i].on
    ensures var r := s.cloud.objs[i];
            && r.vapp in s.cloud.objs && s.cloud.objs[r.vapp].VApp? && s.cloud.objs[r.vapp].network
            && (r.nics.Some? ==> forall n | 0 <= n < |r.nics.value| :: r.nics.value[n] != "")
  {
    var s0, es :| Init(s0) && Runs(s0, es, s);
    InitEstablishes(s0);
    forall m, i ensures !VmOf(s0.conf, s0.cloud, m, i) {
      assert m.cluster in s0.conf ==> Absent(s0.conf, s0.cloud, m.cluster, VAppKind);
    }
    RunStarts(s0, es, s);
  }
}
