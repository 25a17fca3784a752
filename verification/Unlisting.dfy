/** Exactly which address the deletion of a machine takes out of the IP set. */
module Unlisting {
  import opened Options
  import opened Clouds
  import opened Protocol
  import opened Invariant
  import opened AllRuns
  import opened MachineProgress
  import MS = MachineSteps
  import L = Membership

  predicate BeforeLeaving(pc: MPc) { pc.MFinalizer? || pc.XCluster? || pc.XConnect? || pc.XGroup? || pc.XLeave? }

  /** The member list once a pass under way over a deleted machine has ended. */
  ghost function Remaining(conf: Conf, w: MWorker, ips: seq<string>): seq<string>
    requires w.MBusy? && w.m.cluster in conf
  {
    if BeforeLeaving(w.pc) && conf[w.m.cluster].infraRef && w.rec.controlPlane && LastInternal(w.rec.addresses) != ""
    then Without(ips, LastInternal(w.rec.addresses)) else ips
  }

  /** One step does its part: the list changes only where the pass writes it, and then to what remains. */
  ghost predicate StepUnlists(s: State, t: State, g: Id)
    requires Shape(s) && s.mw.MBusy? && g in s.cloud.objs && s.cloud.objs[g].Group?
  {
    && t.mw.MBusy? && t.mw.m == s.mw.m && t.conf == s.conf
    && (Named(s.conf, s.cloud, s.mw.m.cluster, IpSetKind, g) ==> Named(t.conf, t.cloud, t.mw.m.cluster, IpSetKind, g))
    && g in t.cloud.objs
    && t.cloud.objs[g].Group?
    && t.cloud.objs[g] == s.cloud.objs[g].(ips := t.cloud.objs[g].ips)
    && Remaining(s.conf, t.mw, t.cloud.objs[g].ips) == Remaining(s.conf, s.mw, s.cloud.objs[g].ips)
  }

  lemma WritingUnlists(s: State, nics: Option<seq<string>>, g: Id)
    requires MS.Context(s) && Leaving(s) && s.mw.pc.XLeave? && Named(s.conf, s.cloud, s.mw.m.cluster, IpSetKind, g)
    ensures StepUnlists(s, MachineStep(s, Good, nics), g)
  {
    LeavingFinds(s);
    MS.ReadRefExists(s, IpSetKind);
    assert s.mw.refs.ipset.value == g;
    MS.StepByPc(s, Good, nics);
  }

  lemma DroppingKeepsList(s: State, nics: Option<seq<string>>, g: Id)
    requires Shape(s) && s.mw.MBusy? && s.mw.pc.XDrop? && VmOf(s.conf, s.cloud, s.mw.m, s.mw.vm)
    requires g in s.cloud.objs && s.cloud.objs[g].Group?
    ensures StepUnlists(s, MachineStep(s, Good, nics), g)
  {
    MS.StepByPc(s, Good, nics);
  }

  lemma AskingKeepsList(s: State, nics: Option<seq<string>>, g: Id)
    requires Shape(s) && s.mw.MBusy? && Leaving(s) && (ReadCluster(s.mw.pc) ==> Finds(s))
    requires g in s.cloud.objs && s.cloud.objs[g].Group? && !s.mw.pc.XLeave? && !s.mw.pc.XDrop?
    ensures StepUnlists(s, MachineStep(s, Good, nics), g)
  {
    if !s.mw.pc.MFinalizer? { MS.PlainTeardownSteps(s, Good, nics); }
  }

  lemma LeavingUnlistsStep(s: State, nics: Option<seq<string>>, g: Id)
    requires Inv(s) && s.mw.MBusy? && Leaving(s) && Named(s.conf, s.cloud, s.mw.m.cluster, IpSetKind, g)
    ensures StepUnlists(s, MachineStep(s, Good, nics), g)
  {
    MS.ContextHolds(s);
    if s.mw.pc.XLeave? {
      WritingUnlists(s, nics, g);
    } else if s.mw.pc.XDrop? {
      DroppingKeepsList(s, nics, g);
    } else {
      if ReadCluster(s.mw.pc) { LeavingFinds(s); }
      AskingKeepsList(s, nics, g);
    }
  }

  /** In `t` the list holds what remains of it in `s`. */
  ghost predicate Unlisted(s: State, g: Id, t: State)
    requires Shape(s) && s.mw.MBusy? && g in s.cloud.objs && s.cloud.objs[g].Group?
  {
    g in t.cloud.objs && t.cloud.objs[g] == s.cloud.objs[g].(ips := Remaining(s.conf, s.mw, s.cloud.objs[g].ips))
  }

  lemma UnlistedAfterStep(s: State, t: State, g: Id, u: State)
    requires Shape(s) && Shape(t) && s.mw.MBusy? && g in s.cloud.objs && s.cloud.objs[g].Group?
    requires StepUnlists(s, t, g) && Unlisted(t, g, u)
    ensures Unlisted(s, g, u)
  {
  }

  lemma ReleaseKeepsList(s: State, nics: Option<seq<string>>, g: Id)
    requires Shape(s) && s.mw.MBusy? && s.mw.pc.XRelease? && g in s.cloud.objs && s.cloud.objs[g].Group?
    ensures Unlisted(s, g, Finish(s, nics))
  {
    PatchKeepsCloud(s, nics);
  }

  lemma {:induction false} LeavingUnlists(s: State, nics: Option<seq<string>>, g: Id)
    requires Inv(s) && s.mw.MBusy? && Leaving(s) && Named(s.conf, s.cloud, s.mw.m.cluster, IpSetKind, g)
    ensures Unlisted(s, g, Finish(s, nics))
    decreases CallsLeft(s.mw.pc)
  {
    PassEnds(s, Good, nics);
    var t := MachineStep(s, Good, nics);
    assert StepUnlists(s, t, g) by { LeavingUnlistsStep(s, nics, g); }
    if s.mw.pc.XRelease? {
      ReleaseKeepsList(s, nics, g);
    } else {
      assert Leaving(t) by {
        MS.ContextHolds(s);
        LeavingGoesOn(s, nics);
      }
      assert Inv(t) by { MS.MachineStepKeeps(s, Good, nics); }
      assert Unlisted(t, g, Finish(t, nics)) by { LeavingUnlists(t, nics, g); }
      UnlistedAfterStep(s, t, g, Finish(t, nics));
    }
  }

  lemma PatchKeepsCloud(s: State, nics: Option<seq<string>>)
    requires Shape(s) && s.mw.MBusy? && s.mw.pc.XRelease?
    ensures Finish(s, nics).cloud == s.cloud
  {
    PassEnds(s, Good, nics);
    var t := s.(mw := s.mw.(rec := s.mw.rec.(finalizer := false), pc := MPatch));
    assert MachineStep(s, Good, nics) == t;
    PatchCommits(t, nics);
  }

  /** The address that a pass over a stored machine would take out, if any. */
  predicate Unlists(conf: ClusterConf, rec: MachineRec, a: string) {
    conf.infraRef && rec.controlPlane && a != "" && a == LastInternal(rec.addresses)
  }

  lemma PassUnlists(s: State, m: MKey, nics: Option<seq<string>>, g: Id)
    requires Reachable(s) && s.mw.MIdle? && m in s.owners && s.machines[m].deleting && s.machines[m].finalizer
    requires s.conf[m.cluster].infraRef ==> s.conf[m.cluster].identity && !s.clusters[m.cluster].Gone()
    requires Named(s.conf, s.cloud, m.cluster, IpSetKind, g)
    ensures var w := MachineBegun(s, m).mw;
            var t := Pass(s, m, nics);
            g in t.cloud.objs && t.cloud.objs[g] == s.cloud.objs[g].(ips := Remaining(s.conf, w, s.cloud.objs[g].ips))
  {
    var b := MachineBegun(s, m);
    BeginsLeaving(s, m);
    LeavingUnlists(b, nics, g);
  }

  lemma RemainingMembers(conf: Conf, w: MWorker, ips: seq<string>, a: string)
    requires w.MBusy? && w.pc.MFinalizer? && w.m.cluster in conf && "" !in ips
    ensures a in Remaining(conf, w, ips) <==> a in ips && !Unlists(conf[w.m.cluster], w.rec, a)
  {
    L.WithoutMembers(ips, LastInternal(w.rec.addresses));
  }

  /**
    A failure-free deletion leaves an address listed exactly when it is not the one the machine's object has recorded.
    So an address that was added by a pass whose patch was then lost outlives its machine.
  */
  lemma DeletionUnlistsExactly(s: State, m: MKey, nics: Option<seq<string>>, g: Id, a: string)
    requires Reachable(s) && s.mw.MIdle? && m in s.owners && s.machines[m].deleting && s.machines[m].finalizer
    requires s.conf[m.cluster].infraRef ==> s.conf[m.cluster].identity && !s.clusters[m.cluster].Gone()
    requires Named(s.conf, s.cloud, m.cluster, IpSetKind, g)
    ensures Pass(s, m, nics).machines[m].Gone()
    ensures Named(s.conf, Pass(s, m, nics).cloud, m.cluster, IpSetKind, g)
    ensures a in Pass(s, m, nics).cloud.objs[g].ips
            <==> a in s.cloud.objs[g].ips && !Unlists(s.conf[m.cluster], s.machines[m], a)
  {
    OnePassDeletes(s, m, nics);
    PassUnlists(s, m, nics, g);
    L.MembersAreDistinct(s, m.cluster, g);
    var w := MachineBegun(s, m).mw;
    RemainingMembers(s.conf, w, s.cloud.objs[g].ips, a);
  }
}
