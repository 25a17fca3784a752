/** How an address comes to stay in the IP set after its machine is gone. */
module Stranding {
  import opened Options
  import opened Clouds
  import opened Protocol
  import opened Invariant
  import opened AllRuns
  import opened MachineProgress
  import opened Membership
  import MS = MachineSteps
  import U = Unlisting

  /** The current pass up to its patch, when every call succeeds. */
  ghost function ToPatch(s: State, nics: Option<seq<string>>): (t: State)
    requires Shape(s)
    ensures Shape(t) && t == s.(cloud := t.cloud, mw := t.mw)
    decreases if s.mw.MIdle? then 0 else 1 + CallsLeft(s.mw.pc)
  {
    if s.mw.MIdle? || s.mw.pc.MPatch? then s
    else
      PassEnds(s, Good, nics);
      ToPatch(MachineStep(s, Good, nics), nics)
  }

  /** A pass whose calls all succeed, but for the patch, which is lost. */
  ghost function LostPass(s: State, m: MKey, nics: Option<seq<string>>): (t: State)
    requires Shape(s) && m in s.machines
    ensures Shape(t) && t == s.(cloud := t.cloud, mw := MIdle)
  {
    ToPatch(MachineBegun(s, m), nics).(mw := MIdle)
  }

  ghost function Deleted(s: State, m: MKey): (t: State)
    requires Shape(s) && m in s.machines
    ensures Shape(t)
  {
    s.(machines := s.machines[m := s.machines[m].(deleting := true)])
  }

  /** The IP set lists an address that no machine left in the cluster has recorded. */
  ghost predicate Orphaned(s: State, k: CKey, g: Id, a: string) {
    && Named(s.conf, s.cloud, k, IpSetKind, g)
    && a in s.cloud.objs[g].ips
    && forall m | m in s.machines && m.cluster == k && LastInternal(s.machines[m].addresses) == a ::
         s.machines[m].Gone()
  }

  // ----- the pass that lists the address -----

  /** A joining control-plane pass in a run with distinct addresses. */
  ghost predicate Listing(s: State, nics: Option<seq<string>>) {
    && Reachable(s) && s.mw.MBusy? && Joining(s, nics) && ListingOk(s)
    && s.machines[s.mw.m].controlPlane && s.mw.rec.controlPlane
    && (CallsLeft(s.mw.pc) >= CallsLeft(MVmAdd) ==> FreshAddress(s, nics))
  }

  lemma StaysFresh(s: State, w: MWorker, nics: Option<seq<string>>)
    requires s.mw.MBusy? && w.MBusy? && w.m == s.mw.m && FreshAddress(s, nics)
    ensures FreshAddress(s.(mw := w), nics)
  {
    var a := LastInternal(AddressesOf(nics));
    forall m: MKey | m.cluster == w.m.cluster && m != w.m ensures !Claims(s.(mw := w), m, a) {
      assert !Claims(s, m, a);
    }
  }

  lemma ListingFresh(s: State, nics: Option<seq<string>>)
    requires Shape(s) && s.mw.MBusy? && !MTeardown(s.mw.pc) && !s.mw.pc.MPatch? && !s.mw.pc.MReady?
    requires CallsLeft(s.mw.pc) >= CallsLeft(MVmAdd) ==> FreshAddress(s, nics)
    ensures var t := MachineStep(s, Good, nics);
            CallsLeft(t.mw.pc) >= CallsLeft(MVmAdd) ==> FreshAddress(t, nics)
  {
    var t := MachineStep(s, Good, nics);
    PassEnds(s, Good, nics);
    if CallsLeft(t.mw.pc) >= CallsLeft(MVmAdd) {
      assert t == s.(mw := t.mw);
      StaysFresh(s, t.mw, nics);
    }
  }

  lemma ListingGoesOn(s: State, nics: Option<seq<string>>)
    requires Listing(s, nics) && !s.mw.pc.MReady?
    ensures Listing(MachineStep(s, Good, nics), nics) && MachineStep(s, Good, nics).mw.m == s.mw.m
  {
    var t := MachineStep(s, Good, nics);
    assert Inv(s) by { ReachableInv(s); }
    assert Joining(t, nics) by {
      MS.ContextHolds(s);
      JoiningGoesOn(s, nics);
    }
    assert ListingOk(t) by { EventListing(s, MachineAct(Good, nics)); }
    assert Reachable(t) by { ReachableNext(s, MachineAct(Good, nics)); }
    ListingFresh(s, nics);
    StoredRole(t);
  }

  lemma StoredRole(s: State)
    requires Reachable(s) && s.mw.MBusy?
    ensures s.mw.rec.controlPlane == s.machines[s.mw.m].controlPlane
  {
    ReachableInv(s);
  }

  lemma {:induction false} ListingReachesPatch(s: State, nics: Option<seq<string>>)
    requires Listing(s, nics)
    ensures var t := ToPatch(s, nics);
            && Reachable(t) && ListingOk(t)
            && t.mw.MBusy? && t.mw.m == s.mw.m && t.mw.pc.MPatch? && t.mw.rec.ready && t.mw.rec.controlPlane
    decreases CallsLeft(s.mw.pc)
  {
    var t := MachineStep(s, Good, nics);
    PassEnds(s, Good, nics);
    if s.mw.pc.MReady? {
      LastStep(s, nics);
    } else {
      ListingGoesOn(s, nics);
      ListingReachesPatch(t, nics);
    }
  }

  lemma LastStep(s: State, nics: Option<seq<string>>)
    requires Listing(s, nics) && s.mw.pc.MReady?
    ensures var t := MachineStep(s, Good, nics);
            && Reachable(t) && ListingOk(t) && ToPatch(s, nics) == t
            && t.mw.MBusy? && t.mw.m == s.mw.m && t.mw.pc.MPatch? && t.mw.rec.ready && t.mw.rec.controlPlane
  {
    var t := MachineStep(s, Good, nics);
    MS.PlainSteps(s, Good, nics);
    assert ToPatch(t, nics) == t;
    assert ListingOk(t) by {
      ReachableInv(s);
      EventListing(s, MachineAct(Good, nics));
    }
    ReachableNext(s, MachineAct(Good, nics));
  }

  // ----- losing the patch -----

  /** The address a new VM would be given is one that no other machine of the cluster claims. */
  ghost predicate FreshFor(s: State, m: MKey, nics: Option<seq<string>>) {
    forall m': MKey | m'.cluster == m.cluster && m' != m :: !Claims(s, m', LastInternal(AddressesOf(nics)))
  }

  /** A control-plane machine that is about to get its VM recorded, in a run with distinct addresses. */
  ghost predicate Unrecorded(s: State, m: MKey, nics: Option<seq<string>>) {
    && Reachable(s) && ListingOk(s) && s.mw.MIdle?
    && m in s.owners && s.machines[m].controlPlane && s.machines[m].finalizer && !s.machines[m].deleting
    && s.machines[m].providerId.None?
    && Suited(s, m, true, nics) && FreshFor(s, m, nics)
  }

  /** The pass at the first call after its gates. */
  ghost function Opened(s: State, m: MKey): State
    requires m in s.machines
  {
    s.(mw := MBusy(m, s.machines[m], m.cluster in s.infra, MGates, NO_REFS, 0, []))
  }

  lemma OpenedIsReachable(s: State, m: MKey, nics: Option<seq<string>>)
    requires Reachable(s) && s.mw.MIdle? && m in s.owners && m.cluster in s.infra
    requires s.machines[m].finalizer && !s.machines[m].deleting
    ensures Reachable(Opened(s, m)) && ToPatch(MachineBegun(s, m), nics) == ToPatch(Opened(s, m), nics)
  {
    GateStep(MachineBegun(s, m), nics);
    ReachableNext(s, MachineBegin(m));
    ReachableNext(MachineBegun(s, m), MachineAct(Good, nics));
  }

  lemma OpenedIsListed(s: State, m: MKey)
    requires Shape(s) && s.mw.MIdle? && m in s.machines && ListingOk(s)
    ensures ListingOk(Opened(s, m))
  {
    BeginListing(s, m);
    SameClaims(MachineBegun(s, m), Opened(s, m).mw);
  }

  lemma OpenedJoins(s: State, m: MKey, nics: Option<seq<string>>)
    requires Shape(s) && m in s.machines && s.machines[m].finalizer && !s.machines[m].deleting
    requires Suited(s, m, s.machines[m].controlPlane, nics)
    ensures Joining(Opened(s, m), nics)
  {
  }

  lemma FirstStep(s: State, m: MKey, nics: Option<seq<string>>)
    requires Unrecorded(s, m, nics)
    ensures Listing(Opened(s, m), nics) && ToPatch(MachineBegun(s, m), nics) == ToPatch(Opened(s, m), nics)
  {
    OpenedIsReachable(s, m, nics);
    OpenedIsListed(s, m);
    OpenedJoins(s, m, nics);
    BeginsFresh(s, Opened(s, m).mw, nics);
  }

  lemma GateStep(s: State, nics: Option<seq<string>>)
    requires Shape(s) && s.mw.MBusy? && s.mw.pc.MFinalizer? && !s.mw.rec.deleting && s.mw.rec.finalizer && s.mw.infra
    ensures MachineStep(s, Good, nics) == s.(mw := s.mw.(pc := MGates))
    ensures ToPatch(s, nics) == ToPatch(s.(mw := s.mw.(pc := MGates)), nics)
  {
    PassEnds(s, Good, nics);
  }

  lemma BeginsFresh(s: State, w: MWorker, nics: Option<seq<string>>)
    requires w.MBusy? && FreshFor(s, w.m, nics)
    ensures FreshAddress(s.(mw := w), nics)
  {
    var a := LastInternal(AddressesOf(nics));
    forall m: MKey | m.cluster == w.m.cluster && m != w.m ensures !Claims(s.(mw := w), m, a) {
      assert !Claims(s, m, a);
    }
  }

  /** The IP set a pass about to store readiness has seen its address in. */
  lemma PatchingIsListed(s: State) returns (g: Id)
    requires Reachable(s) && ListingOk(s) && s.mw.MBusy? && s.mw.pc.MPatch? && s.mw.rec.ready && s.mw.rec.controlPlane
    requires !s.machines[s.mw.m].deleting
    ensures Named(s.conf, s.cloud, s.mw.m.cluster, IpSetKind, g)
    ensures LastInternal(s.mw.rec.addresses) in s.cloud.objs[g].ips && LastInternal(s.mw.rec.addresses) != ""
  {
    var k := s.mw.m.cluster;
    g := s.clusters[k].refs.ipset.value;
    assert Named(s.conf, s.cloud, k, IpSetKind, g) by {
      ReachableInv(s);
      HasOwner(s, s.mw.m);
      assert ClusterOk(s.conf, s.cloud, k, s.clusters[k], Kept(s.clusters, s.owners, s.cw, k));
      assert RefOk(s.conf, s.cloud, k, IpSetKind, At(s.clusters[k].refs, IpSetKind), true);
    }
  }

  /** In the state without the pass nobody who is left has recorded the address. */
  lemma NobodyElse(s: State, g: Id)
    requires Shape(s) && DistinctClaims(s) && s.mw.MBusy? && !s.machines[s.mw.m].deleting
    requires s.machines[s.mw.m].addresses == []
    requires var a := LastInternal(s.mw.rec.addresses);
             Named(s.conf, s.cloud, s.mw.m.cluster, IpSetKind, g) && a in s.cloud.objs[g].ips && a != ""
    ensures Orphaned(s.(mw := MIdle), s.mw.m.cluster, g, LastInternal(s.mw.rec.addresses))
  {
    var a := LastInternal(s.mw.rec.addresses);
    assert Claims(s, s.mw.m, a);
    forall m | m in s.machines && m.cluster == s.mw.m.cluster && LastInternal(s.machines[m].addresses) == a
      ensures s.machines[m].Gone()
    {
      assert !s.machines[m].Gone() ==> Claims(s, m, a);
    }
  }

  /** The pass lists the address, and the stored machine does not know. */
  lemma LostPassOrphans(s: State, m: MKey, nics: Option<seq<string>>) returns (g: Id, a: string)
    requires Unrecorded(s, m, nics)
    ensures var t := LostPass(s, m, nics);
            Reachable(t) && Orphaned(t, m.cluster, g, a) && a != "" && t.machines == s.machines && t.mw.MIdle?
    ensures s.machines[m].addresses == []
  {
    var p := ToPatch(MachineBegun(s, m), nics);
    PassLists(s, m, nics);
    g := PatchingIsListed(p);
    a := LastInternal(p.mw.rec.addresses);
    NothingRecorded(s, m);
    NobodyElse(p, g);
    LossIsReachable(p, nics);
  }

  lemma PassLists(s: State, m: MKey, nics: Option<seq<string>>)
    requires Unrecorded(s, m, nics)
    ensures var p := ToPatch(MachineBegun(s, m), nics);
            && Reachable(p) && ListingOk(p)
            && p.mw.MBusy? && p.mw.m == m && p.mw.pc.MPatch? && p.mw.rec.ready && p.mw.rec.controlPlane
  {
    FirstStep(s, m, nics);
    ListingReachesPatch(Opened(s, m), nics);
  }

  lemma LossIsReachable(s: State, nics: Option<seq<string>>)
    requires Reachable(s) && s.mw.MBusy? && s.mw.pc.MPatch?
    ensures Reachable(s.(mw := MIdle))
  {
    assert Apply(s, MachineAct(Bad, nics)) == s.(mw := MIdle) by { MS.StepByPc(s, Bad, nics); }
    ReachableNext(s, MachineAct(Bad, nics));
  }

  lemma NothingRecorded(s: State, m: MKey)
    requires Reachable(s) && m in s.machines && s.machines[m].providerId.None?
    ensures s.machines[m].addresses == []
  {
    ReachableInv(s);
    assert MachineOk(s.conf, s.cloud, s.infra, s.owners, m, s.machines[m]);
  }

  // ----- deleting the machine -----

  lemma {:induction false} FinishKeepsOthers(s: State, nics: Option<seq<string>>, m: MKey)
    requires Shape(s) && m in s.machines && (s.mw.MBusy? ==> s.mw.m != m)
    ensures Finish(s, nics).machines[m] == s.machines[m]
    decreases if s.mw.MIdle? then 0 else 1 + CallsLeft(s.mw.pc)
  {
    if s.mw.MBusy? {
      PassEnds(s, Good, nics);
      if s.mw.pc.MPatch? {
        PatchCommits(s, nics);
      } else {
        FinishKeepsOthers(MachineStep(s, Good, nics), nics, m);
      }
    }
  }

  lemma DeletionKeepsOrphan(s: State, m: MKey, nics: Option<seq<string>>, g: Id, a: string)
    requires Reachable(s) && s.mw.MIdle? && m in s.owners && s.machines[m].deleting && s.machines[m].finalizer
    requires s.conf[m.cluster].identity && !s.clusters[m.cluster].Gone()
    requires s.machines[m].addresses == [] && a != "" && Orphaned(s, m.cluster, g, a)
    ensures var t := Pass(s, m, nics);
            Reachable(t) && t.machines[m].Gone() && Orphaned(t, m.cluster, g, a)
  {
    var t := Pass(s, m, nics);
    assert t.machines[m].Gone() && Named(s.conf, t.cloud, m.cluster, IpSetKind, g) && a in t.cloud.objs[g].ips by {
      U.DeletionUnlistsExactly(s, m, nics, g, a);
    }
    assert Reachable(t) by { PassIsReachable(s, m, nics); }
    PassKeepsOthers(s, m, nics);
    StillOrphaned(s, t, m, g, a);
  }

  lemma PassIsReachable(s: State, m: MKey, nics: Option<seq<string>>)
    requires Reachable(s) && s.mw.MIdle? && m in s.owners && !s.machines[m].Gone()
    ensures Reachable(Pass(s, m, nics))
  {
    var es := PassIsRun(s, m, nics);
    ReachableGoesOn(s, es, Pass(s, m, nics));
  }

  lemma PassKeepsOthers(s: State, m: MKey, nics: Option<seq<string>>)
    requires Shape(s) && m in s.machines
    ensures forall m' | m' in s.machines && m' != m :: Pass(s, m, nics).machines[m'] == s.machines[m']
  {
    forall m' | m' in s.machines && m' != m ensures Pass(s, m, nics).machines[m'] == s.machines[m'] {
      FinishKeepsOthers(MachineBegun(s, m), nics, m');
    }
  }

  lemma StillOrphaned(s: State, t: State, m: MKey, g: Id, a: string)
    requires Orphaned(s, m.cluster, g, a)
    requires t.conf == s.conf && t.machines.Keys == s.machines.Keys && m in s.machines
    requires forall m' | m' in s.machines && m' != m :: t.machines[m'] == s.machines[m']
    requires LastInternal(t.machines[m].addresses) == a ==> t.machines[m].Gone()
    requires Named(s.conf, t.cloud, m.cluster, IpSetKind, g) && a in t.cloud.objs[g].ips
    ensures Orphaned(t, m.cluster, g, a)
  {
  }

  lemma DeletedIsOrphan(s: State, m: MKey, g: Id, a: string)
    requires Shape(s) && m in s.machines && s.machines[m].addresses == [] && a != "" && Orphaned(s, m.cluster, g, a)
    ensures Orphaned(Deleted(s, m), m.cluster, g, a)
  {
    StillOrphaned(s, Deleted(s, m), m, g, a);
  }

  lemma MarkKeepsOrphan(s: State, m: MKey, g: Id, a: string)
    requires Reachable(s) && m in s.machines && s.machines[m].addresses == [] && a != "" && Orphaned(s, m.cluster, g, a)
    ensures Reachable(Deleted(s, m)) && Orphaned(Deleted(s, m), m.cluster, g, a)
  {
    assert Reachable(Deleted(s, m)) by { ReachableNext(s, DeleteMachine(m)); }
    DeletedIsOrphan(s, m, g, a);
  }

  /**
    The failing run, from any suited state: a pass that succeeds but for its lost patch, the deletion of the machine,
    and a deletion pass that succeeds. The machine is gone, its address is still listed, and no machine that is left
    in the cluster has it recorded.
  */
  lemma AddressOutlivesMachine(s: State, m: MKey, nics: Option<seq<string>>) returns (g: Id, a: string)
    requires Unrecorded(s, m, nics)
    ensures var t := Pass(Deleted(LostPass(s, m, nics), m), m, nics);
            Reachable(t) && t.machines[m].Gone() && Orphaned(t, m.cluster, g, a)
  {
    g, a := LostPassOrphans(s, m, nics);
    var t := LostPass(s, m, nics);
    MarkKeepsOrphan(t, m, g, a);
    DeletionKeepsOrphan(Deleted(t, m), m, nics, g, a);
  }
}
