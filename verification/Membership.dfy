/** Which addresses the control-plane IP set lists, over all runs. */
module Membership {
  import opened Options
  import opened Clouds
  import opened Protocol
  import opened Invariant
  import opened CloudFacts
  import opened AllRuns
  import CS = ClusterSteps
  import MS = MachineSteps

  ghost predicate NoDuplicates(ips: seq<string>) {
    forall i, j | 0 <= i < j < |ips| :: ips[i] != ips[j]
  }

  /** Every IP set of a cluster lists each address once, and never the empty one. */
  ghost predicate SetsOk(conf: Conf, c: Cloud) {
    forall k, g | Named(conf, c, k, IpSetKind, g) :: NoDuplicates(c.objs[g].ips) && "" !in c.objs[g].ips
  }

  /** The recorded IP set exists and lists the address. */
  ghost predicate Listed(c: Cloud, ipset: Option<Id>, a: string) {
    ipset.Some? && ipset.value in c.objs && c.objs[ipset.value].Group? && a in c.objs[ipset.value].ips
  }

  // ----- ready machines are listed -----

  ghost predicate ReadyListed(c: Cloud, clusters: map<CKey, ClusterRec>, machines: map<MKey, MachineRec>) {
    forall m | m in machines && machines[m].ready && machines[m].controlPlane && !machines[m].deleting ::
      m.cluster in clusters && Listed(c, clusters[m.cluster].refs.ipset, LastInternal(machines[m].addresses))
  }

  /** A pass that is about to store readiness has seen the address in the set. */
  ghost predicate WorkerListed(c: Cloud, ipset: Option<Id>, st: MachineRec, w: MWorker)
    requires w.MBusy?
  {
    && (!w.pc.MPatch? && w.rec.ready ==> st.ready)
    && (w.pc.MReady? && w.rec.controlPlane ==> Listed(c, ipset, LastInternal(w.rec.addresses)))
    && (w.pc.MPatch? && w.rec.ready && w.rec.controlPlane && !st.deleting ==>
          Listed(c, ipset, LastInternal(w.rec.addresses)))
  }

  // ----- addresses are told apart -----

  /** The address that machine `m` uses, has recorded, or is about to record. */
  ghost predicate Claims(s: State, m: MKey, a: string) {
    && m in s.machines && !s.machines[m].Gone() && a != ""
    && (|| LastInternal(s.machines[m].addresses) == a
        || (s.mw.MBusy? && s.mw.m == m && LastInternal(s.mw.rec.addresses) == a)
        || VmUses(s.conf, s.cloud, m, a))
  }

  ghost predicate VmUses(conf: Conf, c: Cloud, m: MKey, a: string) {
    exists i :: VmOf(conf, c, m, i) && LastInternal(AddressesOf(c.objs[i].nics)) == a
  }

  ghost predicate DistinctClaims(s: State) {
    forall m, m', a | Claims(s, m, a) && Claims(s, m', a) && m.cluster == m'.cluster :: m == m'
  }

  // ----- only recorded machines are listed -----

  /** The addresses that count for `m`: those of the running pass, or the stored ones. */
  ghost function Current(machines: map<MKey, MachineRec>, w: MWorker, m: MKey): seq<MachineAddress>
    requires m in machines
  {
    if w.MBusy? && w.m == m then w.rec.addresses else machines[m].addresses
  }

  ghost predicate HeldBy(machines: map<MKey, MachineRec>, w: MWorker, m: MKey, a: string) {
    m in machines && machines[m].controlPlane && machines[m].finalizer && LastInternal(Current(machines, w, m)) == a
  }

  ghost predicate Held(machines: map<MKey, MachineRec>, w: MWorker, k: CKey, a: string) {
    exists m: MKey :: m.cluster == k && HeldBy(machines, w, m, a)
  }

  ghost predicate OnlyHeld(conf: Conf, c: Cloud, machines: map<MKey, MachineRec>, w: MWorker) {
    forall k, g, a | Named(conf, c, k, IpSetKind, g) && a in c.objs[g].ips :: Held(machines, w, k, a)
  }

  predicate PastLeave(pc: MPc) { pc.XVApp? || pc.XVm? || pc.XDrop? || pc.XRelease? }

  /** A pass that is past leaving the IP set has its address out of it. */
  ghost predicate WorkerLeft(conf: Conf, c: Cloud, w: MWorker) {
    w.MBusy? && w.rec.controlPlane && (PastLeave(w.pc) || (w.pc.MPatch? && !w.rec.finalizer)) ==>
      forall g | Named(conf, c, w.m.cluster, IpSetKind, g) :: LastInternal(w.rec.addresses) !in c.objs[g].ips
  }

  // ----- the sets under a write -----

  lemma WithoutMembers(ips: seq<string>, ip: string)
    ensures forall a :: a in Without(ips, ip) <==> a in ips && a != ip
  {
    if ips != [] {
      WithoutMembers(ips[1..], ip);
      assert forall a :: a in ips <==> a == ips[0] || a in ips[1..];
    }
  }

  /** The positions `at` are increasing and hold, in `ips`, exactly the entries other than `ip`, which `r` lists. */
  ghost predicate Selects(at: seq<nat>, ips: seq<string>, ip: string, r: seq<string>) {
    && |at| == |r|
    && (forall i | 0 <= i < |at| :: at[i] < |ips| && ips[at[i]] == r[i] != ip)
    && (forall i, j | 0 <= i < j < |at| :: at[i] < at[j])
    && (forall p | 0 <= p < |ips| && ips[p] != ip :: p in at)
  }

  lemma SelectsOneMore(at: seq<nat>, first: string, ips: seq<string>, ip: string, r: seq<string>)
    returns (at': seq<nat>)
    requires Selects(at, ips, ip, r)
    ensures Selects(at', [first] + ips, ip, if first == ip then r else [first] + r)
  {
    var moved := Moved(at);
    at' := if first == ip then moved else [0] + moved;
    var more := [first] + ips;
    forall p | 0 < p < |more| && more[p] != ip ensures p in moved {
      assert more[p] == ips[p - 1] && p - 1 in at;
      MovedHas(at, p - 1);
    }
  }

  function Moved(at: seq<nat>): seq<nat> {
    seq(|at|, i requires 0 <= i < |at| => at[i] + 1)
  }

  lemma MovedHas(at: seq<nat>, p: nat)
    requires p in at
    ensures p + 1 in Moved(at)
  {
    var i :| 0 <= i < |at| && at[i] == p;
    assert Moved(at)[i] == p + 1;
  }

  /** What is left after deleting an address is everything else, in the order it had. */
  lemma {:induction false} WithoutKeepsOrder(ips: seq<string>, ip: string) returns (at: seq<nat>)
    ensures Selects(at, ips, ip, Without(ips, ip))
  {
    if ips == [] {
      at := [];
    } else {
      var rest := WithoutKeepsOrder(ips[1..], ip);
      var r := Without(ips[1..], ip);
      assert Without(ips, ip) == if ips[0] == ip then r else [ips[0]] + r;
      assert [ips[0]] + ips[1..] == ips;
      at := SelectsOneMore(rest, ips[0], ips[1..], ip, r);
    }
  }

  lemma {:induction false} WithoutKeepsDistinct(ips: seq<string>, ip: string)
    requires NoDuplicates(ips)
    ensures NoDuplicates(Without(ips, ip))
  {
    if ips != [] {
      WithoutKeepsDistinct(ips[1..], ip);
      WithoutMembers(ips[1..], ip);
      assert ips[0] !in ips[1..];
      assert ips[0] !in Without(ips[1..], ip);
    }
  }

  /** What the two writers do to the set: one address more, or one address less. */
  lemma WriteMembers(w: MWorker)
    requires w.MBusy? && (w.pc.MJoin? || w.pc.XLeave?)
    requires NoDuplicates(w.ips) && "" !in w.ips
    requires w.pc.MJoin? ==> LastInternal(w.rec.addresses) !in w.ips && LastInternal(w.rec.addresses) != ""
    ensures NoDuplicates(NewIps(w)) && "" !in NewIps(w)
    ensures w.pc.MJoin? ==> forall a :: a in NewIps(w) <==> a in w.ips || a == LastInternal(w.rec.addresses)
    ensures w.pc.XLeave? ==> forall a :: a in NewIps(w) <==> a in w.ips && a != LastInternal(w.rec.addresses)
  {
    WithoutMembers(w.ips, LastInternal(w.rec.addresses));
    WithoutKeepsDistinct(w.ips, LastInternal(w.rec.addresses));
  }

  // ----- what cluster steps do to IP sets and VMs -----

  /** The IP sets after a change are earlier ones with the same members, or empty; VMs are earlier ones. */
  ghost predicate NothingGained(conf: Conf, c: Cloud, d: Cloud) {
    && (forall k, g | Named(conf, d, k, IpSetKind, g) ::
          (Named(conf, c, k, IpSetKind, g) && d.objs[g] == c.objs[g]) || d.objs[g].ips == [])
    && (forall m, i | VmOf(conf, d, m, i) :: VmOf(conf, c, m, i) && d.objs[i] == c.objs[i])
  }

  ghost predicate GroupsStay(s: State, d: Cloud) {
    forall k, g | k in s.clusters && !NoOwner(s.owners, k) && Named(s.conf, s.cloud, k, IpSetKind, g) ::
      g in d.objs && d.objs[g] == s.cloud.objs[g]
  }

  lemma MakeGains(s: State, kind: Kind, o: Outcome)
    requires CS.Context(s) && s.cw.pc == CMake(kind)
    ensures NothingGained(s.conf, s.cloud, StepMake(s, kind, o).cloud) && GroupsStay(s, StepMake(s, kind, o).cloud)
  {
    if Applied(o) { CS.MakeCreates(s, kind); }
  }

  lemma AttachGains(s: State, o: Outcome)
    requires CS.Context(s) && s.cw.pc.CAttach?
    ensures NothingGained(s.conf, s.cloud, StepAttach(s, o).cloud) && GroupsStay(s, StepAttach(s, o).cloud)
  {
    var d := StepAttach(s, o).cloud;
    if d != s.cloud {
      var id := s.cw.found.vapp.value;
      UpdateOwned(s.conf, s.cloud, id, s.cloud.objs[id].(network := true));
    }
  }

  lemma DroppedGains(s: State, d: Cloud, id: Id, kind: Kind)
    requires DistinctNames(s.conf) && s.cw.CBusy? && NoOwner(s.owners, s.cw.k)
    requires CS.Dropped1(s.conf, s.cloud, d, id) && Named(s.conf, s.cloud, s.cw.k, kind, id)
    ensures NothingGained(s.conf, s.cloud, d) && GroupsStay(s, d)
  {
    forall k | Named(s.conf, s.cloud, k, IpSetKind, id) ensures k == s.cw.k {
      CS.OwnedByOne(s.conf, s.cloud, s.cw.k, kind, k, IpSetKind, id);
    }
  }

  lemma DropGains(s: State, kind: Kind, o: Outcome)
    requires CS.Context(s) && s.cw.pc == DDrop(kind) && MachinesOk(s.conf, s.cloud, s.infra, s.owners, s.machines)
    ensures NothingGained(s.conf, s.cloud, StepTeardownDrop(s, kind, o).cloud)
    ensures GroupsStay(s, StepTeardownDrop(s, kind, o).cloud)
  {
    var id := At(s.cw.rec.refs, kind).value;
    if id in s.cloud.objs {
      assert CS.Dropped1(s.conf, s.cloud, Drop(s.cloud, id), id) && Named(s.conf, s.cloud, s.cw.k, kind, id) by {
        CS.NoOwnerNoVm(s, s.cw.k);
        CS.TeardownDrops(s, kind);
      }
      DroppedGains(s, Drop(s.cloud, id), id, kind);
    } else {
      assert Drop(s.cloud, id).objs == s.cloud.objs;
    }
  }

  lemma ClusterStepGains(s: State, o: Outcome, addr: string)
    requires CS.Context(s) && MachinesOk(s.conf, s.cloud, s.infra, s.owners, s.machines)
    ensures NothingGained(s.conf, s.cloud, ClusterStep(s, o, addr).cloud)
    ensures GroupsStay(s, ClusterStep(s, o, addr).cloud)
  {
    CS.StepByPc(s, o, addr);
    match s.cw.pc
    case CMake(kind) => MakeGains(s, kind, o);
    case CAttach => AttachGains(s, o);
    case DDrop(kind) => DropGains(s, kind, o);
    case _ =>
  }

  // ----- the invariants, event by event -----

  /** Holds when the cloud never gives a new VM an address that another machine of the cluster claims. */
  ghost predicate ListingOk(s: State)
    requires Shape(s)
  {
    && SetsOk(s.conf, s.cloud)
    && DistinctClaims(s)
    && ReadyListed(s.cloud, s.clusters, s.machines)
    && (s.mw.MBusy? ==> WorkerListed(s.cloud, s.clusters[s.mw.m.cluster].refs.ipset, s.machines[s.mw.m], s.mw))
  }

  /** Holds when, besides, no lost machine pass strands an address. */
  ghost predicate OnlyMembersOk(s: State) {
    OnlyHeld(s.conf, s.cloud, s.machines, s.mw) && WorkerLeft(s.conf, s.cloud, s.mw)
  }

  lemma ListedStays(s: State, d: Cloud, k: CKey, ipset: Option<Id>, a: string)
    requires Inv(s) && k in s.clusters && !NoOwner(s.owners, k) && GroupsStay(s, d)
    requires Listed(s.cloud, s.clusters[k].refs.ipset, a) && ipset == s.clusters[k].refs.ipset
    ensures Listed(d, ipset, a)
  {
    assert ClusterOk(s.conf, s.cloud, k, s.clusters[k], Kept(s.clusters, s.owners, s.cw, k));
    assert RefOk(s.conf, s.cloud, k, IpSetKind, At(s.clusters[k].refs, IpSetKind), true);
  }

  /** Records that only grow their references, and IP sets that stay, keep ready machines listed. */
  lemma ClusterSideListing(s: State, d: Cloud, clusters: map<CKey, ClusterRec>)
    requires Inv(s) && ListingOk(s) && GroupsStay(s, d)
    requires clusters.Keys == s.clusters.Keys
    requires forall k | k in s.clusters && s.clusters[k].refs.ipset.Some? ::
               clusters[k].refs.ipset == s.clusters[k].refs.ipset
    ensures ReadyListed(d, clusters, s.machines)
    ensures s.mw.MBusy? ==> WorkerListed(d, clusters[s.mw.m.cluster].refs.ipset, s.machines[s.mw.m], s.mw)
  {
    forall m | m in s.machines && s.machines[m].ready && s.machines[m].controlPlane && !s.machines[m].deleting
      ensures m.cluster in clusters && Listed(d, clusters[m.cluster].refs.ipset, LastInternal(s.machines[m].addresses))
    {
      HasOwner(s, m);
      ListedStays(s, d, m.cluster, clusters[m.cluster].refs.ipset, LastInternal(s.machines[m].addresses));
    }
    if s.mw.MBusy? {
      WorkerSideListing(s, d, clusters[s.mw.m.cluster].refs.ipset);
    }
  }

  lemma HasOwner(s: State, m: MKey)
    requires Inv(s) && m in s.machines && !s.machines[m].Gone()
    ensures m.cluster in s.clusters && !NoOwner(s.owners, m.cluster)
  {
    assert MachineOk(s.conf, s.cloud, s.infra, s.owners, m, s.machines[m]);
  }

  lemma WorkerSideListing(s: State, d: Cloud, ipset: Option<Id>)
    requires Inv(s) && s.mw.MBusy? && GroupsStay(s, d)
    requires WorkerListed(s.cloud, s.clusters[s.mw.m.cluster].refs.ipset, s.machines[s.mw.m], s.mw)
    requires s.clusters[s.mw.m.cluster].refs.ipset.Some? ==> ipset == s.clusters[s.mw.m.cluster].refs.ipset
    ensures WorkerListed(d, ipset, s.machines[s.mw.m], s.mw)
  {
    var k := s.mw.m.cluster;
    var a := LastInternal(s.mw.rec.addresses);
    if Listed(s.cloud, s.clusters[k].refs.ipset, a) && !s.machines[s.mw.m].Gone() {
      HasOwner(s, s.mw.m);
      ListedStays(s, d, k, ipset, a);
    }
  }

  lemma ClaimsShrink(s: State, t: State)
    requires DistinctClaims(s)
    requires forall m, a | Claims(t, m, a) :: Claims(s, m, a)
    ensures DistinctClaims(t)
  {
  }

  lemma ClusterActListing(s: State, o: Outcome, addr: string)
    requires Inv(s) && s.cw.CBusy? && ListingOk(s)
    ensures ListingOk(ClusterStep(s, o, addr))
  {
    var t := ClusterStep(s, o, addr);
    ClusterStepGains(s, o, addr);
    CommitExtends(s, o, addr);
    ClusterSideListing(s, t.cloud, t.clusters);
    ClusterClaims(s, t);
  }

  lemma ClusterClaims(s: State, t: State)
    requires DistinctClaims(s) && t.machines == s.machines && t.mw == s.mw && t.conf == s.conf
    requires NothingGained(s.conf, s.cloud, t.cloud)
    ensures DistinctClaims(t)
  {
    forall m, a | Claims(t, m, a) ensures Claims(s, m, a) {
      if VmUses(t.conf, t.cloud, m, a) {
        var i :| VmOf(t.conf, t.cloud, m, i) && LastInternal(AddressesOf(t.cloud.objs[i].nics)) == a;
        assert VmOf(s.conf, s.cloud, m, i);
      }
    }
    ClaimsShrink(s, t);
  }

  lemma CommitExtends(s: State, o: Outcome, addr: string)
    requires Inv(s) && s.cw.CBusy?
    ensures var t := ClusterStep(s, o, addr);
            && t.clusters.Keys == s.clusters.Keys
            && forall k | k in s.clusters && s.clusters[k].refs.ipset.Some? ::
                 t.clusters[k].refs.ipset == s.clusters[k].refs.ipset
  {
    CS.StepByPc(s, o, addr);
    if s.cw.pc.CPatch? && Applied(o) && !s.clusters[s.cw.k].Gone() {
      assert At(s.clusters[s.cw.k].refs, IpSetKind).Some? ==>
          At(s.cw.rec.refs, IpSetKind) == At(s.clusters[s.cw.k].refs, IpSetKind);
    }
  }

  lemma ClusterActMembers(s: State, o: Outcome, addr: string)
    requires Inv(s) && s.cw.CBusy? && OnlyMembersOk(s)
    ensures OnlyMembersOk(ClusterStep(s, o, addr))
  {
    ClusterStepGains(s, o, addr);
  }

  // ----- machine steps that leave the cloud alone -----

  /** What a call without effect on the cloud may do to the copy, and when it opens the two gates. */
  ghost predicate QuietMove(s: State, w: MWorker)
    requires s.mw.MBusy?
  {
    && w.MBusy? && w.m == s.mw.m
    && w.rec.addresses == s.mw.rec.addresses && w.rec.controlPlane == s.mw.rec.controlPlane
    && w.rec.deleting == s.mw.rec.deleting
    && (w.rec.ready == s.mw.rec.ready || (s.mw.pc.MReady? && w.pc.MPatch?))
    && (w.pc.MReady? && w.rec.controlPlane ==>
          s.mw.pc.MGroup? && Listed(s.cloud, s.mw.refs.ipset, LastInternal(w.rec.addresses)))
    && (PastLeave(w.pc) ==> PastLeave(s.mw.pc) || s.mw.pc.MFinalizer?
                            || (s.mw.pc.XConnect? && !(w.rec.controlPlane && LastInternal(w.rec.addresses) != "")))
    && (w.pc.MPatch? && !w.rec.finalizer ==> s.mw.pc.XRelease? || !s.mw.rec.finalizer)
    && (s.mw.pc.MFinalizer? && PastLeave(w.pc) ==> w.pc.XRelease? && !InfraRef(s))
  }

  ghost predicate InfraRef(s: State)
    requires s.mw.MBusy?
  {
    s.mw.m.cluster in s.conf && s.conf[s.mw.m.cluster].infraRef
  }

  lemma CreationQuiet(s: State, o: Outcome, nics: Option<seq<string>>)
    requires Shape(s) && s.mw.MBusy? && !MachineChangesCloud(s.mw.pc) && !s.mw.pc.MPatch? && !MTeardown(s.mw.pc)
    ensures QuietMove(s, MachineStep(s, o, nics).mw)
  {
    if s.mw.pc.MFinalizer? { FinalizerQuiet(s, o, nics); } else { MS.PlainSteps(s, o, nics); }
  }

  lemma FinalizerQuiet(s: State, o: Outcome, nics: Option<seq<string>>)
    requires Shape(s) && s.mw.MBusy? && s.mw.pc.MFinalizer?
    ensures QuietMove(s, MachineStep(s, o, nics).mw)
  {
  }

  lemma TeardownQuiet(s: State, o: Outcome)
    requires Shape(s) && s.mw.MBusy? && !MachineChangesCloud(s.mw.pc) && MTeardown(s.mw.pc)
    ensures QuietMove(s, MachineTeardownStep(s, o).mw)
  {
  }

  lemma QuietMoves(s: State, o: Outcome, nics: Option<seq<string>>)
    requires Shape(s) && s.mw.MBusy? && !MachineChangesCloud(s.mw.pc) && !s.mw.pc.MPatch?
    ensures QuietMove(s, MachineStep(s, o, nics).mw)
  {
    if MTeardown(s.mw.pc) { TeardownQuiet(s, o); } else { CreationQuiet(s, o, nics); }
  }

  lemma SameClaims(s: State, w: MWorker)
    requires DistinctClaims(s) && s.mw.MBusy? && w.MBusy? && w.m == s.mw.m && w.rec.addresses == s.mw.rec.addresses
    ensures DistinctClaims(s.(mw := w))
  {
    ClaimsShrink(s, s.(mw := w));
  }

  lemma QuietWorkerListed(s: State, w: MWorker)
    requires Shape(s) && s.mw.MBusy? && MS.WorkerOk(s, s.mw) && !s.mw.pc.MPatch? && QuietMove(s, w) && ListingOk(s)
    requires s.machines[w.m].ready ==> s.machines[w.m].providerId.Some?
    ensures WorkerListed(s.cloud, s.clusters[w.m.cluster].refs.ipset, s.machines[w.m], w)
  {
    var st := s.machines[w.m];
    if w.pc.MReady? && w.rec.controlPlane {
      assert At(s.mw.refs, IpSetKind) == At(s.clusters[w.m.cluster].refs, IpSetKind);
    }
    if w.pc.MPatch? && !s.mw.pc.MReady? && w.rec.ready && w.rec.controlPlane && !st.deleting {
      assert Listed(s.cloud, s.clusters[w.m.cluster].refs.ipset, LastInternal(st.addresses));
    }
  }

  lemma QuietListing(s: State, o: Outcome, nics: Option<seq<string>>)
    requires Inv(s) && s.mw.MBusy? && ListingOk(s) && !MachineChangesCloud(s.mw.pc) && !s.mw.pc.MPatch?
    ensures ListingOk(MachineStep(s, o, nics))
  {
    QuietMoves(s, o, nics);
    assert MachineOk(s.conf, s.cloud, s.infra, s.owners, s.mw.m, s.machines[s.mw.m]);
    QuietWorkerListed(s, MachineStep(s, o, nics).mw);
    SameClaims(s, MachineStep(s, o, nics).mw);
  }

  /** Whoever holds an address keeps holding it while the copy's addresses stay. */
  lemma HeldStays(machines: map<MKey, MachineRec>, w: MWorker, w': MWorker, k: CKey, a: string)
    requires Held(machines, w, k, a)
    requires w.MBusy? && w'.MBusy? && w'.m == w.m && w'.rec.addresses == w.rec.addresses
    ensures Held(machines, w', k, a)
  {
    var m: MKey :| m.cluster == k && HeldBy(machines, w, m, a);
    assert HeldBy(machines, w', m, a);
  }

  lemma QuietMembers(s: State, o: Outcome, nics: Option<seq<string>>)
    requires Inv(s) && s.mw.MBusy? && SetsOk(s.conf, s.cloud) && OnlyMembersOk(s)
    requires !MachineChangesCloud(s.mw.pc) && !s.mw.pc.MPatch?
    ensures OnlyMembersOk(MachineStep(s, o, nics))
  {
    var w := MachineStep(s, o, nics).mw;
    QuietMoves(s, o, nics);
    forall k, g, a | Named(s.conf, s.cloud, k, IpSetKind, g) && a in s.cloud.objs[g].ips
      ensures Held(s.machines, w, k, a)
    {
      HeldStays(s.machines, s.mw, w, k, a);
    }
  }

  // ----- adding, powering on and deleting the VM -----

  /** The address a new VM is given is one nobody else in its cluster claims. */
  ghost predicate FreshAddress(s: State, nics: Option<seq<string>>)
    requires s.mw.MBusy?
  {
    forall m: MKey | m.cluster == s.mw.m.cluster && m != s.mw.m :: !Claims(s, m, LastInternal(AddressesOf(nics)))
  }

  lemma AddClaims(s: State, d: Cloud, pc: MPc, nics: Option<seq<string>>)
    requires Shape(s) && s.mw.MBusy? && DistinctClaims(s) && MS.VmAdded(s, d) && FreshAddress(s, nics)
    requires s.cloud.next in d.objs && d.objs[s.cloud.next].Vm? && d.objs[s.cloud.next].nics == nics
    ensures DistinctClaims(s.(cloud := d, mw := s.mw.(pc := pc)))
  {
    var t := s.(cloud := d, mw := s.mw.(pc := pc));
    forall m, a | Claims(t, m, a)
      ensures Claims(s, m, a) || (m == s.mw.m && a == LastInternal(AddressesOf(nics)))
    {
      if VmUses(t.conf, d, m, a) {
        var i :| VmOf(t.conf, d, m, i) && LastInternal(AddressesOf(d.objs[i].nics)) == a;
        assert i != s.cloud.next ==> VmOf(s.conf, s.cloud, m, i);
      }
    }
  }

  /** The cloud changes only in VMs; the pass goes on or stops with nothing new in its copy. */
  ghost predicate VmMove(s: State, d: Cloud, w: MWorker)
    requires s.mw.MBusy?
  {
    && (forall k, g :: Named(s.conf, d, k, IpSetKind, g) <==> Named(s.conf, s.cloud, k, IpSetKind, g))
    && (forall i | i in s.cloud.objs && s.cloud.objs[i].Group? :: i in d.objs && d.objs[i] == s.cloud.objs[i])
    && w.MBusy? && w.m == s.mw.m && !w.pc.MReady? && !s.mw.pc.MPatch?
    && w.rec == s.mw.rec && w.rec.finalizer
    && (PastLeave(w.pc) ==> PastLeave(s.mw.pc))
  }

  lemma VmMoveListing(s: State, d: Cloud, w: MWorker)
    requires Inv(s) && s.mw.MBusy? && ListingOk(s) && VmMove(s, d, w) && DistinctClaims(s.(cloud := d, mw := w))
    ensures ListingOk(s.(cloud := d, mw := w))
  {
    var ipset := s.clusters[w.m.cluster].refs.ipset;
    if w.pc.MPatch? && w.rec.ready && w.rec.controlPlane && !s.machines[w.m].deleting {
      assert MachineOk(s.conf, s.cloud, s.infra, s.owners, w.m, s.machines[w.m]);
      assert Listed(s.cloud, ipset, LastInternal(s.machines[w.m].addresses));
    }
  }

  lemma VmMoveMembers(s: State, d: Cloud, w: MWorker)
    requires s.mw.MBusy? && OnlyMembersOk(s) && VmMove(s, d, w)
    ensures OnlyMembersOk(s.(cloud := d, mw := w))
  {
    forall k, g, a | Named(s.conf, d, k, IpSetKind, g) && a in d.objs[g].ips ensures Held(s.machines, w, k, a) {
      assert Named(s.conf, s.cloud, k, IpSetKind, g);
      HeldStays(s.machines, s.mw, w, k, a);
    }
  }

  lemma AddMove(s: State, o: Outcome, nics: Option<seq<string>>)
    requires MS.Context(s) && s.mw.pc.MVmAdd?
    ensures VmMove(s, StepVmAdd(s, o, nics).cloud, StepVmAdd(s, o, nics).mw)
  {
    if Applied(o) { MS.AddCreates(s, o, nics); }
  }

  lemma AddListing(s: State, o: Outcome, nics: Option<seq<string>>)
    requires Inv(s) && s.mw.MBusy? && s.mw.pc.MVmAdd? && ListingOk(s) && (Applied(o) ==> FreshAddress(s, nics))
    ensures ListingOk(StepVmAdd(s, o, nics))
  {
    var t := StepVmAdd(s, o, nics);
    MS.ContextHolds(s);
    AddMove(s, o, nics);
    if Applied(o) {
      MS.AddCreates(s, o, nics);
      AddClaims(s, t.cloud, t.mw.pc, nics);
    } else {
      SameClaims(s, t.mw);
    }
    VmMoveListing(s, t.cloud, t.mw);
  }

  lemma DropMove(s: State, o: Outcome)
    requires MS.Context(s) && s.mw.pc.XDrop?
    ensures VmMove(s, StepVmDrop(s, o).cloud, StepVmDrop(s, o).mw)
    ensures forall m, i | VmOf(s.conf, StepVmDrop(s, o).cloud, m, i) ::
              VmOf(s.conf, s.cloud, m, i) && StepVmDrop(s, o).cloud.objs[i] == s.cloud.objs[i]
  {
    MS.VmDropped(s);
  }

  lemma DropListing(s: State, o: Outcome)
    requires Inv(s) && s.mw.MBusy? && s.mw.pc.XDrop? && ListingOk(s)
    ensures ListingOk(StepVmDrop(s, o))
  {
    var t := StepVmDrop(s, o);
    MS.ContextHolds(s);
    DropMove(s, o);
    SameClaims(s, t.mw);
    FewerVms(s.(mw := t.mw), t.cloud);
    VmMoveListing(s, t.cloud, t.mw);
  }

  lemma FewerVms(s: State, d: Cloud)
    requires DistinctClaims(s)
    requires forall m, i | VmOf(s.conf, d, m, i) :: VmOf(s.conf, s.cloud, m, i) && d.objs[i] == s.cloud.objs[i]
    ensures DistinctClaims(s.(cloud := d))
  {
    var t := s.(cloud := d);
    forall m, a | Claims(t, m, a) ensures Claims(s, m, a) {
      if VmUses(s.conf, d, m, a) {
        var i :| VmOf(s.conf, d, m, i) && LastInternal(AddressesOf(d.objs[i].nics)) == a;
        assert VmOf(s.conf, s.cloud, m, i);
      }
    }
    ClaimsShrink(s, t);
  }

  // ----- powering on records the addresses -----

  ghost predicate PowerMove(s: State, d: Cloud, w: MWorker)
    requires s.mw.MBusy?
  {
    && (forall k, g :: Named(s.conf, d, k, IpSetKind, g) <==> Named(s.conf, s.cloud, k, IpSetKind, g))
    && (forall i | i in s.cloud.objs && s.cloud.objs[i].Group? :: i in d.objs && d.objs[i] == s.cloud.objs[i])
    && (forall m, i | VmOf(s.conf, d, m, i) ::
          VmOf(s.conf, s.cloud, m, i) && d.objs[i].Vm? && d.objs[i].nics == s.cloud.objs[i].nics)
    && VmOf(s.conf, s.cloud, s.mw.m, s.mw.vm)
    && s.mw.rec.addresses == []
    && w.MBusy? && w.m == s.mw.m && w.rec.controlPlane == s.mw.rec.controlPlane && w.rec.finalizer && !w.rec.ready
    && (w.rec.addresses == [] || w.rec.addresses == AddressesOf(s.cloud.objs[s.mw.vm].nics))
    && !PastLeave(w.pc) && (w.pc.MReady? ==> !w.rec.controlPlane)
  }

  lemma SwitchKeepsRest(conf: Conf, c: Cloud, vm: Id)
    requires CloudOk(conf, c) && vm in c.objs && c.objs[vm].Vm?
    ensures var d := Update(c, vm, c.objs[vm].(on := true));
            && (forall k, g :: Named(conf, d, k, IpSetKind, g) <==> Named(conf, c, k, IpSetKind, g))
            && (forall i | i in c.objs && c.objs[i].Group? :: i in d.objs && d.objs[i] == c.objs[i])
            && (forall m, i | VmOf(conf, d, m, i) ::
                  VmOf(conf, c, m, i) && d.objs[i].Vm? && d.objs[i].nics == c.objs[i].nics)
  {
    var d := Update(c, vm, c.objs[vm].(on := true));
    UpdateOwned(conf, c, vm, c.objs[vm].(on := true));
    assert forall m, i | VmOf(conf, d, m, i) :: VmOf(conf, c, m, i);
  }

  lemma PowerMoves(s: State, o: Outcome)
    requires MS.Working(s, MPower) && CloudOk(s.conf, s.cloud)
    ensures PowerMove(s, StepPower(s, o).cloud, StepPower(s, o).mw)
  {
    var vm := s.mw.vm;
    var r := s.cloud.objs[vm].(on := true);
    assert StepPower(s, o).cloud == if Applied(o) then Update(s.cloud, vm, r) else s.cloud;
    if Applied(o) { SwitchKeepsRest(s.conf, s.cloud, vm); }
  }

  lemma PowerClaims(s: State, d: Cloud, w: MWorker)
    requires s.mw.MBusy? && DistinctClaims(s) && PowerMove(s, d, w)
    ensures DistinctClaims(s.(cloud := d, mw := w))
  {
    var t := s.(cloud := d, mw := w);
    forall m, a | Claims(t, m, a) ensures Claims(s, m, a) {
      if VmUses(s.conf, d, m, a) {
        var i :| VmOf(s.conf, d, m, i) && LastInternal(AddressesOf(d.objs[i].nics)) == a;
        assert VmOf(s.conf, s.cloud, m, i);
      } else if m == w.m && LastInternal(w.rec.addresses) == a {
        assert VmUses(s.conf, s.cloud, m, a);
      }
    }
    ClaimsShrink(s, t);
  }

  lemma PowerListing(s: State, o: Outcome)
    requires Inv(s) && s.mw.MBusy? && s.mw.pc.MPower? && ListingOk(s)
    ensures ListingOk(StepPower(s, o))
  {
    var t := StepPower(s, o);
    PowerMoves(s, o);
    PowerClaims(s, t.cloud, t.mw);
  }

  lemma PowerMembers(s: State, o: Outcome)
    requires Inv(s) && s.mw.MBusy? && s.mw.pc.MPower? && SetsOk(s.conf, s.cloud) && OnlyMembersOk(s)
    ensures OnlyMembersOk(StepPower(s, o))
  {
    var t := StepPower(s, o);
    assert PowerMove(s, t.cloud, t.mw) by { PowerMoves(s, o); }
    forall k, g, a | Named(s.conf, t.cloud, k, IpSetKind, g) && a in t.cloud.objs[g].ips
      ensures Held(s.machines, t.mw, k, a)
    {
      assert Named(s.conf, s.cloud, k, IpSetKind, g) && a in s.cloud.objs[g].ips;
      PowerHolds(s.machines, s.mw, t.mw, k, a);
    }
  }

  /** A machine that has recorded nothing yet holds no listed address, so it loses none by recording one. */
  lemma PowerHolds(machines: map<MKey, MachineRec>, w: MWorker, w': MWorker, k: CKey, a: string)
    requires w.MBusy? && w.rec.addresses == [] && w'.MBusy? && w'.m == w.m
    requires Held(machines, w, k, a) && a != ""
    ensures Held(machines, w', k, a)
  {
    var m: MKey :| m.cluster == k && HeldBy(machines, w, m, a);
    assert HeldBy(machines, w', m, a);
  }

  // ----- joining and leaving -----

  /** One IP set, the machine's own, has its member list replaced by the pass's new list. */
  ghost predicate Written(s: State, d: Cloud)
    requires s.mw.MBusy?
  {
    && s.mw.refs.ipset.Some?
    && var g := s.mw.refs.ipset.value;
       && Named(s.conf, s.cloud, s.mw.m.cluster, IpSetKind, g)
       && s.cloud.objs[g].ips == s.mw.ips
       && MS.IpsChanged(s.conf, s.cloud, d, g)
       && d.objs[g] == s.cloud.objs[g].(ips := NewIps(s.mw))
  }

  lemma WriteIsWritten(s: State)
    requires Shape(s) && s.mw.MBusy? && MS.WorkerOk(s, s.mw) && CloudOk(s.conf, s.cloud)
    requires s.mw.pc.MJoin? || s.mw.pc.XLeave?
    ensures s.mw.refs.ipset.Some? && s.mw.refs.ipset.value in s.cloud.objs
    ensures s.cloud.objs[s.mw.refs.ipset.value].Group?
    ensures Written(s, WriteIps(s.cloud, s.mw.refs.ipset.value, NewIps(s.mw)))
  {
    MS.ReadGroupExists(s);
    MS.WriteChanges(s.conf, s.cloud, s.mw.refs.ipset.value, NewIps(s.mw));
  }

  ghost predicate Writer(w: MWorker) {
    && w.MBusy? && (w.pc.MJoin? || w.pc.XLeave?)
    && w.rec.controlPlane && w.rec.finalizer && (w.pc.XLeave? ==> w.rec.deleting)
    && LastInternal(w.rec.addresses) != ""
    && (w.pc.MJoin? ==> LastInternal(w.rec.addresses) !in w.ips)
  }

  lemma WriterHolds(s: State)
    requires Shape(s) && s.mw.MBusy? && MS.WorkerOk(s, s.mw) && (s.mw.pc.MJoin? || s.mw.pc.XLeave?)
    ensures Writer(s.mw)
  {
  }

  lemma WrittenSets(s: State, d: Cloud)
    requires Writer(s.mw) && SetsOk(s.conf, s.cloud) && Written(s, d)
    ensures SetsOk(s.conf, d)
    ensures s.mw.pc.MJoin? ==> forall a :: a in NewIps(s.mw) <==> a in s.mw.ips || a == LastInternal(s.mw.rec.addresses)
    ensures s.mw.pc.XLeave? ==>
              forall a :: a in NewIps(s.mw) <==> a in s.mw.ips && a != LastInternal(s.mw.rec.addresses)
  {
    WriteMembers(s.mw);
    forall k, g | Named(s.conf, d, k, IpSetKind, g) ensures NoDuplicates(d.objs[g].ips) && "" !in d.objs[g].ips {
      assert Named(s.conf, s.cloud, k, IpSetKind, g);
    }
  }

  /** A leaving machine's address differs from every listed one that another ready machine relies on. */
  lemma WrittenReady(s: State, d: Cloud)
    requires Inv(s) && Writer(s.mw) && ListingOk(s) && Written(s, d)
    ensures ReadyListed(d, s.clusters, s.machines)
  {
    WrittenSets(s, d);
    forall m | m in s.machines && s.machines[m].ready && s.machines[m].controlPlane && !s.machines[m].deleting
      ensures Listed(d, s.clusters[m.cluster].refs.ipset, LastInternal(s.machines[m].addresses))
    {
      StillListed(s, d, m);
    }
  }

  lemma StillListed(s: State, d: Cloud, m: MKey)
    requires Inv(s) && Writer(s.mw) && ListingOk(s) && Written(s, d)
    requires m in s.machines && s.machines[m].ready && s.machines[m].controlPlane && !s.machines[m].deleting
    requires s.mw.pc.MJoin? ==>
               forall a :: a in NewIps(s.mw) <==> a in s.mw.ips || a == LastInternal(s.mw.rec.addresses)
    requires s.mw.pc.XLeave? ==>
               forall a :: a in NewIps(s.mw) <==> a in s.mw.ips && a != LastInternal(s.mw.rec.addresses)
    ensures Listed(d, s.clusters[m.cluster].refs.ipset, LastInternal(s.machines[m].addresses))
  {
    var g := s.mw.refs.ipset.value;
    var a := LastInternal(s.machines[m].addresses);
    var ipset := s.clusters[m.cluster].refs.ipset;
    RecordedSet(s, m);
    if ipset.value == g {
      CS.OwnedByOne(s.conf, s.cloud, m.cluster, IpSetKind, s.mw.m.cluster, IpSetKind, g);
      assert Claims(s, m, a);
      assert Claims(s, s.mw.m, LastInternal(s.mw.rec.addresses)) by { assert !s.machines[s.mw.m].Gone(); }
    }
  }

  lemma RecordedSet(s: State, m: MKey)
    requires Inv(s) && ListingOk(s)
    requires m in s.machines && s.machines[m].ready && s.machines[m].controlPlane && !s.machines[m].deleting
    ensures var ipset := s.clusters[m.cluster].refs.ipset;
            ipset.Some? && Named(s.conf, s.cloud, m.cluster, IpSetKind, ipset.value)
            && LastInternal(s.machines[m].addresses) in s.cloud.objs[ipset.value].ips
            && LastInternal(s.machines[m].addresses) != ""
  {
    HasOwner(s, m);
    assert ClusterOk(s.conf, s.cloud, m.cluster, s.clusters[m.cluster], Kept(s.clusters, s.owners, s.cw, m.cluster));
    assert RefOk(s.conf, s.cloud, m.cluster, IpSetKind, At(s.clusters[m.cluster].refs, IpSetKind), true);
  }

  lemma WrittenWorker(s: State, d: Cloud, pc: MPc)
    requires Inv(s) && Writer(s.mw) && ListingOk(s) && Written(s, d) && ReadyListed(d, s.clusters, s.machines)
    requires pc.MPatch? || (s.mw.pc.MJoin? && pc.MReady?) || (s.mw.pc.XLeave? && pc.XVApp?)
    ensures WorkerListed(d, s.clusters[s.mw.m.cluster].refs.ipset, s.machines[s.mw.m], s.mw.(pc := pc))
  {
    WrittenSets(s, d);
    var st := s.machines[s.mw.m];
    assert At(s.mw.refs, IpSetKind) == At(s.clusters[s.mw.m.cluster].refs, IpSetKind);
    if pc.MPatch? && s.mw.rec.ready && !st.deleting {
      assert MachineOk(s.conf, s.cloud, s.infra, s.owners, s.mw.m, st);
      assert Listed(d, s.clusters[s.mw.m.cluster].refs.ipset, LastInternal(st.addresses));
    }
  }

  lemma WrittenClaims(s: State, d: Cloud, pc: MPc)
    requires s.mw.MBusy? && DistinctClaims(s) && Written(s, d)
    ensures DistinctClaims(s.(cloud := d, mw := s.mw.(pc := pc)))
  {
    SameClaims(s, s.mw.(pc := pc));
    FewerVms(s.(mw := s.mw.(pc := pc)), d);
  }

  lemma WriteListing(s: State, d: Cloud, pc: MPc)
    requires Inv(s) && Writer(s.mw) && ListingOk(s) && Written(s, d)
    requires pc.MPatch? || (s.mw.pc.MJoin? && pc.MReady?) || (s.mw.pc.XLeave? && pc.XVApp?)
    ensures ListingOk(s.(cloud := d, mw := s.mw.(pc := pc)))
  {
    WrittenSets(s, d);
    WrittenReady(s, d);
    WrittenWorker(s, d, pc);
    WrittenClaims(s, d, pc);
  }

  lemma WriteMembersKept(s: State, d: Cloud, pc: MPc)
    requires DistinctNames(s.conf) && Writer(s.mw)
    requires HeldBy(s.machines, s.mw, s.mw.m, LastInternal(s.mw.rec.addresses))
    requires SetsOk(s.conf, s.cloud) && OnlyMembersOk(s) && Written(s, d)
    requires pc.MPatch? || (s.mw.pc.MJoin? && pc.MReady?) || (s.mw.pc.XLeave? && pc.XVApp?)
    ensures OnlyMembersOk(s.(cloud := d, mw := s.mw.(pc := pc)))
  {
    WrittenSets(s, d);
    var w := s.mw.(pc := pc);
    forall k, g, a | Named(s.conf, d, k, IpSetKind, g) && a in d.objs[g].ips ensures Held(s.machines, w, k, a) {
      assert Named(s.conf, s.cloud, k, IpSetKind, g);
      if a in s.cloud.objs[g].ips {
        HeldStays(s.machines, s.mw, w, k, a);
      } else {
        CS.OwnedByOne(s.conf, s.cloud, k, IpSetKind, s.mw.m.cluster, IpSetKind, g);
        assert HeldBy(s.machines, w, s.mw.m, a);
      }
    }
  }

  // ----- patching and losing the patch -----

  lemma IdleListing(s: State)
    requires Shape(s) && ListingOk(s)
    ensures ListingOk(s.(mw := MIdle))
  {
    ClaimsShrink(s, s.(mw := MIdle));
  }

  lemma CommitListing(s: State)
    requires Shape(s) && s.mw.MBusy? && s.mw.pc.MPatch? && ListingOk(s)
    requires s.mw.rec.controlPlane == s.machines[s.mw.m].controlPlane
    ensures ListingOk(MS.Committed(s))
  {
    var t := MS.Committed(s);
    forall m, a | Claims(t, m, a) ensures Claims(s, m, a) {
      assert m != s.mw.m ==> t.machines[m] == s.machines[m];
    }
    ClaimsShrink(s, t);
  }

  /** The patch stores the very addresses that counted during the pass, or releases a machine that is not listed. */
  lemma CommitHolds(s: State, k: CKey, a: string)
    requires Shape(s) && s.mw.MBusy? && s.mw.pc.MPatch? && Held(s.machines, s.mw, k, a)
    requires s.mw.rec.controlPlane == s.machines[s.mw.m].controlPlane
    requires s.mw.m.cluster == k && LastInternal(s.mw.rec.addresses) == a && s.mw.rec.controlPlane ==>
               s.mw.rec.finalizer
    ensures Held(MS.Committed(s).machines, MIdle, k, a)
  {
    var m: MKey :| m.cluster == k && HeldBy(s.machines, s.mw, m, a);
    assert HeldBy(MS.Committed(s).machines, MIdle, m, a);
  }

  lemma CommitMembers(s: State)
    requires Shape(s) && s.mw.MBusy? && s.mw.pc.MPatch? && OnlyMembersOk(s)
    requires s.mw.rec.controlPlane == s.machines[s.mw.m].controlPlane
    ensures OnlyMembersOk(MS.Committed(s))
  {
    forall k, g, a | Named(s.conf, s.cloud, k, IpSetKind, g) && a in s.cloud.objs[g].ips
      ensures Held(MS.Committed(s).machines, MIdle, k, a)
    {
      CommitHolds(s, k, a);
    }
  }

  // ----- every event -----

  ghost predicate GivesDistinct(s: State, e: Event) {
    e.MachineAct? && s.mw.MBusy? && s.mw.pc.MVmAdd? && Applied(e.o) ==> FreshAddress(s, e.nics)
  }

  /** The event ends a machine pass without storing what it did. */
  ghost predicate LosesPass(s: State, e: Event) {
    s.mw.MBusy? && (e.MachineCrash? || (e.MachineAct? && s.mw.pc.MPatch? && !Applied(e.o)))
  }

  /**
    The running pass has listed an address that the stored object does not know: it is a control-plane machine's,
    holding its finalizer, whose provider id has not been stored yet.
  */
  ghost predicate Strands(s: State)
    requires Shape(s)
  {
    && s.mw.MBusy?
    && s.machines[s.mw.m].controlPlane && s.machines[s.mw.m].finalizer && s.machines[s.mw.m].providerId.None?
    && exists g :: Named(s.conf, s.cloud, s.mw.m.cluster, IpSetKind, g)
                   && LastInternal(s.mw.rec.addresses) in s.cloud.objs[g].ips
  }

  lemma HeldWithoutPass(machines: map<MKey, MachineRec>, w: MWorker, k: CKey, a: string)
    requires w.MBusy? && w.m in machines && Held(machines, w, k, a)
    requires HeldBy(machines, w, w.m, a) && w.m.cluster == k ==> w.rec.addresses == machines[w.m].addresses
    ensures Held(machines, MIdle, k, a)
  {
    var m: MKey :| m.cluster == k && HeldBy(machines, w, m, a);
    assert HeldBy(machines, MIdle, m, a);
  }

  lemma HarmlessLoss(s: State)
    requires Shape(s) && s.mw.MBusy? && MS.WorkerOk(s, s.mw) && OnlyMembersOk(s) && !Strands(s)
    ensures OnlyMembersOk(s.(mw := MIdle))
  {
    forall k, g, a | Named(s.conf, s.cloud, k, IpSetKind, g) && a in s.cloud.objs[g].ips
      ensures Held(s.machines, MIdle, k, a)
    {
      HeldWithoutPass(s.machines, s.mw, k, a);
    }
  }

  lemma StrandingLoss(s: State)
    requires Shape(s) && ListingOk(s) && Strands(s) && s.machines[s.mw.m].addresses == []
    ensures !OnlyMembersOk(s.(mw := MIdle))
  {
    var a := LastInternal(s.mw.rec.addresses);
    var g :| Named(s.conf, s.cloud, s.mw.m.cluster, IpSetKind, g) && a in s.cloud.objs[g].ips;
    assert Claims(s, s.mw.m, a);
    forall m: MKey | m.cluster == s.mw.m.cluster ensures !HeldBy(s.machines, MIdle, m, a) {
      assert m in s.machines && s.machines[m].finalizer && LastInternal(s.machines[m].addresses) == a ==>
          Claims(s, m, a);
    }
    assert !Held(s.machines, MIdle, s.mw.m.cluster, a);
  }

  /** Losing a pass leaves an address in the IP set that nobody has recorded exactly when the pass strands it. */
  lemma LossStrandsExactly(s: State)
    requires Inv(s) && ListingOk(s) && OnlyMembersOk(s) && s.mw.MBusy?
    ensures OnlyMembersOk(s.(mw := MIdle)) <==> !Strands(s)
  {
    if Strands(s) {
      assert MachineOk(s.conf, s.cloud, s.infra, s.owners, s.mw.m, s.machines[s.mw.m]);
      StrandingLoss(s);
    } else {
      HarmlessLoss(s);
    }
  }

  lemma MachineActListing(s: State, o: Outcome, nics: Option<seq<string>>)
    requires Inv(s) && s.mw.MBusy? && ListingOk(s) && GivesDistinct(s, MachineAct(o, nics))
    ensures ListingOk(MachineStep(s, o, nics))
  {
    if !MachineChangesCloud(s.mw.pc) && !s.mw.pc.MPatch? { QuietListing(s, o, nics); } else { LoudListing(s, o, nics); }
  }

  lemma LoudListing(s: State, o: Outcome, nics: Option<seq<string>>)
    requires Inv(s) && s.mw.MBusy? && ListingOk(s) && GivesDistinct(s, MachineAct(o, nics))
    requires MachineChangesCloud(s.mw.pc) || s.mw.pc.MPatch?
    ensures ListingOk(MachineStep(s, o, nics))
  {
    MS.StepByPc(s, o, nics);
    match s.mw.pc
    case MVmAdd => AddListing(s, o, nics);
    case MPower => PowerListing(s, o);
    case MJoin => WriteStepListing(s, o, MReady);
    case XLeave => WriteStepListing(s, o, XVApp);
    case XDrop => DropListing(s, o);
    case MPatch => if Applied(o) { CommitListing(s); } else { IdleListing(s); }
  }

  lemma WriteStepListing(s: State, o: Outcome, done: MPc)
    requires Inv(s) && s.mw.MBusy? && ListingOk(s)
    requires (s.mw.pc.MJoin? && done.MReady?) || (s.mw.pc.XLeave? && done.XVApp?)
    ensures ListingOk(StepWriteGroup(s, o, done))
  {
    MS.ReadGroupExists(s);
    WriterHolds(s);
    var d := WriteIps(s.cloud, s.mw.refs.ipset.value, NewIps(s.mw));
    var pc := if o.Good? then done else MPatch;
    assert StepWriteGroup(s, o, done) == s.(cloud := if Applied(o) then d else s.cloud, mw := s.mw.(pc := pc));
    if Applied(o) {
      assert Written(s, d) by { WriteIsWritten(s); }
      WriteListing(s, d, pc);
    } else {
      RefusedListing(s, s.mw.(pc := MPatch));
    }
  }

  lemma RefusedMove(s: State, w: MWorker)
    requires Writer(s.mw) && w == s.mw.(pc := MPatch)
    ensures VmMove(s, s.cloud, w)
  {
  }

  lemma RefusedListing(s: State, w: MWorker)
    requires Inv(s) && s.mw.MBusy? && ListingOk(s) && Writer(s.mw) && w == s.mw.(pc := MPatch)
    ensures ListingOk(s.(mw := w))
  {
    RefusedMove(s, w);
    SameClaims(s, w);
    VmMoveListing(s, s.cloud, w);
  }

  lemma MachineActMembers(s: State, o: Outcome, nics: Option<seq<string>>)
    requires Inv(s) && s.mw.MBusy? && SetsOk(s.conf, s.cloud) && OnlyMembersOk(s)
    requires LosesPass(s, MachineAct(o, nics)) ==> !Strands(s)
    ensures OnlyMembersOk(MachineStep(s, o, nics))
  {
    if !MachineChangesCloud(s.mw.pc) && !s.mw.pc.MPatch? { QuietMembers(s, o, nics); } else { LoudMembers(s, o, nics); }
  }

  lemma VmStepMembers(s: State, o: Outcome, nics: Option<seq<string>>)
    requires Inv(s) && s.mw.MBusy? && OnlyMembersOk(s) && (s.mw.pc.MVmAdd? || s.mw.pc.XDrop?)
    ensures OnlyMembersOk(MachineStep(s, o, nics))
  {
    var t := MachineStep(s, o, nics);
    assert VmMove(s, t.cloud, t.mw) by {
      MS.StepByPc(s, o, nics);
      MS.ContextHolds(s);
      if s.mw.pc.MVmAdd? { AddMove(s, o, nics); } else { DropMove(s, o); }
    }
    VmMoveMembers(s, t.cloud, t.mw);
  }

  lemma LoudMembers(s: State, o: Outcome, nics: Option<seq<string>>)
    requires Inv(s) && s.mw.MBusy? && SetsOk(s.conf, s.cloud) && OnlyMembersOk(s)
    requires LosesPass(s, MachineAct(o, nics)) ==> !Strands(s)
    requires MachineChangesCloud(s.mw.pc) || s.mw.pc.MPatch?
    ensures OnlyMembersOk(MachineStep(s, o, nics))
  {
    if s.mw.pc.MPower? {
      assert MachineStep(s, o, nics) == StepPower(s, o) by { MS.StepByPc(s, o, nics); }
      PowerMembers(s, o);
    } else if s.mw.pc.MJoin? {
      assert MachineStep(s, o, nics) == StepWriteGroup(s, o, MReady) by { MS.StepByPc(s, o, nics); }
      WriteStepMembers(s, o, MReady);
    } else if s.mw.pc.XLeave? {
      assert MachineStep(s, o, nics) == StepWriteGroup(s, o, XVApp) by { MS.StepByPc(s, o, nics); }
      WriteStepMembers(s, o, XVApp);
    } else if s.mw.pc.MPatch? {
      assert MachineStep(s, o, nics) == if Applied(o) then MS.Committed(s) else s.(mw := MIdle) by {
        MS.StepByPc(s, o, nics);
      }
      if Applied(o) { CommitMembers(s); } else { HarmlessLoss(s); }
    } else {
      VmStepMembers(s, o, nics);
    }
  }

  lemma WriteStepMembers(s: State, o: Outcome, done: MPc)
    requires Inv(s) && s.mw.MBusy? && SetsOk(s.conf, s.cloud) && OnlyMembersOk(s)
    requires (s.mw.pc.MJoin? && done.MReady?) || (s.mw.pc.XLeave? && done.XVApp?)
    ensures OnlyMembersOk(StepWriteGroup(s, o, done))
  {
    MS.ReadGroupExists(s);
    WriterHolds(s);
    var d := WriteIps(s.cloud, s.mw.refs.ipset.value, NewIps(s.mw));
    var pc := if o.Good? then done else MPatch;
    assert StepWriteGroup(s, o, done) == s.(cloud := if Applied(o) then d else s.cloud, mw := s.mw.(pc := pc));
    if Applied(o) {
      assert Written(s, d) by { WriteIsWritten(s); }
      WriteMembersKept(s, d, pc);
    } else {
      RefusedMembers(s, s.mw.(pc := MPatch));
    }
  }

  lemma RefusedMembers(s: State, w: MWorker)
    requires s.mw.MBusy? && OnlyMembersOk(s) && Writer(s.mw) && w == s.mw.(pc := MPatch)
    ensures OnlyMembersOk(s.(mw := w))
  {
    RefusedMove(s, w);
    VmMoveMembers(s, s.cloud, w);
  }

  lemma BeginListing(s: State, m: MKey)
    requires Shape(s) && s.mw.MIdle? && m in s.machines && ListingOk(s)
    ensures ListingOk(MachineBegun(s, m))
  {
    ClaimsShrink(s, MachineBegun(s, m));
  }

  lemma StoreListing(s: State, e: Event)
    requires Shape(s) && Enabled(s, e) && ListingOk(s)
    requires e.DeleteMachine? || e.OwnerLeaves? || e.DeleteCluster? || e.MirrorReady?
    ensures ListingOk(Apply(s, e))
  {
    ClaimsShrink(s, Apply(s, e));
  }

  lemma CreateListing(s: State, m: MKey, cp: bool)
    requires Shape(s) && Enabled(s, CreateMachine(m, cp)) && ListingOk(s) && NoVm(s.conf, s.cloud, m)
    ensures ListingOk(Apply(s, CreateMachine(m, cp)))
  {
    ClaimsShrink(s, Apply(s, CreateMachine(m, cp)));
  }

  lemma EventListing(s: State, e: Event)
    requires Inv(s) && Enabled(s, e) && ListingOk(s) && GivesDistinct(s, e)
    ensures ListingOk(Apply(s, e))
  {
    match e
    case ClusterAct(o, addr) => ClusterActListing(s, o, addr);
    case MachineAct(o, nics) => MachineActListing(s, o, nics);
    case CreateMachine(m, cp) =>
      assert NoVm(s.conf, s.cloud, m);
      CreateListing(s, m, cp);
    case _ => QuietEventListing(s, e);
  }

  lemma QuietEventListing(s: State, e: Event)
    requires Shape(s) && Enabled(s, e) && ListingOk(s) && !e.ClusterAct? && !e.MachineAct? && !e.CreateMachine?
    ensures ListingOk(Apply(s, e))
  {
    match e
    case MachineBegin(m) => BeginListing(s, m);
    case MachineCrash => IdleListing(s);
    case ClusterBegin(_) => ClaimsShrink(s, Apply(s, e));
    case ClusterCrash => ClaimsShrink(s, Apply(s, e));
    case _ => StoreListing(s, e);
  }

  /** Machines that were there keep what makes them holders. */
  ghost predicate HoldersStay(machines: map<MKey, MachineRec>, w: MWorker,
                              machines': map<MKey, MachineRec>, w': MWorker) {
    forall m | m in machines ::
      && m in machines'
      && machines'[m].controlPlane == machines[m].controlPlane && machines'[m].finalizer == machines[m].finalizer
      && Current(machines', w', m) == Current(machines, w, m)
  }

  lemma HeldGrows(machines: map<MKey, MachineRec>, w: MWorker, machines': map<MKey, MachineRec>, w': MWorker,
                  k: CKey, a: string)
    requires HoldersStay(machines, w, machines', w') && Held(machines, w, k, a)
    ensures Held(machines', w', k, a)
  {
    var m: MKey :| m.cluster == k && HeldBy(machines, w, m, a);
    assert HeldBy(machines', w', m, a);
  }

  lemma StoreHolders(s: State, e: Event)
    requires Shape(s) && Enabled(s, e) && !e.ClusterAct? && !e.MachineAct? && !e.MachineCrash?
    ensures Apply(s, e).cloud == s.cloud
    ensures HoldersStay(s.machines, s.mw, Apply(s, e).machines, Apply(s, e).mw)
    ensures Apply(s, e).mw == s.mw || e.MachineBegin?
  {
  }

  lemma StoreMembers(s: State, e: Event)
    requires Shape(s) && Enabled(s, e) && OnlyMembersOk(s) && !e.ClusterAct? && !e.MachineAct? && !e.MachineCrash?
    ensures OnlyMembersOk(Apply(s, e))
  {
    StoreHolders(s, e);
    var t := Apply(s, e);
    forall k, g, a | Named(s.conf, s.cloud, k, IpSetKind, g) && a in s.cloud.objs[g].ips
      ensures Held(t.machines, t.mw, k, a)
    {
      HeldGrows(s.machines, s.mw, t.machines, t.mw, k, a);
    }
  }

  lemma EventMembers(s: State, e: Event)
    requires Inv(s) && Enabled(s, e) && SetsOk(s.conf, s.cloud) && OnlyMembersOk(s)
    requires LosesPass(s, e) ==> !Strands(s)
    ensures OnlyMembersOk(Apply(s, e))
  {
    match e
    case ClusterAct(o, addr) => ClusterActMembers(s, o, addr);
    case MachineAct(o, nics) => MachineActMembers(s, o, nics);
    case MachineCrash => HarmlessLoss(s);
    case _ => StoreMembers(s, e);
  }

  // ----- no duplicates, whatever the addresses -----

  ghost predicate SameGroups(conf: Conf, c: Cloud, d: Cloud) {
    && (forall k, g :: Named(conf, d, k, IpSetKind, g) <==> Named(conf, c, k, IpSetKind, g))
    && (forall i | i in c.objs && c.objs[i].Group? :: i in d.objs && d.objs[i] == c.objs[i])
  }

  lemma VmStepSameGroups(s: State, o: Outcome, nics: Option<seq<string>>)
    requires MS.Context(s) && (s.mw.pc.MVmAdd? || s.mw.pc.XDrop? || s.mw.pc.MPower?)
    ensures SameGroups(s.conf, s.cloud, MachineStep(s, o, nics).cloud)
  {
    MS.StepByPc(s, o, nics);
    match s.mw.pc
    case MVmAdd => AddMove(s, o, nics);
    case XDrop => DropMove(s, o);
    case MPower => PowerMoves(s, o);
  }

  lemma WriteSets(s: State, o: Outcome, nics: Option<seq<string>>)
    requires MS.Context(s) && SetsOk(s.conf, s.cloud) && (s.mw.pc.MJoin? || s.mw.pc.XLeave?)
    ensures SetsOk(s.conf, MachineStep(s, o, nics).cloud)
  {
    MS.StepByPc(s, o, nics);
    if Applied(o) {
      WriteIsWritten(s);
      WriterHolds(s);
      WrittenSets(s, WriteIps(s.cloud, s.mw.refs.ipset.value, NewIps(s.mw)));
    }
  }

  lemma MachineActSets(s: State, o: Outcome, nics: Option<seq<string>>)
    requires MS.Context(s) && SetsOk(s.conf, s.cloud)
    ensures SetsOk(s.conf, MachineStep(s, o, nics).cloud)
  {
    if s.mw.pc.MJoin? || s.mw.pc.XLeave? {
      WriteSets(s, o, nics);
    } else if MachineChangesCloud(s.mw.pc) {
      VmStepSameGroups(s, o, nics);
    }
  }

  lemma EventSets(s: State, e: Event)
    requires Inv(s) && Enabled(s, e) && SetsOk(s.conf, s.cloud)
    ensures SetsOk(s.conf, Apply(s, e).cloud)
  {
    if e.ClusterAct? {
      ClusterStepGains(s, e.o, e.addr);
    } else if e.MachineAct? {
      MS.ContextHolds(s);
      MachineActSets(s, e.o, e.nics);
    }
  }

  lemma {:induction false} RunKeepsSets(s: State, es: seq<Event>, t: State)
    requires Inv(s) && SetsOk(s.conf, s.cloud) && Runs(s, es, t)
    ensures SetsOk(t.conf, t.cloud)
    decreases |es|
  {
    if es != [] {
      EventKeeps(s, es[0]);
      EventSets(s, es[0]);
      RunKeepsSets(Apply(s, es[0]), es[1..], t);
    }
  }

  /** In every reachable state, whatever addresses the cloud gives, an IP set lists no address twice and none empty. */
  lemma MembersAreDistinct(s: State, k: CKey, g: Id)
    requires Reachable(s) && Named(s.conf, s.cloud, k, IpSetKind, g)
    ensures NoDuplicates(s.cloud.objs[g].ips) && "" !in s.cloud.objs[g].ips
  {
    var s0, es :| Init(s0) && Runs(s0, es, s);
    InitMembership(s0);
    RunKeepsSets(s0, es, s);
  }

  // ----- every run -----

  /**
    A run in which the cloud gives every new VM an address that no other machine of its cluster claims and, with
    `unstranded`, no pass is lost at a point where it strands an address. Passes may fail and be lost otherwise.
  */
  ghost predicate DistinctRuns(s: State, es: seq<Event>, t: State, unstranded: bool)
    decreases |es|
  {
    && Shape(s)
    && if es == [] then s == t
       else
         && Enabled(s, es[0]) && GivesDistinct(s, es[0])
         && (unstranded && LosesPass(s, es[0]) ==> !Strands(s))
         && DistinctRuns(Apply(s, es[0]), es[1..], t, unstranded)
  }

  lemma {:induction false} RunKeepsMembership(s: State, es: seq<Event>, t: State, unstranded: bool)
    requires Inv(s) && ListingOk(s) && (unstranded ==> OnlyMembersOk(s)) && DistinctRuns(s, es, t, unstranded)
    ensures Inv(t) && ListingOk(t) && (unstranded ==> OnlyMembersOk(t))
    decreases |es|
  {
    if es != [] {
      EventKeeps(s, es[0]);
      EventListing(s, es[0]);
      if unstranded { EventMembers(s, es[0]); }
      RunKeepsMembership(Apply(s, es[0]), es[1..], t, unstranded);
    }
  }

  lemma InitMembership(s: State)
    requires Init(s)
    ensures Inv(s) && ListingOk(s) && OnlyMembersOk(s)
  {
    InitEstablishes(s);
    forall k, g ensures !Named(s.conf, s.cloud, k, IpSetKind, g) {
      assert k in s.conf ==> Absent(s.conf, s.cloud, k, IpSetKind);
    }
  }

  /**
    With distinct addresses, whatever fails or is lost: the IP set of a cluster has no duplicates and contains the
    address of every control-plane machine stored as ready and not deleted.
  */
  lemma ReadyMachinesAreMembers(s: State, es: seq<Event>, t: State, m: MKey)
    requires Init(s) && DistinctRuns(s, es, t, false)
    requires m in t.machines && t.machines[m].ready && t.machines[m].controlPlane && !t.machines[m].deleting
    ensures exists g :: && Named(t.conf, t.cloud, m.cluster, IpSetKind, g)
                        && LastInternal(t.machines[m].addresses) in t.cloud.objs[g].ips
                        && NoDuplicates(t.cloud.objs[g].ips)
  {
    InitMembership(s);
    RunKeepsMembership(s, es, t, false);
    RecordedSet(t, m);
  }

  /**
    If besides no pass is lost where it strands its address, then between machine passes the IP set lists only
    addresses recorded by control-plane machines that still hold their finalizer.
  */
  lemma OnlyRecordedAreMembers(s: State, es: seq<Event>, t: State, k: CKey, g: Id, a: string)
    requires Init(s) && DistinctRuns(s, es, t, true) && t.mw.MIdle?
    requires Named(t.conf, t.cloud, k, IpSetKind, g) && a in t.cloud.objs[g].ips
    ensures exists m: MKey :: && m.cluster == k && m in t.machines && t.machines[m].controlPlane
                              && t.machines[m].finalizer && LastInternal(t.machines[m].addresses) == a
  {
    InitMembership(s);
    RunKeepsMembership(s, es, t, true);
    HolderIsRecorded(t.machines, k, a);
  }

  lemma HolderIsRecorded(machines: map<MKey, MachineRec>, k: CKey, a: string)
    requires Held(machines, MIdle, k, a)
    ensures exists m: MKey :: && m.cluster == k && m in machines && machines[m].controlPlane
                              && machines[m].finalizer && LastInternal(machines[m].addresses) == a
  {
    var m: MKey :| m.cluster == k && HeldBy(machines, MIdle, m, a);
  }

  lemma NobodyHoldsNothing(ips: seq<string>, machines: map<MKey, MachineRec>, w: MWorker, k: CKey)
    requires forall a | a in ips :: Held(machines, w, k, a)
    requires forall m: MKey | m.cluster == k && m in machines :: !machines[m].finalizer
    ensures ips == []
  {
    assert forall a :: !Held(machines, w, k, a);
    EmptyOrInhabited(ips);
  }

  lemma EmptyOrInhabited(ips: seq<string>)
    ensures ips == [] || exists a :: a in ips
  {
    if ips != [] { assert ips[0] in ips; }
  }

  /** So once the last machine is gone the IP set is empty, and it cannot hold up the cluster's deletion. */
  lemma LastMachineEmptiesTheSet(s: State, es: seq<Event>, t: State, k: CKey, g: Id)
    requires Init(s) && DistinctRuns(s, es, t, true) && NoOwner(t.owners, k)
    requires Named(t.conf, t.cloud, k, IpSetKind, g)
    ensures t.cloud.objs[g].ips == []
  {
    InitMembership(s);
    RunKeepsMembership(s, es, t, true);
    CS.NoOwnerNoVm(t, k);
    NobodyHoldsNothing(t.cloud.objs[g].ips, t.machines, t.mw, k);
  }
}
