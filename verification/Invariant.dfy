/** What holds in every state of every run, and the start states. */
module Invariant {
  import opened Options
  import opened Clouds
  import opened Naming
  import opened Protocol

  type Conf = map<CKey, ClusterConf>

  // ----- objects that belong to a cluster or a machine -----

  /** `i` is an object of this kind under the name derived for cluster `k`. */
  ghost predicate Named(conf: Conf, c: Cloud, k: CKey, kind: Kind, i: Id) {
    k in conf && i in c.objs && IsA(c.objs[i], kind, NameFor(conf[k], kind))
  }

  ghost predicate Absent(conf: Conf, c: Cloud, k: CKey, kind: Kind) {
    forall i :: !Named(conf, c, k, kind, i)
  }

  /** `i` is a VM with the name of machine `m` inside the vApp of its cluster. */
  ghost predicate VmOf(conf: Conf, c: Cloud, m: MKey, i: Id) {
    i in c.objs && c.objs[i].Vm? && c.objs[i].name == m.name && Named(conf, c, m.cluster, VAppKind, c.objs[i].vapp)
  }

  ghost predicate NoVm(conf: Conf, c: Cloud, m: MKey) {
    forall i :: !VmOf(conf, c, m, i)
  }

  // ----- the cloud -----

  ghost predicate DistinctNames(conf: Conf) {
    forall k, k', kind: Kind | k in conf && k' in conf && NameFor(conf[k], kind) == NameFor(conf[k'], kind) :: k == k'
  }

  /** No dangling reference: a service's pool, a pool's member group and a VM's vApp exist. */
  ghost predicate Integrity(c: Cloud) {
    forall i | i in c.objs ::
      && (c.objs[i].Service? ==> c.objs[i].pool in c.objs && c.objs[c.objs[i].pool].Pool?)
      && (c.objs[i].Pool? ==> c.objs[i].group in c.objs && c.objs[c.objs[i].group].Group?)
      && (c.objs[i].Vm? ==> c.objs[i].vapp in c.objs && c.objs[c.objs[i].vapp].VApp?)
  }

  /** A service leads to a cluster's pool exactly when it is that cluster's service; likewise pool and IP set. */
  ghost predicate Linked(conf: Conf, c: Cloud) {
    forall k, i | k in conf && i in c.objs ::
      && (c.objs[i].Service? ==>
            (Named(conf, c, k, ServiceKind, i) <==> Named(conf, c, k, PoolKind, c.objs[i].pool)))
      && (c.objs[i].Pool? ==>
            (Named(conf, c, k, PoolKind, i) <==> Named(conf, c, k, IpSetKind, c.objs[i].group)))
  }

  ghost predicate Unique(conf: Conf, c: Cloud) {
    forall k, kind, i, j | Named(conf, c, k, kind, i) && Named(conf, c, k, kind, j) :: i == j
  }

  ghost predicate CloudOk(conf: Conf, c: Cloud) {
    && (forall i | i in c.objs :: i < c.next)
    && Unique(conf, c)
    && Integrity(c)
    && Linked(conf, c)
  }

  // ----- clusters -----

  /** No teardown of `k` can have begun: it is not deleted, or machines remain, or an earlier pass still runs. */
  ghost predicate Kept(clusters: map<CKey, ClusterRec>, owners: set<MKey>, cw: CWorker, k: CKey)
    requires k in clusters
  {
    || !clusters[k].deleting
    || !NoOwner(owners, k)
    || (cw.CBusy? && cw.k == k && !cw.rec.deleting)
  }

  ghost predicate RefOk(conf: Conf, c: Cloud, k: CKey, kind: Kind, ref: Option<Id>, kept: bool) {
    ref.Some? ==>
      && ref.value < c.next
      && (ref.value in c.objs ==> Named(conf, c, k, kind, ref.value))
      && (forall j | Named(conf, c, k, kind, j) :: j == ref.value)
      && (kept ==> ref.value in c.objs)
  }

  ghost predicate RefsOk(conf: Conf, c: Cloud, k: CKey, refs: Refs, kept: bool) {
    forall kind :: RefOk(conf, c, k, kind, At(refs, kind), kept)
  }

  ghost predicate Chain(refs: Refs, ready: bool) {
    && (ready ==> refs.ipset.Some?)
    && (refs.ipset.Some? ==> refs.pool.Some?)
    && (refs.pool.Some? ==> refs.service.Some?)
    && (refs.service.Some? ==> refs.vapp.Some?)
  }

  ghost predicate Extends(older: Refs, newer: Refs) {
    forall kind | At(older, kind).Some? :: At(newer, kind) == At(older, kind)
  }

  function TeardownRank(kind: Kind): nat {
    match kind
    case ServiceKind => 0
    case PoolKind => 1
    case IpSetKind => 2
    case VAppKind => 3
  }

  /** Every recorded object that teardown visits before rank `n` is gone from the cloud. */
  ghost predicate Cleared(conf: Conf, c: Cloud, k: CKey, refs: Refs, n: nat) {
    forall kind | TeardownRank(kind) < n && At(refs, kind).Some? :: Absent(conf, c, k, kind)
  }

  ghost predicate ServesEndpoint(conf: Conf, c: Cloud, k: CKey, endpoint: Endpoint) {
    forall i | Named(conf, c, k, ServiceKind, i) ::
      c.objs[i].vip == endpoint.host && c.objs[i].port == endpoint.port && endpoint.host != ""
  }

  ghost predicate ClusterOk(conf: Conf, c: Cloud, k: CKey, r: ClusterRec, kept: bool) {
    && RefsOk(conf, c, k, r.refs, kept)
    && Chain(r.refs, r.ready)
    && ServesEndpoint(conf, c, k, r.endpoint)
    && (!r.finalizer && !r.deleting ==> r.refs == NO_REFS && forall kind :: Absent(conf, c, k, kind))
    && (r.Gone() ==> Cleared(conf, c, k, r.refs, 4))
  }

  ghost predicate ClustersOk(conf: Conf, c: Cloud, clusters: map<CKey, ClusterRec>, owners: set<MKey>, cw: CWorker) {
    forall k | k in clusters :: ClusterOk(conf, c, k, clusters[k], Kept(clusters, owners, cw, k))
  }

  // ----- the cluster worker -----

  ghost predicate FoundOk(conf: Conf, c: Cloud, k: CKey, found: Refs) {
    forall kind | At(found, kind).Some? :: Named(conf, c, k, kind, At(found, kind).value)
  }

  /** What the copy waiting to be patched may say, whatever path led to the patch. */
  ghost predicate ClusterPatchOk(conf: Conf, c: Cloud, st: ClusterRec, owners: set<MKey>, w: CWorker, kept: bool)
    requires w.CBusy?
  {
    && (!st.finalizer && !st.deleting ==> w.rec == st.(finalizer := true))
    && RefsOk(conf, c, w.k, w.rec.refs, kept)
    && Chain(w.rec.refs, w.rec.ready)
    && Extends(st.refs, w.rec.refs)
    && (st.ready ==> w.rec.ready)
    && (st.endpoint.host != "" ==> w.rec.endpoint == st.endpoint)
    && (!w.rec.finalizer ==> w.rec.deleting && NoOwner(owners, w.k) && Cleared(conf, c, w.k, w.rec.refs, 4))
  }

  predicate BeforeFound(pc: CPc) { pc.CFinalizer? || pc.CConnect? || pc.CEndpoint? }

  ghost predicate CreatingOk(conf: Conf, c: Cloud, w: CWorker)
    requires w.CBusy?
  {
    && w.rec.endpoint.host != ""
    && FoundOk(conf, c, w.k, w.found)
    && (w.pc.CEngine? ==> Absent(conf, c, w.k, ServiceKind))
    && (w.pc.CMake? ==> Absent(conf, c, w.k, w.pc.kind))
    && (w.pc == CMake(PoolKind) ==> w.found.ipset.Some?)
    && (w.pc == CMake(ServiceKind) ==> w.found.pool.Some?)
    && ((w.pc.CLook? || w.pc.CMake?) && w.pc.kind.VAppKind? ==> w.found.service.Some?)
    && (w.pc.CNetwork? || w.pc.CAttach? || w.pc.CPower? || w.pc.CRecord? ==>
          w.found.service.Some? && w.found.vapp.Some?)
  }

  ghost predicate TeardownOk(conf: Conf, c: Cloud, owners: set<MKey>, w: CWorker)
    requires w.CBusy?
  {
    && w.rec.deleting && w.rec.finalizer
    && (!w.pc.DMachines? ==> NoOwner(owners, w.k))
    && (w.pc.DLook? || w.pc.DDrop? ==> Cleared(conf, c, w.k, w.rec.refs, TeardownRank(w.pc.kind)))
    && (w.pc.DDrop? ==> At(w.rec.refs, w.pc.kind).Some?)
    && (w.pc.DRelease? ==> Cleared(conf, c, w.k, w.rec.refs, 4))
  }

  predicate Teardown(pc: CPc) { pc.DMachines? || pc.DConnect? || pc.DLook? || pc.DDrop? || pc.DRelease? }

  /** `kept` is whether no teardown of the worker's cluster can have begun; `st` is its stored record. */
  ghost predicate CBusyOk(conf: Conf, c: Cloud, st: ClusterRec, owners: set<MKey>, w: CWorker, kept: bool)
    requires w.CBusy?
  {
    && (w.rec.deleting ==> st.deleting)
    && if w.pc.CPatch? then ClusterPatchOk(conf, c, st, owners, w, kept)
       else
         && w.rec == st.(deleting := w.rec.deleting)
         && !w.rec.Gone()
         && (BeforeFound(w.pc) ==> w.found == NO_REFS)
         && if w.pc.CFinalizer? then true
            else if Teardown(w.pc) then TeardownOk(conf, c, owners, w)
            else !w.rec.deleting && w.rec.finalizer && (BeforeFound(w.pc) || CreatingOk(conf, c, w))
  }

  ghost predicate CWorkerOk(conf: Conf, c: Cloud, clusters: map<CKey, ClusterRec>, owners: set<MKey>, w: CWorker) {
    w.CBusy? ==>
      w.k in clusters && CBusyOk(conf, c, clusters[w.k], owners, w, Kept(clusters, owners, w, w.k))
  }

  // ----- machines -----

  /** A recorded provider id names the machine's one VM, powered on, and comes with that VM's addresses. */
  ghost predicate ProviderOk(conf: Conf, c: Cloud, infra: set<CKey>, m: MKey, r: MachineRec) {
    match r.providerId
    case None => r.addresses == [] && !r.ready
    case Some(p) =>
      && m.cluster in infra
      && p < c.next
      && (forall i | VmOf(conf, c, m, i) :: i == p)
      && (p in c.objs ==> VmOf(conf, c, m, p) && c.objs[p].on && r.addresses == AddressesOf(c.objs[p].nics))
  }

  ghost predicate MachineOk(conf: Conf, c: Cloud, infra: set<CKey>, owners: set<MKey>, m: MKey, r: MachineRec) {
    && (!r.Gone() ==> m in owners)
    && (forall i, j | VmOf(conf, c, m, i) && VmOf(conf, c, m, j) :: i == j)
    && (forall i | VmOf(conf, c, m, i) :: r.finalizer && m.cluster in infra)
    && ProviderOk(conf, c, infra, m, r)
    && (!r.finalizer && !r.deleting ==> r.providerId.None?)
    && (!r.deleting && r.providerId.Some? ==> VmOf(conf, c, m, r.providerId.value))
  }

  ghost predicate MachinesOk(conf: Conf, c: Cloud, infra: set<CKey>, owners: set<MKey>,
                             machines: map<MKey, MachineRec>) {
    && (forall m, i | VmOf(conf, c, m, i) :: m in machines)
    && (forall m | m in machines :: MachineOk(conf, c, infra, owners, m, machines[m]))
  }

  ghost predicate InfraOk(conf: Conf, clusters: map<CKey, ClusterRec>, infra: set<CKey>) {
    forall k | k in infra :: k in clusters && k in conf && clusters[k].ready && conf[k].infraRef
  }

  // ----- the machine worker -----

  predicate MTeardown(pc: MPc) {
    pc.XCluster? || pc.XConnect? || pc.XGroup? || pc.XLeave? || pc.XVApp? || pc.XVm? || pc.XDrop? || pc.XRelease?
  }

  /** The pass has read the tenant cluster. */
  predicate ReadCluster(pc: MPc) {
    !(pc.MFinalizer? || pc.MGates? || pc.MCluster? || pc.XCluster? || pc.XRelease? || pc.MPatch?)
  }

  predicate BeforeVm(pc: MPc) {
    pc.MCatalog? || pc.MVmLook? || pc.MTemplate? || pc.MVmAdd? || pc.MVmAgain? || pc.MConfigure? || pc.MPower?
  }

  /** What the pass has read so far is still so: references stay, and the IP set is as it was read. */
  ghost predicate MReadOk(conf: Conf, c: Cloud, refs: Refs, w: MWorker)
    requires w.MBusy?
  {
    && Extends(w.refs, refs)
    && (w.rec.providerId.Some? || !NoVm(conf, c, w.m) || !w.rec.deleting ==> Chain(w.refs, true))
    && (w.pc.MJoin? || w.pc.XLeave? ==>
          && w.refs.ipset.Some?
          && Named(conf, c, w.m.cluster, IpSetKind, w.refs.ipset.value)
          && c.objs[w.refs.ipset.value].ips == w.ips)
    && (w.pc.MJoin? ==> LastInternal(w.rec.addresses) !in w.ips && LastInternal(w.rec.addresses) != "")
    && (w.pc.XVm? || w.pc.XDrop? ==> w.refs.vapp.Some?)
  }

  ghost predicate MPassOk(conf: Conf, c: Cloud, refs: Refs, infra: set<CKey>, st: MachineRec, w: MWorker)
    requires w.MBusy?
  {
    && w.rec.finalizer == st.finalizer
    && !w.rec.Gone()
    && (w.pc.MFinalizer? ==> w.rec == st.(deleting := w.rec.deleting) && (w.infra ==> w.m.cluster in infra))
    && (!w.pc.MFinalizer? && !MTeardown(w.pc) ==> !w.rec.deleting && w.rec.finalizer && w.m.cluster in infra)
    && (MTeardown(w.pc) ==> w.rec.deleting)
    && (w.pc.XRelease? ==> NoVm(conf, c, w.m))
    && (w.pc.MTemplate? || w.pc.MVmAdd? ==> NoVm(conf, c, w.m))
    && (BeforeVm(w.pc) ==> w.rec.providerId.None?)
    && (w.pc.MConfigure? || w.pc.MPower? || w.pc.XDrop? ==> VmOf(conf, c, w.m, w.vm))
    && (w.pc.MGroup? || w.pc.MJoin? || w.pc.MReady? ==> w.rec.providerId.Some?)
    && (w.pc.MGroup? || w.pc.MJoin? || w.pc.XGroup? || w.pc.XLeave? ==> w.rec.controlPlane)
    && (w.pc.XGroup? || w.pc.XLeave? ==> LastInternal(w.rec.addresses) != "")
    && (ReadCluster(w.pc) ==> MReadOk(conf, c, refs, w))
  }

  /** `refs` are the references stored with the machine's cluster and `st` is its own stored record. */
  ghost predicate MBusyOk(conf: Conf, c: Cloud, refs: Refs, infra: set<CKey>, st: MachineRec, w: MWorker)
    requires w.MBusy?
  {
    && (w.rec.deleting ==> st.deleting)
    && w.rec.controlPlane == st.controlPlane
    && (st.providerId.Some? ==> w.rec.providerId == st.providerId && w.rec.addresses == st.addresses)
    && (st.ready ==> w.rec.ready)
    && ProviderOk(conf, c, infra, w.m, w.rec)
    && (w.rec.providerId.Some? && !st.deleting ==> VmOf(conf, c, w.m, w.rec.providerId.value))
    && if w.pc.MPatch? then
         && (!st.finalizer && !st.deleting ==> w.rec == st.(finalizer := true))
         && (!w.rec.finalizer ==> w.rec.deleting && NoVm(conf, c, w.m))
       else MPassOk(conf, c, refs, infra, st, w)
  }

  ghost predicate MWorkerOk(conf: Conf, c: Cloud, clusters: map<CKey, ClusterRec>, infra: set<CKey>,
                            machines: map<MKey, MachineRec>, w: MWorker) {
    w.MBusy? ==>
      && w.m in machines
      && w.m.cluster in clusters
      && MBusyOk(conf, c, clusters[w.m.cluster].refs, infra, machines[w.m], w)
  }

  // ----- the whole state -----

  /**
    What every reachable state satisfies. The equivalence makes it one fact to the verifier, which would otherwise take
    the conjunction apart wherever it is used.
  */
  ghost predicate Inv(s: State) { Sound(s) <==> true }

  ghost predicate Sound(s: State) {
    && Shape(s)
    && DistinctNames(s.conf)
    && CloudOk(s.conf, s.cloud)
    && ClustersOk(s.conf, s.cloud, s.clusters, s.owners, s.cw)
    && CWorkerOk(s.conf, s.cloud, s.clusters, s.owners, s.cw)
    && InfraOk(s.conf, s.clusters, s.infra)
    && MachinesOk(s.conf, s.cloud, s.infra, s.owners, s.machines)
    && MWorkerOk(s.conf, s.cloud, s.clusters, s.infra, s.machines, s.mw)
  }

  /**
    A start state: clusters with pairwise distinct resource names, none of them reconciled yet (their endpoint may
    already be given), no machines, and any cloud without dangling references in which no name is taken.
  */
  ghost predicate Init(s: State) {
    && Shape(s)
    && (forall k, k' | k in s.conf && k' in s.conf ::
          ResourceName(s.conf[k].meta) == ResourceName(s.conf[k'].meta) ==> k == k')
    && (forall i | i in s.cloud.objs :: i < s.cloud.next)
    && Integrity(s.cloud)
    && (forall k, kind | k in s.conf :: Absent(s.conf, s.cloud, k, kind))
    && (forall k | k in s.clusters ::
          s.clusters[k] == ClusterRec(false, false, s.clusters[k].endpoint, NO_REFS, false))
    && s.machines == map[]
    && s.infra == {}
    && s.cw.CIdle?
    && s.mw.MIdle?
  }

  lemma InitEstablishes(s: State)
    requires Init(s)
    ensures Inv(s)
  {
    forall k, k', kind: Kind | k in s.conf && k' in s.conf && NameFor(s.conf[k], kind) == NameFor(s.conf[k'], kind)
      ensures k == k'
    {
      NamesDifferTogether(s.conf[k].meta, s.conf[k'].meta, CONTROL_PLANE_USE);
    }
    forall k, kind, i ensures !Named(s.conf, s.cloud, k, kind, i) {
      assert k in s.conf ==> Absent(s.conf, s.cloud, k, kind);
    }
  }
}
