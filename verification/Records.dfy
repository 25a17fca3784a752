/** What the stored objects say, in the words of the source: names, ports and identities. */
module Records {
  import opened Options
  import opened Clouds
  import opened Naming
  import opened Protocol
  import opened Invariant
  import opened AllRuns
  import CS = ClusterSteps
  import MS = MachineSteps
  import T = Theorems

  /**
    The recorded vApp carries the cluster's UID or name, and the recorded service, pool and IP set the same followed by
    `-controlplane`.
  */
  lemma RecordedNames(s: State, k: CKey)
    requires Reachable(s) && k in s.clusters
    ensures var meta := s.conf[k].meta;
            var refs := s.clusters[k].refs;
            var stem := if meta.useUid then meta.uid else meta.name;
            && (refs.vapp.Some? && refs.vapp.value in s.cloud.objs ==>
                  var r := s.cloud.objs[refs.vapp.value]; r.VApp? && r.name == stem)
            && (refs.service.Some? && refs.service.value in s.cloud.objs ==>
                  var r := s.cloud.objs[refs.service.value]; r.Service? && r.name == stem + "-controlplane")
            && (refs.pool.Some? && refs.pool.value in s.cloud.objs ==>
                  var r := s.cloud.objs[refs.pool.value]; r.Pool? && r.name == stem + "-controlplane")
            && (refs.ipset.Some? && refs.ipset.value in s.cloud.objs ==>
                  var r := s.cloud.objs[refs.ipset.value]; r.Group? && r.name == stem + "-controlplane")
  {
    var kept := Kept(s.clusters, s.owners, s.cw, k);
    forall kind ensures RefOk(s.conf, s.cloud, k, kind, At(s.clusters[k].refs, kind), kept) {
      ReachableInv(s);
      assert ClusterOk(s.conf, s.cloud, k, s.clusters[k], Kept(s.clusters, s.owners, s.cw, k));
    }
    var refs := s.clusters[k].refs;
    assert At(refs, VAppKind) == refs.vapp && At(refs, ServiceKind) == refs.service;
    assert At(refs, PoolKind) == refs.pool && At(refs, IpSetKind) == refs.ipset;
    DashedName(s.conf[k].meta);
  }

  lemma DashedName(meta: Meta)
    ensures ResourceNameWithUse(meta, CONTROL_PLANE_USE)
            == (if meta.useUid then meta.uid else meta.name) + "-controlplane"
  {
    assert "-" + "controlplane" == "-controlplane";
  }

  /** A machine's provider id leads to a VM with the machine's name in the vApp its cluster has recorded. */
  lemma ProviderNames(s: State, m: MKey)
    requires Reachable(s) && m in s.machines && s.machines[m].providerId.Some?
    requires s.machines[m].providerId.value in s.cloud.objs
    ensures m.cluster in s.clusters
    ensures var r := s.cloud.objs[s.machines[m].providerId.value];
            r.Vm? && r.name == m.name && s.clusters[m.cluster].refs.vapp == Some(r.vapp)
  {
    var k := m.cluster;
    var vm := s.machines[m].providerId.value;
    assert VmOf(s.conf, s.cloud, m, vm) && m.cluster in s.infra by {
      ReachableInv(s);
      assert MachineOk(s.conf, s.cloud, s.infra, s.owners, m, s.machines[m]);
    }
    VAppIsRecorded(s, k);
    T.RecordedIsUnique(s, k, VAppKind);
  }

  lemma VAppIsRecorded(s: State, k: CKey)
    requires Reachable(s) && k in s.infra
    ensures k in s.clusters && s.clusters[k].refs.vapp.Some?
  {
    ReachableInv(s);
    T.RecordedChain(s, k);
  }

  /** The endpoint of the stored object and of the running pass is the one it had at the start, or has port 6443. */
  ghost predicate PortOk(s: State, k: CKey, given: Endpoint) {
    && k in s.clusters
    && (s.clusters[k].endpoint == given || s.clusters[k].endpoint.port == 6443)
    && (s.cw.CBusy? && s.cw.k == k ==> s.cw.rec.endpoint == given || s.cw.rec.endpoint.port == 6443)
  }

  lemma EventKeepsPort(s: State, e: Event, k: CKey, given: Endpoint)
    requires Shape(s) && Enabled(s, e) && PortOk(s, k, given)
    ensures PortOk(Apply(s, e), k, given)
  {
    if e.ClusterAct? {
      if ClusterChangesCloud(s.cw.pc) || s.cw.pc.CPatch? {
        CS.StepByPc(s, e.o, e.addr);
      } else if !s.cw.pc.CFinalizer? && !s.cw.pc.CEndpoint? {
        CS.PlainSteps(s, e.o, e.addr);
      }
    }
  }

  lemma {:induction false} RunKeepsPort(s: State, es: seq<Event>, t: State, k: CKey, given: Endpoint)
    requires Runs(s, es, t) && PortOk(s, k, given)
    ensures PortOk(t, k, given)
    decreases |es|
  {
    if es != [] {
      EventKeepsPort(s, es[0], k, given);
      RunKeepsPort(Apply(s, es[0]), es[1..], t, k, given);
    }
  }

  /** An endpoint that was not given from outside has port 6443, and so has every service of its cluster. */
  lemma ChosenPort(s: State, es: seq<Event>, t: State, k: CKey)
    requires Init(s) && Runs(s, es, t) && k in s.clusters && s.clusters[k].endpoint.host == ""
    ensures k in t.clusters && (t.clusters[k].endpoint.host != "" ==> t.clusters[k].endpoint.port == 6443)
    ensures forall i | Named(t.conf, t.cloud, k, ServiceKind, i) :: t.cloud.objs[i].port == 6443
  {
    RunKeepsPort(s, es, t, k, s.clusters[k].endpoint);
    InitEstablishes(s);
    RunKeeps(s, es, t);
    assert ClusterOk(t.conf, t.cloud, k, t.clusters[k], Kept(t.clusters, t.owners, t.cw, k));
  }

  // ----- addresses -----

  /** Position `i` holds the last internal address. */
  predicate LastInternalAt(addresses: seq<MachineAddress>, i: int) {
    && 0 <= i < |addresses| && addresses[i].kind == InternalIP
    && forall j | i < j < |addresses| :: addresses[j].kind != InternalIP
  }

  /** Both joining and leaving pick the last internal address there is, and the empty text when there is none. */
  lemma {:induction false} PicksLastInternal(addresses: seq<MachineAddress>)
    ensures (exists i :: LastInternalAt(addresses, i) && LastInternal(addresses) == addresses[i].address)
            || (LastInternal(addresses) == "" && forall i | 0 <= i < |addresses| :: addresses[i].kind != InternalIP)
  {
    if addresses != [] {
      var n := |addresses| - 1;
      var rest := addresses[..n];
      if addresses[n].kind == InternalIP {
        assert LastInternalAt(addresses, n);
      } else {
        PicksLastInternal(rest);
        if i :| LastInternalAt(rest, i) && LastInternal(rest) == rest[i].address {
          assert LastInternalAt(addresses, i);
        }
      }
    }
  }

  /** The addresses of a VM are recorded one by one, in order, as internal ones. */
  lemma RecordedOneByOne(nics: seq<string>, i: nat)
    requires i < |nics|
    ensures |Recorded(nics)| == |nics| && Recorded(nics)[i] == MachineAddress(InternalIP, nics[i])
  {
  }

  /** Joining adds the address at the end of the list; leaving writes the list back without it. */
  lemma ListIsWrittenBack(s: State, o: Outcome, nics: Option<seq<string>>)
    requires MS.Context(s) && (s.mw.pc.MJoin? || s.mw.pc.XLeave?) && Applied(o)
    ensures s.mw.refs.ipset.Some? && s.mw.refs.ipset.value in s.cloud.objs && s.cloud.objs[s.mw.refs.ipset.value].Group?
    ensures var g := s.mw.refs.ipset.value;
            var before := s.cloud.objs[g];
            var a := LastInternal(s.mw.rec.addresses);
            MachineStep(s, o, nics).cloud
            == s.cloud.(objs := s.cloud.objs[g := before.(ips := if s.mw.pc.MJoin? then before.ips + [a]
                                                                 else Without(before.ips, a))])
  {
    MS.ReadGroupExists(s);
    MS.StepByPc(s, o, nics);
  }
}
