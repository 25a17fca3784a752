/** How creating, changing and deleting one object moves ownership facts and keeps the cloud's invariant. */
module CloudFacts {
  import opened Options
  import opened Clouds
  import opened Protocol
  import opened Invariant

  /** Same objects under the same names, and the same VMs, seen by every cluster and machine. */
  ghost predicate SameOwnership(conf: Conf, c: Cloud, d: Cloud) {
    && (forall k, kind, i :: Named(conf, d, k, kind, i) <==> Named(conf, c, k, kind, i))
    && (forall m, i :: VmOf(conf, d, m, i) <==> VmOf(conf, c, m, i))
  }

  lemma CreateOwned(conf: Conf, c: Cloud, k: CKey, kind: Kind, r: Resource)
    requires DistinctNames(conf) && CloudOk(conf, c) && k in conf && IsA(r, kind, NameFor(conf[k], kind))
    requires Absent(conf, c, k, kind)
    requires r.Pool? ==> Named(conf, c, k, IpSetKind, r.group)
    requires r.Service? ==> Named(conf, c, k, PoolKind, r.pool)
    ensures CloudOk(conf, Create(c, r))
    ensures forall k', kind', i :: Named(conf, Create(c, r), k', kind', i) <==>
                                     Named(conf, c, k', kind', i) || (k' == k && kind' == kind && i == c.next)
    ensures forall m, i :: VmOf(conf, Create(c, r), m, i) <==> VmOf(conf, c, m, i)
  {
    var d := Create(c, r);
    assert forall i | i in c.objs :: i != c.next && i in d.objs && d.objs[i] == c.objs[i];
    forall k', kind', i
      ensures Named(conf, d, k', kind', i) <==>
                Named(conf, c, k', kind', i) || (k' == k && kind' == kind && i == c.next)
    {
    }
  }

  lemma CreateVm(conf: Conf, c: Cloud, m: MKey, r: Resource)
    requires CloudOk(conf, c) && r.Vm? && r.name == m.name && Named(conf, c, m.cluster, VAppKind, r.vapp)
    requires DistinctNames(conf)
    ensures CloudOk(conf, Create(c, r))
    ensures forall k, kind, i :: Named(conf, Create(c, r), k, kind, i) <==> Named(conf, c, k, kind, i)
    ensures forall m', i :: VmOf(conf, Create(c, r), m', i) <==> VmOf(conf, c, m', i) || (m' == m && i == c.next)
  {
    var d := Create(c, r);
    assert forall i | i in c.objs :: i != c.next && i in d.objs && d.objs[i] == c.objs[i];
    assert forall k, kind, i :: Named(conf, d, k, kind, i) <==> Named(conf, c, k, kind, i);
  }

  /** A change that keeps kind, name and references. */
  lemma UpdateOwned(conf: Conf, c: Cloud, id: Id, r: Resource)
    requires CloudOk(conf, c) && id in c.objs
    requires || (r.Group? && c.objs[id].Group? && r == c.objs[id].(ips := r.ips))
             || (r.VApp? && c.objs[id].VApp? && r == c.objs[id].(network := r.network))
             || (r.Vm? && c.objs[id].Vm? && r == c.objs[id].(on := r.on))
    ensures CloudOk(conf, Update(c, id, r))
    ensures SameOwnership(conf, c, Update(c, id, r))
  {
    var d := Update(c, id, r);
    assert forall k, kind, i :: Named(conf, d, k, kind, i) <==> Named(conf, c, k, kind, i);
  }

  /** Deleting a cluster's object leaves no dangling reference once whatever leads to it is gone. */
  lemma DropOwned(conf: Conf, c: Cloud, k: CKey, kind: Kind, id: Id)
    requires CloudOk(conf, c) && Named(conf, c, k, kind, id)
    requires kind.PoolKind? ==> Absent(conf, c, k, ServiceKind)
    requires kind.IpSetKind? ==> Absent(conf, c, k, PoolKind)
    requires kind.VAppKind? ==> forall m: MKey | m.cluster == k :: NoVm(conf, c, m)
    ensures CloudOk(conf, Drop(c, id))
    ensures forall k', kind', i :: Named(conf, Drop(c, id), k', kind', i) <==> Named(conf, c, k', kind', i) && i != id
    ensures forall m, i :: VmOf(conf, Drop(c, id), m, i) <==> VmOf(conf, c, m, i)
    ensures forall i | i in c.objs && i != id :: i in Drop(c, id).objs && Drop(c, id).objs[i] == c.objs[i]
  {
    var d := Drop(c, id);
    forall i | i in c.objs && c.objs[i].Vm? ensures c.objs[i].vapp != id {
      assert kind.VAppKind? ==> NoVm(conf, c, MKey(k, c.objs[i].name));
      assert kind.VAppKind? ==> !VmOf(conf, c, MKey(k, c.objs[i].name), i);
    }
    assert forall i | i in c.objs && i != id :: i in d.objs && d.objs[i] == c.objs[i];
    assert forall k', kind', i :: Named(conf, d, k', kind', i) <==> Named(conf, c, k', kind', i) && i != id;
    forall i | i in d.objs && d.objs[i].Service? ensures d.objs[i].pool != id {
      assert Named(conf, c, k, ServiceKind, i) <==> Named(conf, c, k, PoolKind, c.objs[i].pool);
    }
    forall i | i in d.objs && d.objs[i].Pool? ensures d.objs[i].group != id {
      assert Named(conf, c, k, PoolKind, i) <==> Named(conf, c, k, IpSetKind, c.objs[i].group);
    }
    assert Integrity(d);
  }

  lemma DropVm(conf: Conf, c: Cloud, m: MKey, id: Id)
    requires CloudOk(conf, c) && VmOf(conf, c, m, id)
    ensures CloudOk(conf, Drop(c, id))
    ensures forall k, kind, i :: Named(conf, Drop(c, id), k, kind, i) <==> Named(conf, c, k, kind, i)
    ensures forall m', i :: VmOf(conf, Drop(c, id), m', i) <==> VmOf(conf, c, m', i) && i != id
    ensures forall i | i in c.objs && i != id :: i in Drop(c, id).objs && Drop(c, id).objs[i] == c.objs[i]
  {
    var d := Drop(c, id);
    assert forall i | i in c.objs && i != id :: i in d.objs && d.objs[i] == c.objs[i];
    assert forall k, kind, i :: Named(conf, d, k, kind, i) <==> Named(conf, c, k, kind, i);
  }

  /** Every machine's VM is the same object before and after, and no identifier comes back. */
  ghost predicate SameVms(conf: Conf, c: Cloud, d: Cloud) {
    && (forall m, i :: VmOf(conf, d, m, i) <==> VmOf(conf, c, m, i))
    && (forall m, i | VmOf(conf, c, m, i) :: i in d.objs && d.objs[i] == c.objs[i])
    && c.next <= d.next
    && (forall i | i in d.objs && i < c.next :: i in c.objs)
  }

  lemma MachinesFrame(conf: Conf, c: Cloud, d: Cloud, infra: set<CKey>, owners: set<MKey>,
                      machines: map<MKey, MachineRec>)
    requires MachinesOk(conf, c, infra, owners, machines) && SameVms(conf, c, d)
    ensures MachinesOk(conf, d, infra, owners, machines)
  {
    forall m | m in machines ensures MachineOk(conf, d, infra, owners, m, machines[m]) {
      assert MachineOk(conf, c, infra, owners, m, machines[m]);
    }
  }

  /** The IP set the machine worker is about to write back is still there as it was read. */
  ghost predicate SameRead(conf: Conf, c: Cloud, d: Cloud, w: MWorker) {
    w.MBusy? && (w.pc.MJoin? || w.pc.XLeave?) && w.refs.ipset.Some?
    && Named(conf, c, w.m.cluster, IpSetKind, w.refs.ipset.value) ==>
      Named(conf, d, w.m.cluster, IpSetKind, w.refs.ipset.value)
      && d.objs[w.refs.ipset.value] == c.objs[w.refs.ipset.value]
  }

  lemma MWorkerFrame(conf: Conf, c: Cloud, d: Cloud, refs: Refs, infra: set<CKey>, st: MachineRec, w: MWorker)
    requires w.MBusy? && MBusyOk(conf, c, refs, infra, st, w) && SameVms(conf, c, d) && SameRead(conf, c, d, w)
    ensures MBusyOk(conf, d, refs, infra, st, w)
  {
    assert NoVm(conf, c, w.m) ==> NoVm(conf, d, w.m);
    assert NoVm(conf, d, w.m) ==> NoVm(conf, c, w.m);
  }
}
