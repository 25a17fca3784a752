/** Every step of the cluster reconciler keeps the invariant. */
module ClusterSteps {
  import opened Options
  import opened Clouds
  import opened Protocol
  import opened Invariant
  import opened CloudFacts

  /** A step that only moves the worker owes nothing but the worker's own invariant. */
  lemma MoveWorker(s: State, w: CWorker)
    requires Inv(s)
    requires w.CBusy? && !w.rec.deleting ==> w.k in s.clusters && Kept(s.clusters, s.owners, s.cw, w.k)
    requires CWorkerOk(s.conf, s.cloud, s.clusters, s.owners, w)
    ensures Inv(s.(cw := w))
  {
    forall k | k in s.clusters
      ensures ClusterOk(s.conf, s.cloud, k, s.clusters[k], Kept(s.clusters, s.owners, w, k))
    {
      assert ClusterOk(s.conf, s.cloud, k, s.clusters[k], Kept(s.clusters, s.owners, s.cw, k));
    }
  }

  /** The records a busy cluster worker deals with. */
  ghost predicate Context(s: State) {
    && Shape(s)
    && s.cw.CBusy?
    && DistinctNames(s.conf)
    && CloudOk(s.conf, s.cloud)
    && ClusterOk(s.conf, s.cloud, s.cw.k, s.clusters[s.cw.k], Kept(s.clusters, s.owners, s.cw, s.cw.k))
    && CWorkerOk(s.conf, s.cloud, s.clusters, s.owners, s.cw)
  }

  ghost predicate WorkerOk(s: State, w: CWorker)
    requires Shape(s)
  {
    w.CBusy? && w.k in s.clusters
    && CBusyOk(s.conf, s.cloud, s.clusters[w.k], s.owners, w, Kept(s.clusters, s.owners, w, w.k))
  }

  /** A pass that has written nothing to its copy may stop and patch at any call. */
  lemma Stop(s: State)
    requires Shape(s) && s.cw.CBusy?
    requires ClusterOk(s.conf, s.cloud, s.cw.k, s.clusters[s.cw.k], Kept(s.clusters, s.owners, s.cw, s.cw.k))
    requires s.cw.rec == s.clusters[s.cw.k].(deleting := s.cw.rec.deleting) && s.cw.rec.finalizer
    requires s.cw.rec.deleting ==> s.clusters[s.cw.k].deleting
    ensures WorkerOk(s, s.cw.(pc := CPatch))
  {
  }

  lemma FinalizerStep(s: State, o: Outcome, addr: string)
    requires Context(s) && s.cw.pc.CFinalizer?
    ensures WorkerOk(s, ClusterStep(s, o, addr).cw)
  {
    if s.cw.rec.finalizer { Stop(s); }
  }

  lemma EndpointSteps(s: State, o: Outcome, addr: string)
    requires Context(s) && addr != "" && (s.cw.pc.CConnect? || s.cw.pc.CEndpoint?)
    ensures WorkerOk(s, ClusterStep(s, o, addr).cw)
  {
    Stop(s);
  }

  lemma MiddleSteps(s: State, o: Outcome, addr: string)
    requires Context(s) && (s.cw.pc.CEngine? || s.cw.pc.CNetwork? || s.cw.pc.CPower?)
    ensures WorkerOk(s, ClusterStep(s, o, addr).cw)
  {
    PlainSteps(s, o, addr);
    if ClusterStep(s, o, addr).cw.pc.CPatch? { Stop(s); } else { MiddleGoesOn(s, ClusterStep(s, o, addr).cw.pc); }
  }

  lemma MiddleGoesOn(s: State, pc: CPc)
    requires Context(s)
    requires || (s.cw.pc.CEngine? && pc == CMake(ServiceKind) && s.cw.found.pool.Some?)
             || (s.cw.pc.CNetwork? && pc == CAttach)
             || (s.cw.pc.CPower? && pc == CRecord)
    ensures WorkerOk(s, s.cw.(pc := pc))
  {
  }

  lemma TeardownGates(s: State, o: Outcome, addr: string)
    requires Context(s) && (s.cw.pc.DMachines? || s.cw.pc.DConnect? || s.cw.pc.DRelease?)
    ensures WorkerOk(s, ClusterStep(s, o, addr).cw)
  {
    Stop(s);
  }

  lemma LookHit(s: State, kind: Kind, i: Id)
    requires Context(s) && s.cw.pc == CLook(kind) && Named(s.conf, s.cloud, s.cw.k, kind, i)
    ensures WorkerOk(s, s.cw.(found := Put(s.cw.found, kind, Some(i)), pc := AfterFound(kind)))
  {
    var found := Put(s.cw.found, kind, Some(i));
    assert forall kind' :: At(found, kind') == if kind' == kind then Some(i) else At(s.cw.found, kind');
    assert FoundOk(s.conf, s.cloud, s.cw.k, found);
  }

  lemma LookMiss(s: State, kind: Kind)
    requires Context(s) && s.cw.pc == CLook(kind) && Absent(s.conf, s.cloud, s.cw.k, kind)
    ensures WorkerOk(s, s.cw.(pc := AfterMissing(kind, s.cw.found)))
  {
    Stop(s);
  }

  /** Where the IP set or pool lookup fails with an error the pass goes on without the object. */
  lemma LookError(s: State, kind: Kind)
    requires Context(s) && s.cw.pc == CLook(kind) && (kind.IpSetKind? || kind.PoolKind?)
    ensures WorkerOk(s, s.cw.(pc := AfterFound(kind)))
  {
  }

  lemma LookStep(s: State, kind: Kind, o: Outcome)
    requires Context(s) && s.cw.pc == CLook(kind)
    ensures WorkerOk(s, StepLook(s, kind, o).cw)
  {
    if o.Good? {
      var hit := Find(s.cloud, s.cloud.next, kind, NameFor(s.conf[s.cw.k], kind));
      if hit.Some? { LookHit(s, kind, hit.value); } else { LookMiss(s, kind); }
    } else if kind.IpSetKind? || kind.PoolKind? {
      LookError(s, kind);
    } else {
      Stop(s);
    }
  }

  lemma RecordStep(s: State)
    requires Context(s) && s.cw.pc.CRecord?
    ensures WorkerOk(s, s.cw.(rec := RecordRefs(s.cw.rec, s.cw.found), pc := CPatch))
  {
    var w := s.cw;
    var rec := RecordRefs(w.rec, w.found);
    forall kind ensures RefOk(s.conf, s.cloud, w.k, kind, At(rec.refs, kind), true) {
      assert RefOk(s.conf, s.cloud, w.k, kind, At(w.rec.refs, kind), true);
      assert At(rec.refs, kind) == At(w.rec.refs, kind) || At(rec.refs, kind) == At(w.found, kind);
    }
    assert Extends(w.rec.refs, rec.refs);
  }

  /** Teardown moves on from a kind that is not recorded or no longer exists. */
  lemma TeardownAdvance(s: State, kind: Kind)
    requires Context(s) && s.cw.pc == DLook(kind)
    requires At(s.cw.rec.refs, kind).Some? ==> At(s.cw.rec.refs, kind).value !in s.cloud.objs
    ensures WorkerOk(s, s.cw.(pc := AfterDropped(kind)))
  {
    assert RefOk(s.conf, s.cloud, s.cw.k, kind, At(s.cw.rec.refs, kind), Kept(s.clusters, s.owners, s.cw, s.cw.k));
  }

  lemma TeardownLookStep(s: State, kind: Kind, o: Outcome)
    requires Context(s) && s.cw.pc == DLook(kind)
    ensures WorkerOk(s, StepTeardownLook(s, kind, o).cw)
  {
    TeardownLookEnds(s, kind, o);
    var ref := At(s.cw.rec.refs, kind);
    if ref.None? || (o.Good? && ref.value !in s.cloud.objs) {
      TeardownAdvance(s, kind);
    } else if StepTeardownLook(s, kind, o).cw.pc.CPatch? {
      Stop(s);
    } else {
      TeardownFound(s, kind);
    }
  }

  lemma TeardownLookEnds(s: State, kind: Kind, o: Outcome)
    requires s.cw.CBusy?
    ensures var ref := At(s.cw.rec.refs, kind);
            var w := StepTeardownLook(s, kind, o).cw;
            if ref.None? || (o.Good? && ref.value !in s.cloud.objs) then w == s.cw.(pc := AfterDropped(kind))
            else w == s.cw.(pc := CPatch) || w == s.cw.(pc := DDrop(kind))
  {
  }

  lemma TeardownFound(s: State, kind: Kind)
    requires Context(s) && s.cw.pc == DLook(kind) && At(s.cw.rec.refs, kind).Some?
    ensures WorkerOk(s, s.cw.(pc := DDrop(kind)))
  {
  }

  // ----- steps that change the cloud -----

  /** Creating the object of a kind that the kept cluster has not got: only that kind's ownership grows. */
  lemma ClustersAfterCreate(s: State, kind: Kind, d: Cloud)
    requires Context(s) && ClustersOk(s.conf, s.cloud, s.clusters, s.owners, s.cw)
    requires !s.cw.rec.deleting && s.clusters[s.cw.k].finalizer && Absent(s.conf, s.cloud, s.cw.k, kind)
    requires forall k, kind', i :: Named(s.conf, d, k, kind', i) <==>
               Named(s.conf, s.cloud, k, kind', i) || (k == s.cw.k && kind' == kind && i == s.cloud.next)
    requires forall i | i in s.cloud.objs :: i in d.objs && d.objs[i] == s.cloud.objs[i]
    requires forall i | i in d.objs && i < s.cloud.next :: i in s.cloud.objs
    requires d.next == s.cloud.next + 1
    requires kind.ServiceKind? ==>
               var e := s.clusters[s.cw.k].endpoint;
               e.host != "" && s.cloud.next in d.objs && d.objs[s.cloud.next].Service?
               && d.objs[s.cloud.next].vip == e.host && d.objs[s.cloud.next].port == e.port
    ensures ClustersOk(s.conf, d, s.clusters, s.owners, s.cw)
  {
    forall k | k in s.clusters
      ensures ClusterOk(s.conf, d, k, s.clusters[k], Kept(s.clusters, s.owners, s.cw, k))
    {
      var kept := Kept(s.clusters, s.owners, s.cw, k);
      var r := s.clusters[k];
      assert ClusterOk(s.conf, s.cloud, k, r, kept);
      forall kind' ensures RefOk(s.conf, d, k, kind', At(r.refs, kind'), kept) {
        assert RefOk(s.conf, s.cloud, k, kind', At(r.refs, kind'), kept);
      }
      assert forall kind' | Absent(s.conf, s.cloud, k, kind') && !(k == s.cw.k && kind' == kind) ::
          Absent(s.conf, d, k, kind');
    }
  }

  lemma MakeWorker(s: State, kind: Kind, d: Cloud, o: Outcome)
    requires Context(s) && s.cw.pc == CMake(kind)
    requires o.Good?
    requires forall k, kind', i :: Named(s.conf, d, k, kind', i) <==>
               Named(s.conf, s.cloud, k, kind', i) || (k == s.cw.k && kind' == kind && i == s.cloud.next)
    ensures CreatingOk(s.conf, d, s.cw.(found := Put(s.cw.found, kind, Some(s.cloud.next)),
                                        pc := if kind.VAppKind? then CNetwork else AfterFound(kind)))
  {
    var found := Put(s.cw.found, kind, Some(s.cloud.next));
    assert forall kind' :: At(found, kind') == if kind' == kind then Some(s.cloud.next) else At(s.cw.found, kind');
    assert FoundOk(s.conf, d, s.cw.k, found);
  }

  lemma CloudGrows(s: State, d: Cloud)
    requires Shape(s)
    requires MachinesOk(s.conf, s.cloud, s.infra, s.owners, s.machines)
    requires MWorkerOk(s.conf, s.cloud, s.clusters, s.infra, s.machines, s.mw)
    requires forall i | i in s.cloud.objs :: i in d.objs && d.objs[i] == s.cloud.objs[i]
    requires s.cloud.next <= d.next && forall i | i in d.objs && i < s.cloud.next :: i in s.cloud.objs
    requires forall m, i :: VmOf(s.conf, d, m, i) <==> VmOf(s.conf, s.cloud, m, i)
    ensures MachinesOk(s.conf, d, s.infra, s.owners, s.machines)
    ensures MWorkerOk(s.conf, d, s.clusters, s.infra, s.machines, s.mw)
  {
    MachinesFrame(s.conf, s.cloud, d, s.infra, s.owners, s.machines);
    if s.mw.MBusy? {
      MWorkerFrame(s.conf, s.cloud, d, s.clusters[s.mw.m.cluster].refs, s.infra, s.machines[s.mw.m], s.mw);
    }
  }

  ghost predicate Created(s: State, kind: Kind, d: Cloud)
    requires s.cw.CBusy?
  {
    && CloudOk(s.conf, d)
    && d.next == s.cloud.next + 1
    && (forall i | i in s.cloud.objs :: i in d.objs && d.objs[i] == s.cloud.objs[i])
    && (forall i | i in d.objs && i < s.cloud.next :: i in s.cloud.objs)
    && (forall m, i :: VmOf(s.conf, d, m, i) <==> VmOf(s.conf, s.cloud, m, i))
    && (forall k, kind', i :: Named(s.conf, d, k, kind', i) <==>
          Named(s.conf, s.cloud, k, kind', i) || (k == s.cw.k && kind' == kind && i == s.cloud.next))
  }

  lemma MakeCreates(s: State, kind: Kind)
    requires Context(s) && s.cw.pc == CMake(kind)
    ensures Created(s, kind, Create(s.cloud, NewResource(s.conf[s.cw.k], kind, s.cw.rec.endpoint, s.cw.found)))
  {
    var r := NewResource(s.conf[s.cw.k], kind, s.cw.rec.endpoint, s.cw.found);
    assert kind.PoolKind? ==> At(s.cw.found, IpSetKind) == Some(r.group);
    assert kind.ServiceKind? ==> At(s.cw.found, PoolKind) == Some(r.pool);
    CreateOwned(s.conf, s.cloud, s.cw.k, kind, r);
  }

  lemma MakeClusters(s: State, kind: Kind)
    requires Context(s) && s.cw.pc == CMake(kind) && ClustersOk(s.conf, s.cloud, s.clusters, s.owners, s.cw)
    ensures ClustersOk(s.conf, Create(s.cloud, NewResource(s.conf[s.cw.k], kind, s.cw.rec.endpoint, s.cw.found)),
                       s.clusters, s.owners, s.cw)
  {
    MakeCreates(s, kind);
    ClustersAfterCreate(s, kind, Create(s.cloud, NewResource(s.conf[s.cw.k], kind, s.cw.rec.endpoint, s.cw.found)));
  }

  lemma MakeMovesWorker(s: State, kind: Kind, o: Outcome)
    requires Context(s) && s.cw.pc == CMake(kind) && Applied(o)
    requires ClustersOk(s.conf, StepMake(s, kind, o).cloud, s.clusters, s.owners, s.cw)
    ensures CWorkerOk(s.conf, StepMake(s, kind, o).cloud, s.clusters, s.owners, StepMake(s, kind, o).cw)
  {
    if o.Good? { MadeMovesOn(s, kind); } else { MadeStops(s, kind); }
  }

  lemma MadeMovesOn(s: State, kind: Kind)
    requires Context(s) && s.cw.pc == CMake(kind)
    ensures CWorkerOk(s.conf, StepMake(s, kind, Good).cloud, s.clusters, s.owners, StepMake(s, kind, Good).cw)
  {
    MakeCreates(s, kind);
    MakeWorker(s, kind, StepMake(s, kind, Good).cloud, Good);
  }

  lemma MadeStops(s: State, kind: Kind)
    requires Context(s) && s.cw.pc == CMake(kind)
    requires ClustersOk(s.conf, StepMake(s, kind, BadApplied).cloud, s.clusters, s.owners, s.cw)
    ensures CWorkerOk(s.conf, StepMake(s, kind, BadApplied).cloud, s.clusters, s.owners, s.cw.(pc := CPatch))
  {
    Stop(s.(cloud := StepMake(s, kind, BadApplied).cloud));
  }

  lemma MakeStep(s: State, kind: Kind, o: Outcome)
    requires Inv(s) && s.cw.CBusy? && s.cw.pc == CMake(kind)
    ensures Inv(StepMake(s, kind, o))
  {
    if Applied(o) {
      MakeApplied(s, kind, o);
    } else {
      MakeIsRefused(s, kind, o);
      assert WorkerOk(s, s.cw.(pc := CPatch)) by { Stop(s); }
      MoveWorker(s, s.cw.(pc := CPatch));
    }
  }

  lemma MakeIsRefused(s: State, kind: Kind, o: Outcome)
    requires Shape(s) && s.cw.CBusy? && !Applied(o)
    ensures StepMake(s, kind, o) == s.(cw := s.cw.(pc := CPatch))
  {
  }

  lemma MakeApplied(s: State, kind: Kind, o: Outcome)
    requires Inv(s) && s.cw.CBusy? && s.cw.pc == CMake(kind) && Applied(o)
    ensures Inv(StepMake(s, kind, o))
  {
    var t := StepMake(s, kind, o);
    MakeClusters(s, kind);
    MakeMovesWorker(s, kind, o);
    assert CloudOk(s.conf, t.cloud)
           && MachinesOk(s.conf, t.cloud, s.infra, s.owners, s.machines)
           && MWorkerOk(s.conf, t.cloud, s.clusters, s.infra, s.machines, s.mw) by {
      MakeCreates(s, kind);
      CloudGrows(s, t.cloud);
    }
    AssembleCluster(s, t.cloud, t.cw);
  }

  // Attaching the network changes one flag of the vApp and nothing that anyone's invariant reads.

  lemma ClustersAfterUpdate(conf: Conf, c: Cloud, d: Cloud, clusters: map<CKey, ClusterRec>, owners: set<MKey>,
                            cw: CWorker)
    requires ClustersOk(conf, c, clusters, owners, cw) && SameOwnership(conf, c, d)
    requires d.next == c.next && d.objs.Keys == c.objs.Keys
    requires forall i | i in c.objs && c.objs[i].Service? :: d.objs[i] == c.objs[i]
    ensures ClustersOk(conf, d, clusters, owners, cw)
  {
    forall k | k in clusters ensures ClusterOk(conf, d, k, clusters[k], Kept(clusters, owners, cw, k)) {
      var kept := Kept(clusters, owners, cw, k);
      assert ClusterOk(conf, c, k, clusters[k], kept);
      forall kind ensures RefOk(conf, d, k, kind, At(clusters[k].refs, kind), kept) {
        assert RefOk(conf, c, k, kind, At(clusters[k].refs, kind), kept);
      }
      assert forall kind | Absent(conf, c, k, kind) :: Absent(conf, d, k, kind);
    }
  }

  lemma WorkerAfterUpdate(conf: Conf, c: Cloud, d: Cloud, st: ClusterRec, owners: set<MKey>, w: CWorker, kept: bool)
    requires w.CBusy? && CBusyOk(conf, c, st, owners, w, kept) && SameOwnership(conf, c, d)
    requires d.next == c.next && d.objs.Keys == c.objs.Keys
    ensures CBusyOk(conf, d, st, owners, w, kept)
  {
    assert forall kind | Absent(conf, c, w.k, kind) :: Absent(conf, d, w.k, kind);
    if w.pc.CPatch? {
      forall kind ensures RefOk(conf, d, w.k, kind, At(w.rec.refs, kind), kept) {
        assert RefOk(conf, c, w.k, kind, At(w.rec.refs, kind), kept);
      }
    }
  }

  lemma AttachWorker(s: State, o: Outcome)
    requires Context(s) && s.cw.pc.CAttach?
    ensures WorkerOk(s, StepAttach(s, o).cw)
  {
    if !o.Good? { Stop(s); }
  }

  lemma NetworkFlag(s: State, id: Id, d: Cloud)
    requires Inv(s) && SameOwnership(s.conf, s.cloud, d) && CloudOk(s.conf, d)
    requires d.next == s.cloud.next && d.objs.Keys == s.cloud.objs.Keys && id in d.objs && s.cloud.objs[id].VApp?
    requires forall i | i in d.objs && i != id :: d.objs[i] == s.cloud.objs[i]
    ensures Inv(s.(cloud := d))
  {
    ClustersAfterUpdate(s.conf, s.cloud, d, s.clusters, s.owners, s.cw);
    if s.cw.CBusy? {
      WorkerAfterUpdate(s.conf, s.cloud, d, s.clusters[s.cw.k], s.owners, s.cw,
                        Kept(s.clusters, s.owners, s.cw, s.cw.k));
    }
    MachineSideAfterUpdate(s, id, d);
  }

  lemma MachineSideAfterUpdate(s: State, id: Id, d: Cloud)
    requires Shape(s) && SameOwnership(s.conf, s.cloud, d)
    requires MachinesOk(s.conf, s.cloud, s.infra, s.owners, s.machines)
    requires MWorkerOk(s.conf, s.cloud, s.clusters, s.infra, s.machines, s.mw)
    requires d.next == s.cloud.next && d.objs.Keys == s.cloud.objs.Keys && id in d.objs && s.cloud.objs[id].VApp?
    requires forall i | i in d.objs && i != id :: d.objs[i] == s.cloud.objs[i]
    ensures MachinesOk(s.conf, d, s.infra, s.owners, s.machines)
    ensures MWorkerOk(s.conf, d, s.clusters, s.infra, s.machines, s.mw)
  {
    MachinesFrame(s.conf, s.cloud, d, s.infra, s.owners, s.machines);
    if s.mw.MBusy? {
      MWorkerFrame(s.conf, s.cloud, d, s.clusters[s.mw.m.cluster].refs, s.infra, s.machines[s.mw.m], s.mw);
    }
  }

  lemma AttachChanges(s: State, id: Id)
    requires Inv(s) && id in s.cloud.objs && s.cloud.objs[id].VApp?
    ensures Inv(s.(cloud := Update(s.cloud, id, s.cloud.objs[id].(network := true))))
  {
    UpdateOwned(s.conf, s.cloud, id, s.cloud.objs[id].(network := true));
    NetworkFlag(s, id, Update(s.cloud, id, s.cloud.objs[id].(network := true)));
  }

  lemma AttachStep(s: State, o: Outcome)
    requires Inv(s) && s.cw.CBusy? && s.cw.pc.CAttach?
    ensures Inv(StepAttach(s, o))
  {
    var t := StepAttach(s, o);
    assert Inv(s.(cw := t.cw)) by {
      AttachWorker(s, o);
      MoveWorker(s, t.cw);
    }
    if t.cloud != s.cloud {
      AttachChanges(s.(cw := t.cw), s.cw.found.vapp.value);
    }
  }

  // ----- teardown -----

  lemma OwnedByOne(conf: Conf, c: Cloud, k: CKey, kind: Kind, k': CKey, kind': Kind, i: Id)
    requires DistinctNames(conf) && Named(conf, c, k, kind, i) && Named(conf, c, k', kind', i)
    ensures k == k' && kind == kind'
  {
  }

  /** A cluster without owner Machines has no VM and no machine that still holds its finalizer. */
  lemma NoOwnerNoVm(s: State, k: CKey)
    requires MachinesOk(s.conf, s.cloud, s.infra, s.owners, s.machines) && NoOwner(s.owners, k)
    ensures forall m: MKey | m.cluster == k :: NoVm(s.conf, s.cloud, m)
    ensures forall m | m in s.machines && m.cluster == k :: s.machines[m].Gone()
  {
    forall m: MKey, i | m.cluster == k ensures !VmOf(s.conf, s.cloud, m, i) {
      assert m in s.machines ==> MachineOk(s.conf, s.cloud, s.infra, s.owners, m, s.machines[m]);
    }
  }

  ghost predicate Dropped1(conf: Conf, c: Cloud, d: Cloud, id: Id) {
    && CloudOk(conf, d)
    && d.next == c.next
    && d.objs.Keys == c.objs.Keys - {id}
    && (forall i | i in d.objs :: d.objs[i] == c.objs[i])
    && (forall k, kind, i :: Named(conf, d, k, kind, i) <==> Named(conf, c, k, kind, i) && i != id)
    && (forall m, i :: VmOf(conf, d, m, i) <==> VmOf(conf, c, m, i))
  }

  lemma TeardownDrops(s: State, kind: Kind)
    requires Context(s) && s.cw.pc == DDrop(kind)
    requires forall m: MKey | m.cluster == s.cw.k :: NoVm(s.conf, s.cloud, m)
    requires At(s.cw.rec.refs, kind).value in s.cloud.objs
    ensures Dropped1(s.conf, s.cloud, Drop(s.cloud, At(s.cw.rec.refs, kind).value), At(s.cw.rec.refs, kind).value)
    ensures Named(s.conf, s.cloud, s.cw.k, kind, At(s.cw.rec.refs, kind).value)
  {
    var refs := s.cw.rec.refs;
    assert RefOk(s.conf, s.cloud, s.cw.k, kind, At(refs, kind), Kept(s.clusters, s.owners, s.cw, s.cw.k));
    if kind.PoolKind? {
      assert At(refs, ServiceKind).Some? && TeardownRank(ServiceKind) < 1;
    }
    if kind.IpSetKind? {
      assert At(refs, PoolKind).Some? && TeardownRank(PoolKind) < 2;
    }
    DropOwned(s.conf, s.cloud, s.cw.k, kind, At(refs, kind).value);
  }

  lemma ClustersAfterDrop(s: State, kind: Kind, id: Id, d: Cloud)
    requires DistinctNames(s.conf) && s.cw.CBusy? && ClustersOk(s.conf, s.cloud, s.clusters, s.owners, s.cw)
    requires s.cw.k in s.clusters && !Kept(s.clusters, s.owners, s.cw, s.cw.k)
    requires Dropped1(s.conf, s.cloud, d, id) && Named(s.conf, s.cloud, s.cw.k, kind, id)
    ensures ClustersOk(s.conf, d, s.clusters, s.owners, s.cw)
  {
    forall k | k in s.clusters
      ensures ClusterOk(s.conf, d, k, s.clusters[k], Kept(s.clusters, s.owners, s.cw, k))
    {
      var kept := Kept(s.clusters, s.owners, s.cw, k);
      var r := s.clusters[k];
      assert ClusterOk(s.conf, s.cloud, k, r, kept);
      forall kind' ensures RefOk(s.conf, d, k, kind', At(r.refs, kind'), kept) {
        assert RefOk(s.conf, s.cloud, k, kind', At(r.refs, kind'), kept);
        if kept && At(r.refs, kind').Some? && Named(s.conf, s.cloud, k, kind', id) {
          OwnedByOne(s.conf, s.cloud, s.cw.k, kind, k, kind', id);
        }
      }
      assert forall kind' | Absent(s.conf, s.cloud, k, kind') :: Absent(s.conf, d, k, kind');
    }
  }

  lemma TeardownMovesOn(s: State, kind: Kind, id: Id, d: Cloud)
    requires Context(s) && s.cw.pc == DDrop(kind) && Dropped1(s.conf, s.cloud, d, id)
    requires Named(s.conf, s.cloud, s.cw.k, kind, id)
    ensures CWorkerOk(s.conf, d, s.clusters, s.owners, s.cw.(pc := AfterDropped(kind)))
  {
    ClearedOneMore(s.conf, s.cloud, d, s.cw.k, s.cw.rec.refs, kind, id);
  }

  lemma ClearedOneMore(conf: Conf, c: Cloud, d: Cloud, k: CKey, refs: Refs, kind: Kind, id: Id)
    requires Cleared(conf, c, k, refs, TeardownRank(kind)) && Unique(conf, c)
    requires Dropped1(conf, c, d, id) && Named(conf, c, k, kind, id)
    ensures Cleared(conf, d, k, refs, TeardownRank(kind) + 1)
  {
    assert Absent(conf, d, k, kind);
    assert forall kind' | Absent(conf, c, k, kind') :: Absent(conf, d, k, kind');
  }

  lemma MachinesAfterDrop(s: State, id: Id, kind: Kind, d: Cloud)
    requires Shape(s) && DistinctNames(s.conf) && s.cw.CBusy? && NoOwner(s.owners, s.cw.k)
    requires MachinesOk(s.conf, s.cloud, s.infra, s.owners, s.machines)
    requires MWorkerOk(s.conf, s.cloud, s.clusters, s.infra, s.machines, s.mw)
    requires Dropped1(s.conf, s.cloud, d, id) && Named(s.conf, s.cloud, s.cw.k, kind, id)
    ensures MachinesOk(s.conf, d, s.infra, s.owners, s.machines)
    ensures MWorkerOk(s.conf, d, s.clusters, s.infra, s.machines, s.mw)
  {
    MachinesFrame(s.conf, s.cloud, d, s.infra, s.owners, s.machines);
    if s.mw.MBusy? {
      assert MachineOk(s.conf, s.cloud, s.infra, s.owners, s.mw.m, s.machines[s.mw.m]);
      if Named(s.conf, s.cloud, s.mw.m.cluster, IpSetKind, id) {
        OwnedByOne(s.conf, s.cloud, s.cw.k, kind, s.mw.m.cluster, IpSetKind, id);
      }
      MWorkerFrame(s.conf, s.cloud, d, s.clusters[s.mw.m.cluster].refs, s.infra, s.machines[s.mw.m], s.mw);
    }
  }

  /** The state with the object dropped and the worker moved on, or stopped by the error the call returned. */
  lemma DropStep(s: State, kind: Kind, o: Outcome)
    requires Inv(s) && s.cw.CBusy? && s.cw.pc == DDrop(kind)
    ensures Inv(StepTeardownDrop(s, kind, o))
  {
    if Applied(o) && At(s.cw.rec.refs, kind).value in s.cloud.objs {
      DropPresent(s, kind, o);
    } else {
      DropMissing(s, kind, o);
    }
  }

  lemma AssembleCluster(s: State, d: Cloud, w: CWorker)
    requires Shape(s) && DistinctNames(s.conf) && InfraOk(s.conf, s.clusters, s.infra)
    requires s.cw.CBusy? && w.CBusy? && w.k == s.cw.k && w.rec.deleting == s.cw.rec.deleting
    requires CloudOk(s.conf, d)
    requires ClustersOk(s.conf, d, s.clusters, s.owners, s.cw)
    requires CWorkerOk(s.conf, d, s.clusters, s.owners, w)
    requires MachinesOk(s.conf, d, s.infra, s.owners, s.machines)
    requires MWorkerOk(s.conf, d, s.clusters, s.infra, s.machines, s.mw)
    ensures Inv(s.(cloud := d, cw := w))
  {
    assert forall k | k in s.clusters :: Kept(s.clusters, s.owners, w, k) == Kept(s.clusters, s.owners, s.cw, k);
  }

  lemma DropPresent(s: State, kind: Kind, o: Outcome)
    requires Inv(s) && s.cw.CBusy? && s.cw.pc == DDrop(kind) && Applied(o)
    requires At(s.cw.rec.refs, kind).value in s.cloud.objs
    ensures Inv(StepTeardownDrop(s, kind, o))
  {
    var id := At(s.cw.rec.refs, kind).value;
    var d := Drop(s.cloud, id);
    var w := s.cw.(pc := if o.Good? then AfterDropped(kind) else CPatch);
    assert Context(s);
    assert Dropped1(s.conf, s.cloud, d, id) && Named(s.conf, s.cloud, s.cw.k, kind, id) by {
      NoOwnerNoVm(s, s.cw.k);
      TeardownDrops(s, kind);
    }
    ClustersAfterDrop(s, kind, id, d);
    MachinesAfterDrop(s, id, kind, d);
    WorkerAfterDrop(s, kind, id, d, o);
    AssembleCluster(s, d, w);
  }

  lemma WorkerAfterDrop(s: State, kind: Kind, id: Id, d: Cloud, o: Outcome)
    requires Context(s) && s.cw.pc == DDrop(kind) && Dropped1(s.conf, s.cloud, d, id)
    requires Named(s.conf, s.cloud, s.cw.k, kind, id) && ClustersOk(s.conf, d, s.clusters, s.owners, s.cw)
    ensures CWorkerOk(s.conf, d, s.clusters, s.owners, s.cw.(pc := if o.Good? then AfterDropped(kind) else CPatch))
  {
    if o.Good? { TeardownMovesOn(s, kind, id, d); } else { Stop(s.(cloud := d)); }
  }

  lemma DropMissing(s: State, kind: Kind, o: Outcome)
    requires Inv(s) && s.cw.CBusy? && s.cw.pc == DDrop(kind)
    requires !Applied(o) || At(s.cw.rec.refs, kind).value !in s.cloud.objs
    ensures Inv(StepTeardownDrop(s, kind, o))
  {
    var t := StepTeardownDrop(s, kind, o);
    assert t.cloud.objs == s.cloud.objs;
    assert Context(s);
    if o.Good? {
      assert Context(s.(cw := s.cw.(pc := DLook(kind))));
      TeardownAdvance(s.(cw := s.cw.(pc := DLook(kind))), kind);
    } else {
      Stop(s);
    }
    MoveWorker(s, t.cw);
  }

  // ----- beginning, patching, crashing -----

  lemma BeginStep(s: State, k: CKey)
    requires Inv(s) && s.cw.CIdle? && k in s.clusters && !s.clusters[k].Gone()
    ensures Inv(ClusterBegun(s, k))
  {
    MoveWorker(s, ClusterBegun(s, k).cw);
  }

  lemma CommittedCluster(s: State)
    requires Context(s) && s.cw.pc.CPatch?
    ensures ClusterOk(s.conf, s.cloud, s.cw.k, CommitCluster(s.clusters[s.cw.k], s.cw.rec),
                      Kept(s.clusters, s.owners, CIdle, s.cw.k))
  {
    var kept := Kept(s.clusters, s.owners, s.cw, s.cw.k);
    forall kind ensures RefOk(s.conf, s.cloud, s.cw.k, kind, At(s.clusters[s.cw.k].refs, kind), kept) {
    }
    if !s.clusters[s.cw.k].Gone() {
      forall kind
        ensures RefOk(s.conf, s.cloud, s.cw.k, kind, At(s.cw.rec.refs, kind), Kept(s.clusters, s.owners, CIdle, s.cw.k))
      {
        assert RefOk(s.conf, s.cloud, s.cw.k, kind, At(s.cw.rec.refs, kind), kept);
      }
    }
  }

  /** References only grow, so what a machine pass has read from its cluster stays true. */
  lemma MWorkerAfterCommit(conf: Conf, c: Cloud, refs: Refs, refs': Refs, infra: set<CKey>, st: MachineRec, w: MWorker)
    requires w.MBusy? && MBusyOk(conf, c, refs, infra, st, w) && Extends(refs, refs')
    ensures MBusyOk(conf, c, refs', infra, st, w)
  {
    if !w.pc.MPatch? && ReadCluster(w.pc) {
      assert Extends(w.refs, refs');
    }
  }

  ghost function Committed(s: State): State
    requires Shape(s) && s.cw.CBusy?
  {
    s.(clusters := s.clusters[s.cw.k := CommitCluster(s.clusters[s.cw.k], s.cw.rec)], cw := CIdle)
  }

  lemma ClustersAfterCommit(s: State)
    requires Context(s) && s.cw.pc.CPatch? && ClustersOk(s.conf, s.cloud, s.clusters, s.owners, s.cw)
    ensures ClustersOk(s.conf, s.cloud, Committed(s).clusters, s.owners, CIdle)
  {
    CommittedCluster(s);
    var clusters := Committed(s).clusters;
    forall k | k in clusters ensures ClusterOk(s.conf, s.cloud, k, clusters[k], Kept(clusters, s.owners, CIdle, k)) {
      assert ClusterOk(s.conf, s.cloud, k, s.clusters[k], Kept(s.clusters, s.owners, s.cw, k));
    }
  }

  lemma CommitStep(s: State)
    requires Inv(s) && s.cw.CBusy? && s.cw.pc.CPatch?
    ensures Inv(Committed(s))
  {
    var clusters := Committed(s).clusters;
    assert ClustersOk(s.conf, s.cloud, clusters, s.owners, CIdle) by { ClustersAfterCommit(s); }
    assert MWorkerOk(s.conf, s.cloud, clusters, s.infra, s.machines, s.mw) by { MachineSideAfterCommit(s); }
    assert InfraOk(s.conf, clusters, s.infra) by { InfraAfterCommit(s); }
  }

  lemma InfraAfterCommit(s: State)
    requires Context(s) && s.cw.pc.CPatch? && InfraOk(s.conf, s.clusters, s.infra)
    ensures InfraOk(s.conf, Committed(s).clusters, s.infra)
  {
  }

  lemma MachineSideAfterCommit(s: State)
    requires Context(s) && s.cw.pc.CPatch? && MWorkerOk(s.conf, s.cloud, s.clusters, s.infra, s.machines, s.mw)
    ensures MWorkerOk(s.conf, s.cloud, Committed(s).clusters, s.infra, s.machines, s.mw)
  {
    var clusters := Committed(s).clusters;
    assert Extends(s.clusters[s.cw.k].refs, clusters[s.cw.k].refs);
    if s.mw.MBusy? {
      var k := s.mw.m.cluster;
      assert Extends(s.clusters[k].refs, clusters[k].refs);
      MWorkerAfterCommit(s.conf, s.cloud, s.clusters[k].refs, clusters[k].refs, s.infra, s.machines[s.mw.m], s.mw);
    }
  }

  /** The steps that only ask or only change the pass's copy. */
  lemma PlainSteps(s: State, o: Outcome, addr: string)
    requires Shape(s) && s.cw.CBusy?
    ensures s.cw.pc.CLook? ==> ClusterStep(s, o, addr) == StepLook(s, s.cw.pc.kind, o)
    ensures s.cw.pc.DLook? ==> ClusterStep(s, o, addr) == StepTeardownLook(s, s.cw.pc.kind, o)
    ensures s.cw.pc.CConnect? ==> ClusterStep(s, o, addr) == CGoto(s, if o.Good? then CEndpoint else CPatch)
    ensures s.cw.pc.CNetwork? ==> ClusterStep(s, o, addr) == CGoto(s, if o.Good? then CAttach else CPatch)
    ensures s.cw.pc.CPower? ==> ClusterStep(s, o, addr) == CGoto(s, if o.Good? || o.Dropped? then CRecord else CPatch)
    ensures s.cw.pc.CEngine? ==>
              ClusterStep(s, o, addr)
              == CGoto(s, if !o.Good? || s.cw.found.pool.None? then CPatch else CMake(ServiceKind))
    ensures s.cw.pc.CRecord? ==>
              ClusterStep(s, o, addr) == s.(cw := s.cw.(rec := RecordRefs(s.cw.rec, s.cw.found), pc := CPatch))
    ensures s.cw.pc.DMachines? ==>
              ClusterStep(s, o, addr)
              == CGoto(s, if o.Good? && s.conf[s.cw.k].owner && NoOwner(s.owners, s.cw.k) then DConnect else CPatch)
    ensures s.cw.pc.DConnect? ==>
              ClusterStep(s, o, addr)
              == CGoto(s, if o.Good? && s.conf[s.cw.k].identity then DLook(ServiceKind) else CPatch)
    ensures s.cw.pc.DRelease? ==>
              ClusterStep(s, o, addr) == s.(cw := s.cw.(rec := s.cw.rec.(finalizer := false), pc := CPatch))
  {
  }

  lemma StepByPc(s: State, o: Outcome, addr: string)
    requires Shape(s) && s.cw.CBusy?
    ensures s.cw.pc.CMake? ==> ClusterStep(s, o, addr) == StepMake(s, s.cw.pc.kind, o)
    ensures s.cw.pc.CAttach? ==> ClusterStep(s, o, addr) == StepAttach(s, o)
    ensures s.cw.pc.DDrop? ==> ClusterStep(s, o, addr) == StepTeardownDrop(s, s.cw.pc.kind, o)
    ensures s.cw.pc.CPatch? ==> ClusterStep(s, o, addr) == if Applied(o) then Committed(s) else s.(cw := CIdle)
  {
  }

  /** Each step of the cluster reconciler, whatever its outcome, keeps the invariant. */
  lemma ClusterStepKeeps(s: State, o: Outcome, addr: string)
    requires Inv(s) && s.cw.CBusy? && addr != ""
    ensures Inv(ClusterStep(s, o, addr))
  {
    StepByPc(s, o, addr);
    if s.cw.pc.CMake? {
      MakeStep(s, s.cw.pc.kind, o);
    } else if s.cw.pc.CAttach? {
      AttachStep(s, o);
    } else if s.cw.pc.DDrop? {
      DropStep(s, s.cw.pc.kind, o);
    } else if s.cw.pc.CPatch? {
      if Applied(o) { CommitStep(s); } else { MoveWorker(s, CIdle); }
    } else {
      QuietKeeps(s, o, addr);
    }
  }

  lemma QuietKeeps(s: State, o: Outcome, addr: string)
    requires Inv(s) && s.cw.CBusy? && addr != ""
    requires !s.cw.pc.CMake? && !s.cw.pc.CAttach? && !s.cw.pc.DDrop? && !s.cw.pc.CPatch?
    ensures Inv(ClusterStep(s, o, addr))
  {
    var t := ClusterStep(s, o, addr);
    QuietStep(s, o, addr);
    MoveWorker(s, t.cw);
  }

  lemma QuietStep(s: State, o: Outcome, addr: string)
    requires Context(s) && addr != ""
    requires !s.cw.pc.CMake? && !s.cw.pc.CAttach? && !s.cw.pc.DDrop? && !s.cw.pc.CPatch?
    ensures WorkerOk(s, ClusterStep(s, o, addr).cw)
    ensures ClusterStep(s, o, addr) == s.(cw := ClusterStep(s, o, addr).cw)
    ensures ClusterStep(s, o, addr).cw.rec.deleting == s.cw.rec.deleting && ClusterStep(s, o, addr).cw.k == s.cw.k
  {
    QuietFrame(s, o, addr);
    QuietWorker(s, o, addr);
  }

  lemma QuietFrame(s: State, o: Outcome, addr: string)
    requires Shape(s) && s.cw.CBusy?
    requires !s.cw.pc.CMake? && !s.cw.pc.CAttach? && !s.cw.pc.DDrop? && !s.cw.pc.CPatch?
    ensures ClusterStep(s, o, addr) == s.(cw := ClusterStep(s, o, addr).cw)
    ensures ClusterStep(s, o, addr).cw.rec.deleting == s.cw.rec.deleting && ClusterStep(s, o, addr).cw.k == s.cw.k
  {
    if !s.cw.pc.CFinalizer? && !s.cw.pc.CEndpoint? { PlainSteps(s, o, addr); }
  }

  lemma QuietWorker(s: State, o: Outcome, addr: string)
    requires Context(s) && addr != ""
    requires !s.cw.pc.CMake? && !s.cw.pc.CAttach? && !s.cw.pc.DDrop? && !s.cw.pc.CPatch?
    ensures WorkerOk(s, ClusterStep(s, o, addr).cw)
  {
    match s.cw.pc
    case CFinalizer => FinalizerStep(s, o, addr);
    case CConnect | CEndpoint => EndpointSteps(s, o, addr);
    case CEngine | CNetwork | CPower => MiddleSteps(s, o, addr);
    case CLook(kind) => LookStep(s, kind, o);
    case CRecord => RecordStep(s);
    case _ => QuietTeardownStep(s, o, addr);
  }

  lemma QuietTeardownStep(s: State, o: Outcome, addr: string)
    requires Context(s) && Teardown(s.cw.pc) && !s.cw.pc.DDrop?
    ensures WorkerOk(s, ClusterStep(s, o, addr).cw)
  {
    PlainSteps(s, o, addr);
    if s.cw.pc.DLook? { TeardownLookStep(s, s.cw.pc.kind, o); } else { TeardownGates(s, o, addr); }
  }
}
