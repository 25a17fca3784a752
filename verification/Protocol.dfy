/**
  Both reconcilers as one protocol over a shared cloud.

  A worker's program counter names the next cloud or API call of the pass it is running; every call is
  one atomic step. `Apply` is a function of the state and an event, and all nondeterminism is in the event.
*/
module Protocol {
  import opened Options
  import opened Clouds
  import opened Naming

  type CKey = string

  /** A tenant machine is identified by its cluster and its own name, which is also the name of its VM. */
  datatype MKey = MKey(cluster: CKey, name: string)

  // ----- stored objects -----

  datatype Endpoint = Endpoint(host: string, port: int)

  const API_PORT := 6443

  datatype Refs = Refs(vapp: Option<Id>, service: Option<Id>, pool: Option<Id>, ipset: Option<Id>)

  const NO_REFS := Refs(None, None, None, None)

  function At(refs: Refs, kind: Kind): Option<Id> {
    match kind
    case IpSetKind => refs.ipset
    case PoolKind => refs.pool
    case ServiceKind => refs.service
    case VAppKind => refs.vapp
  }

  function Put(refs: Refs, kind: Kind, id: Option<Id>): Refs {
    match kind
    case IpSetKind => refs.(ipset := id)
    case PoolKind => refs.(pool := id)
    case ServiceKind => refs.(service := id)
    case VAppKind => refs.(vapp := id)
  }

  /** The tenant cluster object. It is gone from the API server once it is deleting without a finalizer. */
  datatype ClusterRec = ClusterRec(finalizer: bool, deleting: bool, endpoint: Endpoint, refs: Refs, ready: bool) {
    predicate Gone() { deleting && !finalizer }
  }

  datatype AddressType = InternalIP | OtherAddress
  datatype MachineAddress = MachineAddress(kind: AddressType, address: string)

  datatype MachineRec = MachineRec(controlPlane: bool, finalizer: bool, deleting: bool,
                                   providerId: Option<Id>, addresses: seq<MachineAddress>, ready: bool) {
    predicate Gone() { deleting && !finalizer }
  }

  /** What the environment fixes about a cluster: naming, and which references its objects carry. */
  datatype ClusterConf = ClusterConf(meta: Meta, identity: bool, owner: bool, controlPlaneRef: bool, infraRef: bool)

  function NameFor(conf: ClusterConf, kind: Kind): string {
    if kind.VAppKind? then ResourceName(conf.meta) else ResourceNameWithUse(conf.meta, CONTROL_PLANE_USE)
  }

  /** The internal address both the joining and the leaving pass choose: the last one recorded. */
  function LastInternal(addresses: seq<MachineAddress>): string {
    if addresses == [] then ""
    else
      var last := addresses[|addresses| - 1];
      if last.kind.InternalIP? then last.address else LastInternal(addresses[..|addresses| - 1])
  }

  function Recorded(nics: seq<string>): seq<MachineAddress> {
    seq(|nics|, i requires 0 <= i < |nics| => MachineAddress(InternalIP, nics[i]))
  }

  function AddressesOf(nics: Option<seq<string>>): seq<MachineAddress> {
    if nics.Some? then Recorded(nics.value) else []
  }

  // ----- workers -----

  datatype CPc =
    | CFinalizer | CConnect | CEndpoint
    | CLook(kind: Kind) | CEngine | CMake(kind: Kind)
    | CNetwork | CAttach | CPower | CRecord
    | DMachines | DConnect | DLook(kind: Kind) | DDrop(kind: Kind) | DRelease
    | CPatch

  /** `rec` is the copy the pass works on; `found` holds the objects the pass has found or created so far. */
  datatype CWorker = CIdle | CBusy(k: CKey, rec: ClusterRec, pc: CPc, found: Refs)

  datatype MPc =
    | MFinalizer | MGates | MCluster | MConnect | MVApp | MCatalog
    | MVmLook | MTemplate | MVmAdd | MVmAgain | MConfigure | MPower
    | MGroup | MJoin | MReady
    | XCluster | XConnect | XGroup | XLeave | XVApp | XVm | XDrop | XRelease
    | MPatch

  /** `infra` and `refs` are what the pass read from the owner cluster and the tenant cluster. */
  datatype MWorker = MIdle | MBusy(m: MKey, rec: MachineRec, infra: bool, pc: MPc, refs: Refs, vm: Id, ips: seq<string>)

  datatype State = State(
    conf: map<CKey, ClusterConf>,
    cloud: Cloud,
    clusters: map<CKey, ClusterRec>,
    machines: map<MKey, MachineRec>,
    owners: set<MKey>,    // machines whose owner Machine object still exists
    infra: set<CKey>,     // clusters whose owner Cluster reports its infrastructure as ready
    cw: CWorker,
    mw: MWorker)

  /** Every key that occurs in the state is a key of the tables it is looked up in. */
  ghost predicate Shape(s: State) {
    && s.conf.Keys == s.clusters.Keys
    && s.owners <= s.machines.Keys
    && s.infra <= s.conf.Keys
    && (forall m | m in s.machines :: m.cluster in s.conf)
    && (s.cw.CBusy? ==> s.cw.k in s.conf)
    && (s.mw.MBusy? ==> s.mw.m in s.machines)
  }

  predicate NoOwner(owners: set<MKey>, k: CKey) {
    forall m | m in owners :: m.cluster != k
  }

  // ----- outcomes -----

  /**
    How a call ends: with a truthful answer or the effect, with an error and no effect, with an error although
    the effect took place, or (for a call that starts a task) accepted and then without effect.
  */
  datatype Outcome = Good | Bad | BadApplied | Dropped

  predicate Applied(o: Outcome) { o.Good? || o.BadApplied? }

  // ----- cluster reconciler -----

  function CGoto(s: State, pc: CPc): (t: State)
    requires s.cw.CBusy?
    ensures t == s.(cloud := t.cloud, cw := t.cw) && t.cw.CBusy? && t.cw.k == s.cw.k
  {
    s.(cw := s.cw.(pc := pc))
  }

  /** The call that follows once the object of a kind is at hand. */
  function AfterFound(kind: Kind): CPc {
    match kind
    case IpSetKind => CLook(PoolKind)
    case PoolKind => CLook(ServiceKind)
    case ServiceKind => CLook(VAppKind)
    case VAppKind => CRecord
  }

  function AfterDropped(kind: Kind): CPc {
    match kind
    case ServiceKind => DLook(PoolKind)
    case PoolKind => DLook(IpSetKind)
    case IpSetKind => DLook(VAppKind)
    case VAppKind => DRelease
  }

  /**
    Where a pass goes when the object is missing. Building the pool configuration dereferences the IP set, so a
    pass whose IP set lookup failed stops there.
  */
  function AfterMissing(kind: Kind, found: Refs): CPc {
    match kind
    case IpSetKind => CMake(IpSetKind)
    case PoolKind => if found.ipset.None? then CPatch else CMake(PoolKind)
    case ServiceKind => CEngine
    case VAppKind => CMake(VAppKind)
  }

  function NewResource(conf: ClusterConf, kind: Kind, endpoint: Endpoint, found: Refs): Resource {
    match kind
    case IpSetKind => Group(NameFor(conf, kind), [])
    case PoolKind => Pool(NameFor(conf, kind), if found.ipset.Some? then found.ipset.value else 0)
    case ServiceKind => Service(NameFor(conf, kind), if found.pool.Some? then found.pool.value else 0,
                                endpoint.host, endpoint.port)
    case VAppKind => VApp(NameFor(conf, kind), false)
  }

  /** The four references are written one after the other and the pass stops at the first nil object. */
  function RecordRefs(rec: ClusterRec, found: Refs): ClusterRec {
    var rec := rec.(refs := rec.refs.(vapp := found.vapp, service := found.service));
    if found.pool.None? then rec
    else
      var rec := rec.(refs := rec.refs.(pool := found.pool));
      if found.ipset.None? then rec
      else rec.(refs := rec.refs.(ipset := found.ipset), ready := true)
  }

  /** The patch writes everything but the deletion mark, and fails on an object that is gone. */
  function CommitCluster(stored: ClusterRec, rec: ClusterRec): ClusterRec {
    if stored.Gone() then stored else rec.(deleting := stored.deleting)
  }

  function StepLook(s: State, kind: Kind, o: Outcome): (t: State)
    requires Shape(s) && s.cw.CBusy?
    ensures t == s.(cloud := t.cloud, cw := t.cw) && t.cw.CBusy? && t.cw.k == s.cw.k
  {
    if o.Good? then
      var hit := Find(s.cloud, s.cloud.next, kind, NameFor(s.conf[s.cw.k], kind));
      if hit.Some? then s.(cw := s.cw.(found := Put(s.cw.found, kind, hit), pc := AfterFound(kind)))
      else CGoto(s, AfterMissing(kind, s.cw.found))
    else if kind.IpSetKind? || kind.PoolKind? then CGoto(s, AfterFound(kind))
    else CGoto(s, CPatch)
  }

  function StepMake(s: State, kind: Kind, o: Outcome): (t: State)
    requires Shape(s) && s.cw.CBusy?
    ensures t == s.(cloud := t.cloud, cw := t.cw) && t.cw.CBusy? && t.cw.k == s.cw.k
  {
    var cloud := Create(s.cloud, NewResource(s.conf[s.cw.k], kind, s.cw.rec.endpoint, s.cw.found));
    if o.Good? then
      s.(cloud := cloud,
         cw := s.cw.(found := Put(s.cw.found, kind, Some(s.cloud.next)),
                     pc := if kind.VAppKind? then CNetwork else AfterFound(kind)))
    else if o.BadApplied? then CGoto(s, CPatch).(cloud := cloud)
    else CGoto(s, CPatch)
  }

  function StepAttach(s: State, o: Outcome): (t: State)
    requires s.cw.CBusy?
    ensures t == s.(cloud := t.cloud, cw := t.cw) && t.cw.CBusy? && t.cw.k == s.cw.k
  {
    var id := if s.cw.found.vapp.Some? then s.cw.found.vapp.value else 0;
    var t := CGoto(s, if o.Good? then CPower else CPatch);
    if Applied(o) && id in s.cloud.objs && s.cloud.objs[id].VApp?
    then t.(cloud := Update(s.cloud, id, s.cloud.objs[id].(network := true))) else t
  }

  function StepTeardownLook(s: State, kind: Kind, o: Outcome): (t: State)
    requires s.cw.CBusy?
    ensures t == s.(cloud := t.cloud, cw := t.cw) && t.cw.CBusy? && t.cw.k == s.cw.k
  {
    var ref := At(s.cw.rec.refs, kind);
    if ref.None? then CGoto(s, AfterDropped(kind))
    else if !o.Good? then CGoto(s, CPatch)
    else if ref.value !in s.cloud.objs then CGoto(s, AfterDropped(kind))
    else
      var r := s.cloud.objs[ref.value];
      if kind.IpSetKind? && r.Group? && r.ips != [] then CGoto(s, CPatch) else CGoto(s, DDrop(kind))
  }

  function StepTeardownDrop(s: State, kind: Kind, o: Outcome): (t: State)
    requires s.cw.CBusy?
    ensures t == s.(cloud := t.cloud, cw := t.cw) && t.cw.CBusy? && t.cw.k == s.cw.k
  {
    var ref := At(s.cw.rec.refs, kind);
    var t := CGoto(s, if o.Good? then AfterDropped(kind) else CPatch);
    if Applied(o) && ref.Some? then t.(cloud := Drop(s.cloud, ref.value)) else t
  }

  predicate ClusterChangesCloud(pc: CPc) { pc.CMake? || pc.CAttach? || pc.DDrop? }

  /** One step of the cluster reconciler. `addr` is the address the edge gateway offers when it is asked. */
  function ClusterStep(s: State, o: Outcome, addr: string): (t: State)
    requires Shape(s) && s.cw.CBusy?
    ensures Shape(t) && t == s.(cloud := t.cloud, cw := t.cw, clusters := t.clusters)
    ensures !s.cw.pc.CPatch? ==> t.clusters == s.clusters && t.cw.CBusy? && t.cw.k == s.cw.k
    ensures !ClusterChangesCloud(s.cw.pc) ==> t.cloud == s.cloud
  {
    var w := s.cw;
    var conf := s.conf[w.k];
    match w.pc
    case CFinalizer =>
      if w.rec.deleting then CGoto(s, DMachines)
      else if !w.rec.finalizer then s.(cw := w.(rec := w.rec.(finalizer := true), pc := CPatch))
      else if !conf.identity then CGoto(s, CPatch)
      else CGoto(s, CConnect)
    case CConnect => CGoto(s, if o.Good? then CEndpoint else CPatch)
    case CEndpoint =>
      if w.rec.endpoint.host == "" then
        if o.Good? then s.(cw := w.(rec := w.rec.(endpoint := Endpoint(addr, API_PORT)), pc := CPatch))
        else CGoto(s, CPatch)
      else if !conf.owner || !conf.controlPlaneRef then CGoto(s, CPatch)
      else CGoto(s, CLook(IpSetKind))
    case CLook(kind) => StepLook(s, kind, o)
    case CEngine => CGoto(s, if !o.Good? || w.found.pool.None? then CPatch else CMake(ServiceKind))
    case CMake(kind) => StepMake(s, kind, o)
    case CNetwork => CGoto(s, if o.Good? then CAttach else CPatch)
    case CAttach => StepAttach(s, o)
    case CPower => CGoto(s, if o.Good? || o.Dropped? then CRecord else CPatch)
    case CRecord => s.(cw := w.(rec := RecordRefs(w.rec, w.found), pc := CPatch))
    case DMachines => CGoto(s, if o.Good? && conf.owner && NoOwner(s.owners, w.k) then DConnect else CPatch)
    case DConnect => CGoto(s, if o.Good? && conf.identity then DLook(ServiceKind) else CPatch)
    case DLook(kind) => StepTeardownLook(s, kind, o)
    case DDrop(kind) => StepTeardownDrop(s, kind, o)
    case DRelease => s.(cw := w.(rec := w.rec.(finalizer := false), pc := CPatch))
    case CPatch =>
      if Applied(o)
      then s.(clusters := s.clusters[w.k := CommitCluster(s.clusters[w.k], w.rec)], cw := CIdle)
      else s.(cw := CIdle)
  }

  // ----- machine reconciler -----

  function MGoto(s: State, pc: MPc): (t: State)
    requires s.mw.MBusy?
    ensures t == s.(cloud := t.cloud, mw := t.mw) && t.mw.MBusy? && t.mw.m == s.mw.m
  {
    s.(mw := s.mw.(pc := pc))
  }

  function CommitMachine(stored: MachineRec, rec: MachineRec): MachineRec {
    if stored.Gone() then stored else rec.(deleting := stored.deleting)
  }

  function StepVApp(s: State, o: Outcome): (t: State)
    requires s.mw.MBusy?
    ensures t == s.(cloud := t.cloud, mw := t.mw) && t.mw.MBusy? && t.mw.m == s.mw.m
  {
    var w := s.mw;
    if w.refs.vapp.None? || !o.Good? || w.refs.vapp.value !in s.cloud.objs then MGoto(s, MPatch)
    else if w.rec.providerId.None? then MGoto(s, MCatalog)
    else MGoto(s, if w.rec.controlPlane then MGroup else MReady)
  }

  function StepVmLook(s: State, o: Outcome, missing: MPc): (t: State)
    requires s.mw.MBusy?
    ensures t == s.(cloud := t.cloud, mw := t.mw) && t.mw.MBusy? && t.mw.m == s.mw.m
  {
    if !o.Good? || s.mw.refs.vapp.None? then MGoto(s, MPatch)
    else
      var hit := FindVm(s.cloud, s.cloud.next, s.mw.refs.vapp.value, s.mw.m.name);
      if hit.Some? then s.(mw := s.mw.(vm := hit.value, pc := MConfigure)) else MGoto(s, missing)
  }

  function StepVmAdd(s: State, o: Outcome, nics: Option<seq<string>>): (t: State)
    requires s.mw.MBusy?
    ensures t == s.(cloud := t.cloud, mw := t.mw) && t.mw.MBusy? && t.mw.m == s.mw.m
  {
    var vapp := if s.mw.refs.vapp.Some? then s.mw.refs.vapp.value else 0;
    var t := MGoto(s, if o.Good? || o.Dropped? then MVmAgain else MPatch);
    if Applied(o) then t.(cloud := Create(s.cloud, Vm(s.mw.m.name, vapp, nics, false))) else t
  }

  /**
    From reading the bootstrap secret to updating the VM's specification. The vApp's network is needed, and the
    cloud-init template is only rendered when every address of the VM parses; an empty one does not.
  */
  predicate Configurable(c: Cloud, vm: Id) {
    && vm in c.objs
    && c.objs[vm].Vm?
    && c.objs[vm].vapp in c.objs
    && c.objs[c.objs[vm].vapp].VApp?
    && c.objs[c.objs[vm].vapp].network
    && (c.objs[vm].nics.Some? ==> "" !in c.objs[vm].nics.value)
  }

  function StepPower(s: State, o: Outcome): (t: State)
    requires s.mw.MBusy?
    ensures t == s.(cloud := t.cloud, mw := t.mw) && t.mw.MBusy? && t.mw.m == s.mw.m
  {
    var w := s.mw;
    if w.vm !in s.cloud.objs || !s.cloud.objs[w.vm].Vm? then MGoto(s, MPatch)
    else
      var r := s.cloud.objs[w.vm];
      var t := if Applied(o) then s.(cloud := Update(s.cloud, w.vm, r.(on := true))) else s;
      if o.Good? then
        t.(mw := w.(rec := w.rec.(providerId := Some(w.vm),
                                  addresses := if r.nics.Some? then Recorded(r.nics.value) else w.rec.addresses),
                    pc := if w.rec.controlPlane then MGroup else MReady))
      else MGoto(t, MPatch)
  }

  /** Reads the IP set. `XLeave` always writes it back, `MJoin` only when the address is missing from it. */
  function StepGroup(s: State, o: Outcome): (t: State)
    requires s.mw.MBusy?
    ensures t == s.(cloud := t.cloud, mw := t.mw) && t.mw.MBusy? && t.mw.m == s.mw.m
  {
    var w := s.mw;
    if w.refs.ipset.None? || !o.Good? || w.refs.ipset.value !in s.cloud.objs || !s.cloud.objs[w.refs.ipset.value].Group?
    then MGoto(s, MPatch)
    else
      var ips := s.cloud.objs[w.refs.ipset.value].ips;
      var ip := LastInternal(w.rec.addresses);
      if w.pc.XGroup? then s.(mw := w.(ips := ips, pc := XLeave))
      else if ip == "" then MGoto(s, MPatch)
      else s.(mw := w.(ips := ips, pc := if ip in ips then MReady else MJoin))
  }

  function Without(ips: seq<string>, ip: string): seq<string> {
    if ips == [] then []
    else if ips[0] == ip then Without(ips[1..], ip)
    else [ips[0]] + Without(ips[1..], ip)
  }

  /** The list a pass writes back: the one it read, with its machine's address added or removed. */
  function NewIps(w: MWorker): seq<string>
    requires w.MBusy?
  {
    var ip := LastInternal(w.rec.addresses);
    if w.pc.MJoin? then w.ips + [ip] else Without(w.ips, ip)
  }

  function WriteIps(c: Cloud, id: Id, ips: seq<string>): Cloud
    requires id in c.objs && c.objs[id].Group?
  {
    Update(c, id, c.objs[id].(ips := ips))
  }

  /** Writes back the list read before, with the machine's address added or removed. */
  function StepWriteGroup(s: State, o: Outcome, done: MPc): (t: State)
    requires s.mw.MBusy?
    ensures t == s.(cloud := t.cloud, mw := t.mw) && t.mw.MBusy? && t.mw.m == s.mw.m
  {
    var w := s.mw;
    if w.refs.ipset.None? || w.refs.ipset.value !in s.cloud.objs || !s.cloud.objs[w.refs.ipset.value].Group?
    then MGoto(s, MPatch)
    else
      s.(cloud := if Applied(o) then WriteIps(s.cloud, w.refs.ipset.value, NewIps(w)) else s.cloud,
         mw := w.(pc := if o.Good? then done else MPatch))
  }

  function StepXVm(s: State, o: Outcome): (t: State)
    requires s.mw.MBusy?
    ensures t == s.(cloud := t.cloud, mw := t.mw) && t.mw.MBusy? && t.mw.m == s.mw.m
  {
    if !o.Good? || s.mw.refs.vapp.None? then MGoto(s, MPatch)
    else
      var hit := FindVm(s.cloud, s.cloud.next, s.mw.refs.vapp.value, s.mw.m.name);
      if hit.Some? then s.(mw := s.mw.(vm := hit.value, pc := XDrop)) else MGoto(s, XRelease)
  }

  function StepVmDrop(s: State, o: Outcome): (t: State)
    requires s.mw.MBusy?
    ensures t == s.(cloud := t.cloud, mw := t.mw) && t.mw.MBusy? && t.mw.m == s.mw.m
  {
    var t := MGoto(s, if o.Good? then XRelease else MPatch);
    if Applied(o) then t.(cloud := Drop(s.cloud, s.mw.vm)) else t
  }

  function StepReadCluster(s: State, o: Outcome, done: MPc): (t: State)
    requires Shape(s) && s.mw.MBusy?
    ensures t == s.(cloud := t.cloud, mw := t.mw) && t.mw.MBusy? && t.mw.m == s.mw.m
  {
    var c := s.clusters[s.mw.m.cluster];
    if !o.Good? || c.Gone() then MGoto(s, MPatch) else s.(mw := s.mw.(refs := c.refs, pc := done))
  }

  predicate MachineChangesCloud(pc: MPc) { pc.MVmAdd? || pc.MPower? || pc.MJoin? || pc.XLeave? || pc.XDrop? }

  /** The calls of a pass over a machine under deletion. */
  function MachineTeardownStep(s: State, o: Outcome): (t: State)
    requires Shape(s) && s.mw.MBusy?
    ensures !MachineChangesCloud(s.mw.pc) ==> t.cloud == s.cloud
    ensures t == s.(cloud := t.cloud, mw := t.mw) && t.mw.MBusy? && t.mw.m == s.mw.m
  {
    var w := s.mw;
    var conf := s.conf[w.m.cluster];
    match w.pc
    case XCluster => StepReadCluster(s, o, XConnect)
    case XConnect =>
      if !o.Good? || !conf.identity then MGoto(s, MPatch)
      else MGoto(s, if w.rec.controlPlane && LastInternal(w.rec.addresses) != "" then XGroup else XVApp)
    case XGroup => StepGroup(s, o)
    case XLeave => StepWriteGroup(s, o, XVApp)
    case XVApp =>
      if w.refs.vapp.None? then MGoto(s, XRelease)
      else MGoto(s, if o.Good? && w.refs.vapp.value in s.cloud.objs then XVm else MPatch)
    case XVm => StepXVm(s, o)
    case XDrop => StepVmDrop(s, o)
    case XRelease => s.(mw := w.(rec := w.rec.(finalizer := false), pc := MPatch))
    case _ => s
  }

  /** One step of the machine reconciler. `nics` are the addresses the cloud gives a VM it adds. */
  function MachineStep(s: State, o: Outcome, nics: Option<seq<string>>): (t: State)
    requires Shape(s) && s.mw.MBusy?
    ensures Shape(t) && t == s.(cloud := t.cloud, mw := t.mw, machines := t.machines)
    ensures !s.mw.pc.MPatch? ==> t.machines == s.machines && t.mw.MBusy? && t.mw.m == s.mw.m
    ensures !MachineChangesCloud(s.mw.pc) ==> t.cloud == s.cloud
  {
    var w := s.mw;
    var conf := s.conf[w.m.cluster];
    match w.pc
    case MFinalizer =>
      if w.rec.deleting then MGoto(s, if conf.infraRef then XCluster else XRelease)
      else if !w.rec.finalizer then s.(mw := w.(rec := w.rec.(finalizer := true), pc := MPatch))
      else MGoto(s, if w.infra then MGates else MPatch)
    case MGates => MGoto(s, if o.Good? then MCluster else MPatch)
    case MCluster => StepReadCluster(s, o, if conf.identity then MConnect else MPatch)
    case MConnect => MGoto(s, if o.Good? then MVApp else MPatch)
    case MVApp => StepVApp(s, o)
    case MCatalog => MGoto(s, if o.Good? then MVmLook else MPatch)
    case MVmLook => StepVmLook(s, o, MTemplate)
    case MTemplate => MGoto(s, if o.Good? then MVmAdd else MPatch)
    case MVmAdd => StepVmAdd(s, o, nics)
    case MVmAgain => StepVmLook(s, o, MPatch)
    case MConfigure => MGoto(s, if o.Good? && Configurable(s.cloud, w.vm) then MPower else MPatch)
    case MPower => StepPower(s, o)
    case MGroup => StepGroup(s, o)
    case MJoin => StepWriteGroup(s, o, MReady)
    case MReady => s.(mw := w.(rec := w.rec.(ready := true), pc := MPatch))
    case MPatch =>
      if Applied(o)
      then s.(machines := s.machines[w.m := CommitMachine(s.machines[w.m], w.rec)], mw := MIdle)
      else s.(mw := MIdle)
    case _ => MachineTeardownStep(s, o)
  }

  // ----- events and runs -----

  datatype Event =
    | ClusterBegin(k: CKey) | ClusterAct(o: Outcome, addr: string) | ClusterCrash
    | MachineBegin(m: MKey) | MachineAct(o: Outcome, nics: Option<seq<string>>) | MachineCrash
    | CreateMachine(m: MKey, controlPlane: bool) | DeleteMachine(m: MKey) | OwnerLeaves(m: MKey)
    | DeleteCluster(k: CKey) | MirrorReady(k: CKey)

  /**
    When an event may happen. The environment's part: one pass per controller at a time, only for objects that are
    not gone; no machine joins a cluster under deletion and no machine name is used twice; an owner Machine outlives
    its tenant machine; the owner Cluster reports readiness only after the stored tenant cluster does.
  */
  predicate Enabled(s: State, e: Event)
    requires Shape(s)
  {
    match e
    case ClusterBegin(k) => s.cw.CIdle? && k in s.clusters && !s.clusters[k].Gone()
    case ClusterAct(o, addr) => s.cw.CBusy? && addr != ""
    case ClusterCrash => s.cw.CBusy?
    case MachineBegin(m) => s.mw.MIdle? && m in s.owners && !s.machines[m].Gone()
    case MachineAct(o, nics) => s.mw.MBusy?
    case MachineCrash => s.mw.MBusy?
    case CreateMachine(m, cp) => m !in s.machines && m.cluster in s.clusters && !s.clusters[m.cluster].deleting
    case DeleteMachine(m) => m in s.machines
    case OwnerLeaves(m) => m in s.owners && s.machines[m].Gone()
    case DeleteCluster(k) => k in s.clusters
    case MirrorReady(k) => k in s.clusters && s.clusters[k].ready && s.conf[k].infraRef
  }

  /** A pass at its start: it works on a copy of the stored object. */
  function ClusterBegun(s: State, k: CKey): State
    requires k in s.clusters
  {
    s.(cw := CBusy(k, s.clusters[k], CFinalizer, NO_REFS))
  }

  function MachineBegun(s: State, m: MKey): State
    requires m in s.machines
  {
    s.(mw := MBusy(m, s.machines[m], m.cluster in s.infra, MFinalizer, NO_REFS, 0, []))
  }

  function Apply(s: State, e: Event): (t: State)
    requires Shape(s) && Enabled(s, e)
    ensures Shape(t) && t.conf == s.conf
  {
    match e
    case ClusterBegin(k) => ClusterBegun(s, k)
    case ClusterAct(o, addr) => ClusterStep(s, o, addr)
    case ClusterCrash => s.(cw := CIdle)
    case MachineBegin(m) => MachineBegun(s, m)
    case MachineAct(o, nics) => MachineStep(s, o, nics)
    case MachineCrash => s.(mw := MIdle)
    case CreateMachine(m, cp) =>
      s.(machines := s.machines[m := MachineRec(cp, false, false, None, [], false)], owners := s.owners + {m})
    case DeleteMachine(m) => s.(machines := s.machines[m := s.machines[m].(deleting := true)])
    case OwnerLeaves(m) => s.(owners := s.owners - {m})
    case DeleteCluster(k) => s.(clusters := s.clusters[k := s.clusters[k].(deleting := true)])
    case MirrorReady(k) => s.(infra := s.infra + {k})
  }

  /** `t` is reached from `s` by the events `es`, each enabled where it happens. */
  ghost predicate Runs(s: State, es: seq<Event>, t: State)
    decreases |es|
  {
    && Shape(s)
    && if es == [] then s == t else Enabled(s, es[0]) && Runs(Apply(s, es[0]), es[1..], t)
  }
}
