/** A value that may be absent; Go's nil pointers and empty strings become `None`. */
module Options {
  datatype Option<+T> = None | Some(value: T)
}

/** The shared Cloud Director tenant: the objects both controllers create, look up, change and delete. */
module Clouds {
  import opened Options

  /** Identifiers are handed out by the cloud and never used twice. */
  type Id = nat

  datatype Resource =
    | Group(name: string, ips: seq<string>)
    | Pool(name: string, group: Id)
    | Service(name: string, pool: Id, vip: string, port: int)
    | VApp(name: string, network: bool)
    | Vm(name: string, vapp: Id, nics: Option<seq<string>>, on: bool)

  /** The four objects a cluster owns. */
  datatype Kind = IpSetKind | PoolKind | ServiceKind | VAppKind

  datatype Cloud = Cloud(objs: map<Id, Resource>, next: Id)

  predicate IsA(r: Resource, kind: Kind, name: string) {
    && r.name == name
    && match kind
       case IpSetKind => r.Group?
       case PoolKind => r.Pool?
       case ServiceKind => r.Service?
       case VAppKind => r.VApp?
  }

  /** A by-name lookup of one of the four cluster-owned kinds among the identifiers below `n`. */
  function Find(c: Cloud, n: nat, kind: Kind, name: string): (r: Option<Id>)
    ensures r.Some? ==> r.value in c.objs && r.value < n && IsA(c.objs[r.value], kind, name)
    ensures r.None? ==> forall i | i in c.objs && i < n :: !IsA(c.objs[i], kind, name)
  {
    if n == 0 then None
    else if n - 1 in c.objs && IsA(c.objs[n - 1], kind, name) then Some(n - 1)
    else Find(c, n - 1, kind, name)
  }

  predicate IsVm(r: Resource, vapp: Id, name: string) {
    r.Vm? && r.vapp == vapp && r.name == name
  }

  /** A lookup of a virtual machine by name inside one vApp, among the identifiers below `n`. */
  function FindVm(c: Cloud, n: nat, vapp: Id, name: string): (r: Option<Id>)
    ensures r.Some? ==> r.value in c.objs && r.value < n && IsVm(c.objs[r.value], vapp, name)
    ensures r.None? ==> forall i | i in c.objs && i < n :: !IsVm(c.objs[i], vapp, name)
  {
    if n == 0 then None
    else if n - 1 in c.objs && IsVm(c.objs[n - 1], vapp, name) then Some(n - 1)
    else FindVm(c, n - 1, vapp, name)
  }

  function Create(c: Cloud, r: Resource): Cloud {
    Cloud(c.objs[c.next := r], c.next + 1)
  }

  function Update(c: Cloud, id: Id, r: Resource): Cloud {
    c.(objs := c.objs[id := r])
  }

  /** Deleting a vApp deletes the virtual machines inside it as well; nothing else cascades. */
  function Drop(c: Cloud, id: Id): Cloud {
    c.(objs := map i | i in c.objs && i != id && !(c.objs[i].Vm? && c.objs[i].vapp == id) :: c.objs[i])
  }
}
