/** The disk section a machine's VM is updated to. */
module Disks {
  import opened Options

  /** The value of one disk's settings. `iops` stands for the settings the machine controller never touches. */
  datatype Disk = Disk(sizeMb: int, bus: int, unit: int, adapter: string, thin: Option<bool>, iops: int)

  class DiskSettings {
    var sizeMb: int
    var bus: int
    var unit: int
    var adapter: string
    var thin: Option<bool>
    var iops: int

    constructor (d: Disk)
      ensures Value() == d
    {
      sizeMb, bus, unit, adapter, thin, iops := d.sizeMb, d.bus, d.unit, d.adapter, d.thin, d.iops;
    }

    function Value(): Disk
      reads this
    {
      Disk(sizeMb, bus, unit, adapter, thin, iops)
    }
  }

  function Values(ds: seq<DiskSettings>): seq<Disk>
    reads ds
  {
    seq(|ds|, i requires 0 <= i < |ds| reads ds => ds[i].Value())
  }

  /** Disk `i` of the additional ones goes to the `i + 1`st unit after the first disk, on the first disk's bus. */
  function Added(first: Disk, sizes: seq<int>): seq<Disk> {
    seq(|sizes|, i requires 0 <= i < |sizes| =>
          Disk(sizes[i], first.bus, first.unit + i + 1, first.adapter, Some(true), 0))
  }

  /** The first disk is kept, resized, only when the machine asks for a positive size. */
  function Section(existing: seq<Disk>, size: int, additional: seq<int>): Option<seq<Disk>>
    requires existing != [] || (size == 0 && additional == [])
  {
    if size == 0 && additional == [] then None
    else Some((if size > 0 then [existing[0].(sizeMb := size)] else []) + Added(existing[0], additional))
  }

  /**
    The root disk of the result is the object passed in, and its size is all that changes of what was there before.
    After it come the disks asked for, in order and with their sizes, thin provisioned, on the first disk's bus and the
    units after its own.
  */
  method DiskSection(existing: seq<DiskSettings>, size: int, additional: seq<int>)
    returns (r: Option<seq<DiskSettings>>)
    requires existing != [] || (size == 0 && additional == [])
    modifies (if existing != [] && size > 0 then {existing[0]} else {})`sizeMb
    ensures r.Some? <==> Section(old(Values(existing)), size, additional).Some?
    ensures r.Some? ==> Values(r.value) == Section(old(Values(existing)), size, additional).value
    ensures r.None? <==> size == 0 && additional == []
    ensures r.Some? && size > 0 ==> r.value != [] && r.value[0] == existing[0] && existing[0].sizeMb == size
    ensures r.Some? ==>
              var kept := if size > 0 then 1 else 0;
              && |r.value| == kept + |additional|
              && forall i | 0 <= i < |additional| ::
                   && fresh(r.value[kept + i])
                   && r.value[kept + i].sizeMb == additional[i]
                   && r.value[kept + i].bus == old(existing[0].bus)
                   && r.value[kept + i].unit == old(existing[0].unit) + i + 1
                   && r.value[kept + i].adapter == old(existing[0].adapter)
                   && r.value[kept + i].thin == Some(true)
  {
    if size == 0 && additional == [] { return None; }
    ghost var first := existing[0].Value();
    var section := [];
    if size > 0 {
      var root := existing[0];
      root.sizeMb := size;
      section := section + [root];
    }
    ghost var kept := |section|;
    var bus, adapter := existing[0].bus, existing[0].adapter;
    for i := 0 to |additional|
      invariant |section| == kept + i
      invariant size > 0 ==> section[0] == existing[0] && existing[0].Value() == first.(sizeMb := size)
      invariant size <= 0 ==> existing[0].Value() == first
      invariant forall k | kept <= k < |section| ::
                  fresh(section[k]) && section[k].Value() == Added(first, additional)[k - kept]
    {
      var unit := existing[0].unit + i + 1;
      var disk := new DiskSettings(Disk(additional[i], bus, unit, adapter, Some(true), 0));
      section := section + [disk];
    }
    assert Values(section) == (if size > 0 then [first.(sizeMb := size)] else []) + Added(first, additional);
    r := Some(section);
  }

  predicate DistinctSlots(ds: seq<Disk>) {
    forall i, j | 0 <= i < j < |ds| :: !(ds[i].bus == ds[j].bus && ds[i].unit == ds[j].unit)
  }

  /** No two disks of a section share a slot, whatever the existing disks were. */
  lemma SlotsAreDistinct(existing: seq<Disk>, size: int, additional: seq<int>)
    requires existing != [] && Section(existing, size, additional).Some?
    ensures DistinctSlots(Section(existing, size, additional).value)
  {
    var ds := Section(existing, size, additional).value;
    var kept := if size > 0 then 1 else 0;
    forall i | 0 <= i < |ds| ensures ds[i].unit == existing[0].unit + i + 1 - kept { }
  }

  /**
    A retry starts from the section of the attempt before. It asks for the same disks exactly when the root disk has
    a positive size; otherwise the first additional disk is taken for the root and every disk moves up one unit.
  */
  lemma RetryAsksForTheSameExactly(existing: seq<Disk>, size: int, additional: seq<int>)
    requires existing != [] && Section(existing, size, additional).Some?
    requires Section(existing, size, additional).value != []
    ensures var once := Section(existing, size, additional);
            var twice := Section(once.value, size, additional);
            && (twice == once <==> size > 0)
            && (size <= 0 ==> |twice.value| == |once.value|
                              && forall i | 0 <= i < |once.value| ::
                                   twice.value[i] == once.value[i].(unit := once.value[i].unit + 1))
  {
    var once := Section(existing, size, additional).value;
    var twice := Section(once, size, additional).value;
    if size > 0 {
      assert once[0] == existing[0].(sizeMb := size);
      assert twice == once;
    } else {
      assert once[0] == Added(existing[0], additional)[0];
      assert twice[0].unit == once[0].unit + 1;
    }
  }

  /** The only section without disks asks for no additional disk and a negative size. */
  lemma EmptySectionExactly(existing: seq<Disk>, size: int, additional: seq<int>)
    requires existing != []
    ensures Section(existing, size, additional) == Some([]) <==> size < 0 && additional == []
  {
    if size < 0 && additional == [] {
      assert Section(existing, size, additional).value == [];
    }
  }
}
