/** The guest properties `userdata` and `metadata` of a VM's product section. */
module ProductSection {
  import opened Options

  datatype Prop = Prop(kind: string, key: string, caption: string, default: string)

  class Property {
    var kind: string
    var key: string
    var caption: string
    var default: string

    constructor (p: Prop)
      ensures Value() == p
    {
      kind, key, caption, default := p.kind, p.key, p.caption, p.default;
    }

    function Value(): Prop
      reads this
    {
      Prop(kind, key, caption, default)
    }
  }

  function Values(ps: seq<Property>): seq<Prop>
    reads ps
  {
    seq(|ps|, i requires 0 <= i < |ps| reads ps => ps[i].Value())
  }

  /** The position of the first property with the key, or the length of the list. */
  function First(ps: seq<Prop>, key: string): (i: nat)
    ensures i <= |ps|
    ensures i < |ps| ==> ps[i].key == key
    ensures forall j | 0 <= j < i :: ps[j].key != key
  {
    if ps == [] || ps[0].key == key then 0 else 1 + First(ps[1..], key)
  }

  function Upserted(ps: seq<Prop>, key: string, value: string): seq<Prop> {
    var i := First(ps, key);
    if i < |ps| then ps[i := ps[i].(default := value)] else ps + [Prop("string", key, key, value)]
  }

  function BothUpserted(ps: seq<Prop>, userdata: string, metadata: string): seq<Prop> {
    Upserted(Upserted(ps, "userdata", userdata), "metadata", metadata)
  }

  class SectionList {
    var properties: seq<Property>

    constructor (ps: seq<Property>)
      ensures properties == ps
    {
      properties := ps;
    }

    /** The list is decoded from a response, one object per property. */
    ghost predicate Valid()
      reads this
    {
      forall i, j | 0 <= i < j < |properties| :: properties[i] != properties[j]
    }

    function Contents(): seq<Prop>
      reads this, properties
    {
      Values(properties)
    }

    method Upsert(key: string, value: string)
      requires Valid()
      modifies this, properties`default
      ensures Valid() && old(properties) <= properties
      ensures forall i | |old(properties)| <= i < |properties| :: fresh(properties[i])
      ensures Contents() == Upserted(old(Contents()), key, value)
      ensures (forall p | p in old(properties) :: old(p.key) != key) ==>
                && |properties| == |old(properties)| + 1
                && var p := properties[|old(properties)|];
                   p.key == key && p.caption == key && p.kind == "string" && p.default == value
    {
      var has := false;
      for i := 0 to |properties|
        invariant !has && properties == old(properties) && Contents() == old(Contents())
        invariant forall j | 0 <= j < i :: properties[j].key != key
      {
        if properties[i].key == key {
          FirstIs(Contents(), key, i);
          properties[i].default := value;
          has := true;
          assert forall j | 0 <= j < |properties| && j != i :: properties[j].Value() == old(properties[j].Value());
          assert Contents() == Upserted(old(Contents()), key, value);
          break;
        }
      }
      if !has {
        assert forall j | 0 <= j < |properties| :: Contents()[j].key == properties[j].key;
        FirstIs(Contents(), key, |properties|);
        var p := new Property(Prop("string", key, key, value));
        properties := properties + [p];
        assert Contents() == old(Contents()) + [Prop("string", key, key, value)];
      }
    }

    method SetGuestProperties(userdata: string, metadata: string)
      requires Valid()
      modifies this, properties`default
      ensures Valid() && old(properties) <= properties
      ensures forall i | |old(properties)| <= i < |properties| :: fresh(properties[i])
      ensures Contents() == BothUpserted(old(Contents()), userdata, metadata)
    {
      Upsert("userdata", userdata);
      assert forall i | 0 <= i < |properties| :: i < |old(properties)| ==> properties[i] in old(properties);
      Upsert("metadata", metadata);
    }
  }

  lemma FirstIs(ps: seq<Prop>, key: string, i: nat)
    requires i <= |ps| && (i < |ps| ==> ps[i].key == key)
    requires forall j | 0 <= j < i :: ps[j].key != key
    ensures First(ps, key) == i
  {
  }

  // ----- the list as a map -----

  /** What a reader of the list gets: for each key the value of the first property that has it. */
  function AsMap(ps: seq<Prop>): map<string, string> {
    map key | key in (set i | 0 <= i < |ps| :: ps[i].key) :: ps[First(ps, key)].default
  }

  /** The upsert is a map update. */
  lemma UpsertIsMapUpdate(ps: seq<Prop>, key: string, value: string)
    ensures AsMap(Upserted(ps, key, value)) == AsMap(ps)[key := value]
  {
    var qs := Upserted(ps, key, value);
    assert forall i | 0 <= i < |ps| :: qs[i].key == ps[i].key;
    forall k ensures k in AsMap(qs) <==> k in AsMap(ps) || k == key {
      var i := First(ps, key);
      assert qs[i].key == key;
    }
    forall k | k in AsMap(qs) ensures AsMap(qs)[k] == AsMap(ps)[key := value][k] {
      if k == key { FirstIs(qs, k, First(ps, k)); }
      else { FirstIs(qs, k, First(ps, k)); }
    }
  }

  /** Nothing moves, no key, label or type changes, and only properties with the key change value. */
  lemma OthersKeepPlaceAndValue(ps: seq<Prop>, key: string, value: string, i: nat)
    requires i < |ps|
    ensures var qs := Upserted(ps, key, value);
            |ps| <= |qs| <= |ps| + 1 && qs[i] == ps[i].(default := if i == First(ps, key) then value else ps[i].default)
  {
  }

  lemma UpsertSettles(ps: seq<Prop>, key: string, value: string)
    ensures First(Upserted(ps, key, value), key) == First(ps, key)
    ensures Upserted(Upserted(ps, key, value), key, value) == Upserted(ps, key, value)
  {
    FirstIs(Upserted(ps, key, value), key, First(ps, key));
  }

  /** An upsert of one key leaves the place and value of another as they were. */
  lemma OtherKeyUndisturbed(ps: seq<Prop>, key: string, value: string, other: string)
    requires other != key && First(ps, other) < |ps|
    ensures var qs := Upserted(ps, key, value);
            First(qs, other) == First(ps, other) && qs[First(qs, other)] == ps[First(ps, other)]
  {
    FirstIs(Upserted(ps, key, value), other, First(ps, other));
  }

  /** Both properties are set, whatever the list was, and everything else reads as before. */
  lemma GuestPropertiesAreSet(ps: seq<Prop>, userdata: string, metadata: string)
    ensures AsMap(BothUpserted(ps, userdata, metadata)) == AsMap(ps)["userdata" := userdata]["metadata" := metadata]
  {
    UpsertIsMapUpdate(ps, "userdata", userdata);
    UpsertIsMapUpdate(Upserted(ps, "userdata", userdata), "metadata", metadata);
  }

  lemma UpsertOfPresentValue(ps: seq<Prop>, key: string, value: string)
    requires First(ps, key) < |ps| && ps[First(ps, key)].default == value
    ensures Upserted(ps, key, value) == ps
  {
  }

  /** A retry that sets both again leaves the list as it is. */
  lemma RetryChangesNothing(ps: seq<Prop>, userdata: string, metadata: string)
    ensures BothUpserted(BothUpserted(ps, userdata, metadata), userdata, metadata)
            == BothUpserted(ps, userdata, metadata)
  {
    var qs := Upserted(ps, "userdata", userdata);
    var rs := Upserted(qs, "metadata", metadata);
    FirstIs(qs, "userdata", First(ps, "userdata"));
    OtherKeyUndisturbed(qs, "metadata", metadata, "userdata");
    UpsertOfPresentValue(rs, "userdata", userdata);
    UpsertSettles(qs, "metadata", metadata);
  }

  /** What an empty list becomes. */
  lemma BothAdded(userdata: string, metadata: string)
    ensures BothUpserted([], userdata, metadata)
            == [Prop("string", "userdata", "userdata", userdata), Prop("string", "metadata", "metadata", metadata)]
  {
    assert First([Prop("string", "userdata", "userdata", userdata)], "metadata") == 1;
  }
}
