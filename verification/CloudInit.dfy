/** Which IP scope each network connection of a VM is configured from. */
module CloudInit {
  import opened Options

  // ----- addresses -----

  /** A parsed address. Addresses are ordered by width, then value, then zone. */
  datatype Addr = Addr(bits: nat, value: nat, zone: string)

  function CompareNumbers(a: int, b: int): int {
    if a < b then -1 else if a > b then 1 else 0
  }

  function CompareText(a: string, b: string): int {
    if a == [] || b == [] then CompareNumbers(|a|, |b|)
    else if a[0] != b[0] then CompareNumbers(a[0] as int, b[0] as int)
    else CompareText(a[1..], b[1..])
  }

  function Compare(a: Addr, b: Addr): int {
    if a.bits != b.bits then CompareNumbers(a.bits, b.bits)
    else if a.value != b.value then CompareNumbers(a.value, b.value)
    else CompareText(a.zone, b.zone)
  }

  lemma NumbersAreOrdered(a: int, b: int, c: int)
    ensures CompareNumbers(a, b) == -CompareNumbers(b, a)
    ensures CompareNumbers(a, b) == 0 <==> a == b
    ensures CompareNumbers(a, b) <= 0 <==> a <= b
    ensures CompareNumbers(a, b) == -1 || CompareNumbers(a, b) == 0 || CompareNumbers(a, b) == 1
  {
  }

  lemma {:induction false} TextIsAntisymmetric(a: string, b: string)
    ensures CompareText(a, b) == -CompareText(b, a)
    ensures CompareText(a, b) == 0 <==> a == b
    ensures CompareText(a, b) == -1 || CompareText(a, b) == 0 || CompareText(a, b) == 1
    decreases |a|
  {
    if a != [] && b != [] {
      TextIsAntisymmetric(a[1..], b[1..]);
      assert a == [a[0]] + a[1..] && b == [b[0]] + b[1..];
    }
  }

  lemma {:induction false} TextIsTransitive(a: string, b: string, c: string)
    requires CompareText(a, b) <= 0 && CompareText(b, c) <= 0
    ensures CompareText(a, c) <= 0
    decreases |a|
  {
    if a != [] && b != [] && c != [] && a[0] == b[0] == c[0] { TextIsTransitive(a[1..], b[1..], c[1..]); }
  }

  /** Comparing addresses is a total order; a narrower address comes first, and then the smaller value. */
  lemma AddressesAreOrdered(a: Addr, b: Addr, c: Addr)
    ensures Compare(a, b) == -1 || Compare(a, b) == 0 || Compare(a, b) == 1
    ensures Compare(a, b) == -Compare(b, a)
    ensures Compare(a, b) == 0 <==> a == b
    ensures Compare(a, b) <= 0 && Compare(b, c) <= 0 ==> Compare(a, c) <= 0
    ensures a.bits < b.bits ==> Compare(a, b) == -1
    ensures a.bits == b.bits && a.value < b.value ==> Compare(a, b) == -1
  {
    TextIsAntisymmetric(a.zone, b.zone);
    if CompareText(a.zone, b.zone) <= 0 && CompareText(b.zone, c.zone) <= 0 {
      TextIsTransitive(a.zone, b.zone, c.zone);
    }
  }

  type Parser = string -> Option<Addr>

  // ----- scopes -----

  datatype Range = Range(start: string, end: string)

  /** `ranges` is nil for a scope without a range list. */
  datatype Scope = Scope(gateway: string, prefixLength: string, dns: string, ranges: Option<seq<Range>>)

  datatype Connection = Connection(index: int, mac: string, address: string)

  datatype Ethernet = Ethernet(scope: Option<Scope>, connection: Connection)

  datatype Rendered = Config(ethernets: seq<Ethernet>) | ParseError | NilScope

  predicate RangeParses(parse: Parser, r: Range) { parse(r.start).Some? && parse(r.end).Some? }

  predicate ScopeParses(parse: Parser, s: Scope) {
    s.ranges.Some? ==> forall i | 0 <= i < |s.ranges.value| :: RangeParses(parse, s.ranges.value[i])
  }

  predicate Contains(parse: Parser, r: Range, a: Addr) {
    RangeParses(parse, r) && Compare(a, parse(r.start).value) != -1 && Compare(a, parse(r.end).value) != 1
  }

  /** Among addresses of one width and zone, a range holds those between its ends, the ends included. */
  lemma RangeIsInterval(parse: Parser, r: Range, a: Addr)
    requires parse(r.start).Some? && parse(r.end).Some?
    requires parse(r.start).value.bits == a.bits == parse(r.end).value.bits
    requires parse(r.start).value.zone == a.zone == parse(r.end).value.zone
    ensures Contains(parse, r, a) <==> parse(r.start).value.value <= a.value <= parse(r.end).value.value
  {
    TextIsAntisymmetric(a.zone, a.zone);
  }

  predicate AnyContains(parse: Parser, ranges: seq<Range>, a: Addr) {
    exists i | 0 <= i < |ranges| :: Contains(parse, ranges[i], a)
  }

  predicate Owns(parse: Parser, s: Scope, a: Addr) {
    s.ranges.Some? && AnyContains(parse, s.ranges.value, a)
  }

  /** Position `j` holds the last scope in list order that owns the address. */
  predicate LastOwner(parse: Parser, scopes: seq<Scope>, a: Addr, j: int) {
    0 <= j < |scopes| && Owns(parse, scopes[j], a) && forall k | j < k < |scopes| :: !Owns(parse, scopes[k], a)
  }

  predicate AllParse(parse: Parser, scopes: seq<Scope>, connections: seq<Connection>) {
    && (forall i | 0 <= i < |connections| :: parse(connections[i].address).Some?)
    && (connections != [] ==> forall j | 0 <= j < |scopes| :: ScopeParses(parse, scopes[j]))
  }

  predicate Owned(parse: Parser, scopes: seq<Scope>, c: Connection) {
    parse(c.address).Some? && exists j | 0 <= j < |scopes| :: Owns(parse, scopes[j], parse(c.address).value)
  }

  ghost predicate ConfiguredFromLastOwner(parse: Parser, scopes: seq<Scope>, c: Connection, e: Ethernet) {
    && e.connection == c
    && parse(c.address).Some?
    && exists j :: LastOwner(parse, scopes, parse(c.address).value, j) && e.scope == Some(scopes[j])
  }

  /** What the rendering of a configuration promises. */
  ghost predicate Renders(parse: Parser, scopes: seq<Scope>, connections: seq<Connection>, r: Rendered) {
    && (r.ParseError? <==> !AllParse(parse, scopes, connections))
    && (r.Config? <==> AllParse(parse, scopes, connections)
                       && forall i | 0 <= i < |connections| :: Owned(parse, scopes, connections[i]))
    && (r.Config? ==> |r.ethernets| == |connections|
                      && forall i | 0 <= i < |connections| ::
                           ConfiguredFromLastOwner(parse, scopes, connections[i], r.ethernets[i]))
  }

  function Choice(parse: Parser, scopes: seq<Scope>, a: Addr): (c: Option<Scope>) {
    if scopes == [] then None
    else if Owns(parse, scopes[|scopes| - 1], a) then Some(scopes[|scopes| - 1])
    else Choice(parse, scopes[..|scopes| - 1], a)
  }

  lemma {:induction false} ChoiceIsLastOwner(parse: Parser, scopes: seq<Scope>, a: Addr)
    ensures var c := Choice(parse, scopes, a);
            if c.Some? then exists j :: LastOwner(parse, scopes, a, j) && scopes[j] == c.value
            else forall j | 0 <= j < |scopes| :: !Owns(parse, scopes[j], a)
  {
    if scopes != [] {
      var n := |scopes| - 1;
      if Owns(parse, scopes[n], a) {
        assert LastOwner(parse, scopes, a, n);
      } else {
        var rest := scopes[..n];
        ChoiceIsLastOwner(parse, rest, a);
        if Choice(parse, rest, a).Some? {
          var j :| LastOwner(parse, rest, a, j) && rest[j] == Choice(parse, rest, a).value;
          assert LastOwner(parse, scopes, a, j);
        }
      }
    }
  }

  /** The two inner loops: one connection's scope, or nothing when a range end does not parse. */
  method SelectScope(parse: Parser, scopes: seq<Scope>, a: Addr) returns (parsed: bool, chosen: Option<Scope>)
    ensures parsed <==> forall j | 0 <= j < |scopes| :: ScopeParses(parse, scopes[j])
    ensures parsed ==> chosen == Choice(parse, scopes, a)
  {
    chosen := None;
    for j := 0 to |scopes|
      invariant forall k | 0 <= k < j :: ScopeParses(parse, scopes[k])
      invariant chosen == Choice(parse, scopes[..j], a)
    {
      assert scopes[..j + 1][..j] == scopes[..j];
      if scopes[j].ranges.None? {
        continue;
      }
      var ranges := scopes[j].ranges.value;
      ghost var before := chosen;
      for i := 0 to |ranges|
        invariant forall k | 0 <= k < i :: RangeParses(parse, ranges[k])
        invariant chosen == if AnyContains(parse, ranges[..i], a) then Some(scopes[j]) else before
      {
        AnyContainsOneMore(parse, ranges, i, a);
        var start := parse(ranges[i].start);
        if start.None? {
          assert !RangeParses(parse, ranges[i]);
          return false, None;
        }
        var end := parse(ranges[i].end);
        if end.None? {
          assert !RangeParses(parse, ranges[i]);
          return false, None;
        }
        if Compare(a, start.value) == -1 || Compare(a, end.value) == 1 {
          continue;
        }
        chosen := Some(scopes[j]);
      }
      assert ranges[..|ranges|] == ranges;
    }
    assert scopes[..|scopes|] == scopes;
    parsed := true;
  }

  lemma AnyContainsOneMore(parse: Parser, ranges: seq<Range>, i: nat, a: Addr)
    requires i < |ranges|
    ensures AnyContains(parse, ranges[..i + 1], a)
            <==> AnyContains(parse, ranges[..i], a) || Contains(parse, ranges[i], a)
  {
    var more, less := ranges[..i + 1], ranges[..i];
    assert more == less + [ranges[i]];
    if AnyContains(parse, less, a) {
      var k :| 0 <= k < |less| && Contains(parse, less[k], a);
      assert more[k] == less[k];
    }
    if Contains(parse, ranges[i], a) { assert more[i] == ranges[i]; }
  }

  method ExecuteCloudInitTemplate(parse: Parser, scopes: seq<Scope>, connections: seq<Connection>)
    returns (r: Rendered)
    ensures Renders(parse, scopes, connections, r)
  {
    var ethernets: seq<Ethernet> := [];
    for i := 0 to |connections|
      invariant |ethernets| == i
      invariant i > 0 ==> forall j | 0 <= j < |scopes| :: ScopeParses(parse, scopes[j])
      invariant forall k | 0 <= k < i :: parse(connections[k].address).Some?
      invariant forall k | 0 <= k < i ::
                  ethernets[k] == Ethernet(Choice(parse, scopes, parse(connections[k].address).value), connections[k])
    {
      var address := parse(connections[i].address);
      if address.None? { return ParseError; }
      var parsed, scope := SelectScope(parse, scopes, address.value);
      if !parsed { return ParseError; }
      ethernets := ethernets + [Ethernet(scope, connections[i])];
    }
    assert AllParse(parse, scopes, connections);
    for i := 0 to |ethernets|
      invariant forall k | 0 <= k < i ::
                  && Owned(parse, scopes, connections[k])
                  && ConfiguredFromLastOwner(parse, scopes, connections[k], ethernets[k])
    {
      ChoiceIsLastOwner(parse, scopes, parse(connections[i].address).value);
      if ethernets[i].scope.None? {
        assert !Owned(parse, scopes, connections[i]);
        return NilScope;
      }
    }
    r := Config(ethernets);
  }

  // ----- the order of the scopes -----

  /** No address is owned by the scopes at two different positions. */
  ghost predicate Disjoint(parse: Parser, scopes: seq<Scope>) {
    forall i, j, a | 0 <= i < |scopes| && 0 <= j < |scopes| && Owns(parse, scopes[i], a) && Owns(parse, scopes[j], a) ::
      i == j
  }

  ghost predicate Reordered(scopes: seq<Scope>, scopes': seq<Scope>) { multiset(scopes) == multiset(scopes') }

  lemma ElsewhereToo(scopes: seq<Scope>, scopes': seq<Scope>, j: nat) returns (i: nat)
    requires Reordered(scopes, scopes') && j < |scopes|
    ensures i < |scopes'| && scopes'[i] == scopes[j]
  {
    assert scopes[j] in multiset(scopes');
    i :| 0 <= i < |scopes'| && scopes'[i] == scopes[j];
  }

  lemma ReorderedParses(parse: Parser, scopes: seq<Scope>, scopes': seq<Scope>, connections: seq<Connection>)
    requires Reordered(scopes, scopes') && AllParse(parse, scopes, connections)
    ensures AllParse(parse, scopes', connections)
  {
    if connections != [] {
      forall j | 0 <= j < |scopes'| ensures ScopeParses(parse, scopes'[j]) {
        var i := ElsewhereToo(scopes', scopes, j);
      }
    }
  }

  lemma ReorderedOwned(parse: Parser, scopes: seq<Scope>, scopes': seq<Scope>, c: Connection)
    requires Reordered(scopes, scopes') && Owned(parse, scopes, c)
    ensures Owned(parse, scopes', c)
  {
    var j :| 0 <= j < |scopes| && Owns(parse, scopes[j], parse(c.address).value);
    var i := ElsewhereToo(scopes, scopes', j);
  }

  /** All scopes that own the connection's address are the same scope. */
  ghost predicate OneOwner(parse: Parser, scopes: seq<Scope>, c: Connection) {
    parse(c.address).Some? ==>
      forall i, j | 0 <= i < |scopes| && 0 <= j < |scopes| ::
        Owns(parse, scopes[i], parse(c.address).value) && Owns(parse, scopes[j], parse(c.address).value) ==>
          scopes[i] == scopes[j]
  }

  lemma SameEthernet(parse: Parser, scopes: seq<Scope>, scopes': seq<Scope>, c: Connection, e: Ethernet, e': Ethernet)
    requires Reordered(scopes, scopes') && OneOwner(parse, scopes, c)
    requires ConfiguredFromLastOwner(parse, scopes, c, e) && ConfiguredFromLastOwner(parse, scopes', c, e')
    ensures e == e'
  {
    var a := parse(c.address).value;
    var j :| LastOwner(parse, scopes, a, j) && e.scope == Some(scopes[j]);
    var j' :| LastOwner(parse, scopes', a, j') && e'.scope == Some(scopes'[j']);
    var i := ElsewhereToo(scopes', scopes, j');
  }

  /** Whether a configuration comes out does not depend on the order, nor does the error. */
  lemma ReorderedSucceeds(parse: Parser, scopes: seq<Scope>, scopes': seq<Scope>,
                          connections: seq<Connection>, r: Rendered, r': Rendered)
    requires Reordered(scopes, scopes')
    requires Renders(parse, scopes, connections, r) && Renders(parse, scopes', connections, r')
    ensures (r.Config? <==> r'.Config?) && (!r.Config? ==> r == r')
  {
    if AllParse(parse, scopes, connections) { ReorderedParses(parse, scopes, scopes', connections); }
    if AllParse(parse, scopes', connections) { ReorderedParses(parse, scopes', scopes, connections); }
    forall i | 0 <= i < |connections|
      ensures Owned(parse, scopes, connections[i]) <==> Owned(parse, scopes', connections[i])
    {
      if Owned(parse, scopes, connections[i]) { ReorderedOwned(parse, scopes, scopes', connections[i]); }
      if Owned(parse, scopes', connections[i]) { ReorderedOwned(parse, scopes', scopes, connections[i]); }
    }
  }

  lemma OneOwnerSuffices(parse: Parser, scopes: seq<Scope>, scopes': seq<Scope>,
                         connections: seq<Connection>, r: Rendered, r': Rendered)
    requires Reordered(scopes, scopes') && forall i | 0 <= i < |connections| :: OneOwner(parse, scopes, connections[i])
    requires Renders(parse, scopes, connections, r) && Renders(parse, scopes', connections, r')
    ensures r == r'
  {
    ReorderedSucceeds(parse, scopes, scopes', connections, r, r');
    if r.Config? {
      forall i | 0 <= i < |connections| ensures r.ethernets[i] == r'.ethernets[i] {
        SameEthernet(parse, scopes, scopes', connections[i], r.ethernets[i], r'.ethernets[i]);
      }
    }
  }

  /** With disjoint scopes the order in which they are listed does not matter. */
  lemma ReorderingChangesNothing(parse: Parser, scopes: seq<Scope>, scopes': seq<Scope>,
                                 connections: seq<Connection>, r: Rendered, r': Rendered)
    requires Reordered(scopes, scopes') && Disjoint(parse, scopes)
    requires Renders(parse, scopes, connections, r) && Renders(parse, scopes', connections, r')
    ensures r == r'
  {
    OneOwnerSuffices(parse, scopes, scopes', connections, r, r');
  }

  // ----- exactly when the order matters -----

  /** The list with the scope at one position moved to the end. */
  function MovedLast(scopes: seq<Scope>, j: nat): seq<Scope>
    requires j < |scopes|
  {
    scopes[..j] + scopes[j + 1..] + [scopes[j]]
  }

  lemma MovedLastReorders(scopes: seq<Scope>, j: nat)
    requires j < |scopes|
    ensures Reordered(scopes, MovedLast(scopes, j))
  {
    assert scopes == scopes[..j] + [scopes[j]] + scopes[j + 1..];
  }

  /** A scope that owns the address is the one chosen once it stands last. */
  lemma MovedLastIsChosen(parse: Parser, scopes: seq<Scope>, j: nat, c: Connection, e: Ethernet)
    requires j < |scopes| && parse(c.address).Some? && Owns(parse, scopes[j], parse(c.address).value)
    requires ConfiguredFromLastOwner(parse, MovedLast(scopes, j), c, e)
    ensures e.scope == Some(scopes[j])
  {
    var moved := MovedLast(scopes, j);
    assert moved[|moved| - 1] == scopes[j];
  }

  /** What the loops come to, as a value. */
  function Outcome(parse: Parser, scopes: seq<Scope>, connections: seq<Connection>): Rendered {
    if !AllParse(parse, scopes, connections) then ParseError
    else if exists i | 0 <= i < |connections| :: !Owned(parse, scopes, connections[i]) then NilScope
    else
      Config(seq(|connections|, i requires 0 <= i < |connections| =>
                   Ethernet(if parse(connections[i].address).Some?
                            then Choice(parse, scopes, parse(connections[i].address).value) else None, connections[i])))
  }

  lemma OutcomeRenders(parse: Parser, scopes: seq<Scope>, connections: seq<Connection>)
    ensures Renders(parse, scopes, connections, Outcome(parse, scopes, connections))
  {
    var r := Outcome(parse, scopes, connections);
    if r.Config? {
      forall i | 0 <= i < |connections|
        ensures ConfiguredFromLastOwner(parse, scopes, connections[i], r.ethernets[i])
      {
        ChoiceIsLastOwner(parse, scopes, parse(connections[i].address).value);
      }
    }
  }

  /** Every order of the scopes renders the same. */
  ghost predicate OrderIrrelevant(parse: Parser, scopes: seq<Scope>, connections: seq<Connection>) {
    forall scopes' | Reordered(scopes, scopes') ::
      Outcome(parse, scopes', connections) == Outcome(parse, scopes, connections)
  }

  ghost predicate OneOwnerEach(parse: Parser, scopes: seq<Scope>, connections: seq<Connection>) {
    forall i | 0 <= i < |connections| :: OneOwner(parse, scopes, connections[i])
  }

  lemma MovedLastShows(parse: Parser, scopes: seq<Scope>, connections: seq<Connection>, n: nat, j: nat)
    requires OrderIrrelevant(parse, scopes, connections) && Outcome(parse, scopes, connections).Config?
    requires n < |connections| && j < |scopes| && parse(connections[n].address).Some?
    requires Owns(parse, scopes[j], parse(connections[n].address).value)
    ensures var r := Outcome(parse, scopes, connections);
            |r.ethernets| == |connections| && r.ethernets[n].scope == Some(scopes[j])
  {
    var moved := MovedLast(scopes, j);
    MovedLastReorders(scopes, j);
    OutcomeRenders(parse, moved, connections);
    MovedLastIsChosen(parse, scopes, j, connections[n], Outcome(parse, moved, connections).ethernets[n]);
  }

  lemma OneOwnerNeeded(parse: Parser, scopes: seq<Scope>, connections: seq<Connection>)
    requires OrderIrrelevant(parse, scopes, connections) && Outcome(parse, scopes, connections).Config?
    ensures OneOwnerEach(parse, scopes, connections)
  {
    forall n, i, j | && 0 <= n < |connections| && parse(connections[n].address).Some?
                     && 0 <= i < |scopes| && 0 <= j < |scopes|
                     && Owns(parse, scopes[i], parse(connections[n].address).value)
                     && Owns(parse, scopes[j], parse(connections[n].address).value)
      ensures scopes[i] == scopes[j]
    {
      MovedLastShows(parse, scopes, connections, n, i);
      MovedLastShows(parse, scopes, connections, n, j);
    }
  }

  /**
    The order of the scopes does not matter exactly when rendering fails anyway, or when for every connection all the
    scopes that own its address are equal.
  */
  lemma OrderIrrelevantExactly(parse: Parser, scopes: seq<Scope>, connections: seq<Connection>)
    ensures OrderIrrelevant(parse, scopes, connections) <==>
              || !AllParse(parse, scopes, connections)
              || (exists i | 0 <= i < |connections| :: !Owned(parse, scopes, connections[i]))
              || OneOwnerEach(parse, scopes, connections)
  {
    if Outcome(parse, scopes, connections).Config? && OrderIrrelevant(parse, scopes, connections) {
      OneOwnerNeeded(parse, scopes, connections);
    }
    if !Outcome(parse, scopes, connections).Config? || OneOwnerEach(parse, scopes, connections) {
      OutcomeRenders(parse, scopes, connections);
      forall scopes' | Reordered(scopes, scopes')
        ensures Outcome(parse, scopes', connections) == Outcome(parse, scopes, connections)
      {
        var r, r' := Outcome(parse, scopes, connections), Outcome(parse, scopes', connections);
        OutcomeRenders(parse, scopes', connections);
        ReorderedSucceeds(parse, scopes, scopes', connections, r, r');
        if r.Config? { OneOwnerSuffices(parse, scopes, scopes', connections, r, r'); }
      }
    }
  }

  /** The rendering is determined: whatever meets the promise is that value. */
  lemma RenderingIsDetermined(parse: Parser, scopes: seq<Scope>, connections: seq<Connection>, r: Rendered)
    requires Renders(parse, scopes, connections, r)
    ensures r == Outcome(parse, scopes, connections)
  {
    var r' := Outcome(parse, scopes, connections);
    OutcomeRenders(parse, scopes, connections);
    if r.Config? {
      forall i | 0 <= i < |connections| ensures r.ethernets[i] == r'.ethernets[i] {
        assert ConfiguredFromLastOwner(parse, scopes, connections[i], r.ethernets[i]);
        assert ConfiguredFromLastOwner(parse, scopes, connections[i], r'.ethernets[i]);
        LastOwnerIsOne(parse, scopes, connections[i], r.ethernets[i], r'.ethernets[i]);
      }
    }
  }

  lemma LastOwnerIsOne(parse: Parser, scopes: seq<Scope>, c: Connection, e: Ethernet, e': Ethernet)
    requires ConfiguredFromLastOwner(parse, scopes, c, e) && ConfiguredFromLastOwner(parse, scopes, c, e')
    ensures e == e'
  {
    var a := parse(c.address).value;
    var j :| LastOwner(parse, scopes, a, j) && e.scope == Some(scopes[j]);
    var j' :| LastOwner(parse, scopes, a, j') && e'.scope == Some(scopes[j']);
    assert j == j';
  }

  /** A parser that tells texts apart by their length only. */
  function ByLength(text: string): Option<Addr> { Some(Addr(32, |text|, "")) }

  /** Two scopes with the same range and different gateways: the order decides which gateway an address in it gets. */
  lemma SomeOrderMatters(first: Scope, second: Scope, c: Connection, text: string)
    requires first != second && first.ranges == second.ranges == Some([Range(text, text)]) && |c.address| == |text|
    ensures !OrderIrrelevant(ByLength, [first, second], [c])
  {
    var scopes := [first, second];
    var a := ByLength(c.address).value;
    assert Contains(ByLength, first.ranges.value[0], a);
    assert Owns(ByLength, scopes[0], a) && Owns(ByLength, scopes[1], a);
    assert Owned(ByLength, scopes, [c][0]) && !OneOwner(ByLength, scopes, [c][0]);
    OrderIrrelevantExactly(ByLength, scopes, [c]);
  }

  // ----- what rendering needs, spelled out -----

  /** Some range of the scope holds the address. */
  predicate Holds(parse: Parser, s: Scope, a: Addr) {
    s.ranges.Some? && exists k | 0 <= k < |s.ranges.value| ::
      var r := s.ranges.value[k];
      && parse(r.start).Some? && parse(r.end).Some?
      && Compare(parse(r.start).value, a) <= 0 && Compare(a, parse(r.end).value) <= 0
  }

  lemma HoldsIsOwns(parse: Parser, s: Scope, a: Addr)
    ensures Holds(parse, s, a) <==> Owns(parse, s, a)
  {
    if s.ranges.Some? {
      forall k | 0 <= k < |s.ranges.value| && RangeParses(parse, s.ranges.value[k])
        ensures var r := s.ranges.value[k];
                Contains(parse, r, a) <==> Compare(parse(r.start).value, a) <= 0 && Compare(a, parse(r.end).value) <= 0
      {
        var r := s.ranges.value[k];
        AddressesAreOrdered(parse(r.start).value, a, a);
        AddressesAreOrdered(a, parse(r.end).value, a);
      }
    }
  }

  /**
    A configuration comes out exactly when there are no connections, or every address and every end of every range
    parses and some range of some scope holds each address.
  */
  lemma RendersExactlyWhen(parse: Parser, scopes: seq<Scope>, connections: seq<Connection>)
    ensures Outcome(parse, scopes, connections).Config? <==>
              || connections == []
              || (&& (forall j, k | 0 <= j < |scopes| && scopes[j].ranges.Some? && 0 <= k < |scopes[j].ranges.value| ::
                        && parse(scopes[j].ranges.value[k].start).Some?
                        && parse(scopes[j].ranges.value[k].end).Some?)
                  && (forall i | 0 <= i < |connections| ::
                        && parse(connections[i].address).Some?
                        && exists j | 0 <= j < |scopes| ::
                             Holds(parse, scopes[j], parse(connections[i].address).value)))
  {
    forall j, a | 0 <= j < |scopes| ensures Holds(parse, scopes[j], a) <==> Owns(parse, scopes[j], a) {
      HoldsIsOwns(parse, scopes[j], a);
    }
    forall j | 0 <= j < |scopes|
      ensures ScopeParses(parse, scopes[j]) <==>
                (scopes[j].ranges.Some? ==>
                   forall k | 0 <= k < |scopes[j].ranges.value| ::
                     && parse(scopes[j].ranges.value[k].start).Some?
                     && parse(scopes[j].ranges.value[k].end).Some?)
    {
      if scopes[j].ranges.Some? {
        assert forall k | 0 <= k < |scopes[j].ranges.value| ::
            RangeParses(parse, scopes[j].ranges.value[k]) <==>
              && parse(scopes[j].ranges.value[k].start).Some?
              && parse(scopes[j].ranges.value[k].end).Some?;
      }
    }
  }

  /** A scope without ranges is passed over, wherever it stands. */
  lemma ScopesWithoutRangesAreSkipped(parse: Parser, before: seq<Scope>, s: Scope, after: seq<Scope>,
                                      connections: seq<Connection>)
    requires s.ranges.None?
    ensures Outcome(parse, before + [s] + after, connections) == Outcome(parse, before + after, connections)
  {
    var more, less := before + [s] + after, before + after;
    SkippedParses(parse, before, s, after, connections);
    forall a ensures Choice(parse, more, a) == Choice(parse, less, a) { SkippedChoice(parse, before, s, after, a); }
    forall c: Connection | parse(c.address).Some? ensures Owned(parse, more, c) <==> Owned(parse, less, c) {
      ChoiceIsLastOwner(parse, more, parse(c.address).value);
      ChoiceIsLastOwner(parse, less, parse(c.address).value);
    }
  }

  lemma SkippedParses(parse: Parser, before: seq<Scope>, s: Scope, after: seq<Scope>, connections: seq<Connection>)
    requires s.ranges.None?
    ensures AllParse(parse, before + [s] + after, connections) <==> AllParse(parse, before + after, connections)
  {
    var more, less := before + [s] + after, before + after;
    assert forall j | 0 <= j < |less| :: less[j] == more[if j < |before| then j else j + 1];
    assert forall j | 0 <= j < |more| && j != |before| :: more[j] == less[if j < |before| then j else j - 1];
  }

  lemma {:induction false} SkippedChoice(parse: Parser, before: seq<Scope>, s: Scope, after: seq<Scope>, a: Addr)
    requires s.ranges.None?
    ensures Choice(parse, before + [s] + after, a) == Choice(parse, before + after, a)
    decreases |after|
  {
    var more, less := before + [s] + after, before + after;
    if after == [] {
      assert more[..|more| - 1] == before == less;
    } else {
      var rest := after[..|after| - 1];
      assert more[..|more| - 1] == before + [s] + rest && less[..|less| - 1] == before + rest;
      SkippedChoice(parse, before, s, rest, a);
    }
  }
}
