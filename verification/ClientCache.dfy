/**
  The cache of logged-in clients.

  The mutex makes lookup, login and insertion of one call a single step, so an interleaving of callers is a
  sequence of calls. Times are nanoseconds; what the clock, the login and the eviction policy say is part of the call.
*/
module ClientCache {
  import opened Options
  import opened Fnv

  // ----- credentials and their key -----

  datatype Creds = Creds(endpoint: seq<Byte>, token: seq<Byte>, organization: seq<Byte>)

  function Flat(c: Creds): seq<Byte> { c.endpoint + c.token + c.organization }

  function Key(c: Creds): Word { Hash(OFFSET, Flat(c)) }

  method KeyOf(c: Creds) returns (sum: Word)
    ensures sum == Key(c)
    ensures sum == Hash(2166136261, c.endpoint + c.token + c.organization)
  {
    var hash := new Hash32();
    hash.Write(c.endpoint);
    hash.Write(c.token);
    hash.Write(c.organization);
    sum := hash.sum;
    HashConcat(OFFSET, c.endpoint, c.token);
    HashConcat(OFFSET, c.endpoint + c.token, c.organization);
  }

  /** The two differ in exactly one byte, at position `i` of the concatenation. */
  predicate OneByteApart(a: seq<Byte>, b: seq<Byte>, i: nat) {
    |a| == |b| && i < |a| && a[i] != b[i] && a[..i] == b[..i] && a[i + 1..] == b[i + 1..]
  }

  lemma OneByteChangesTheKey(c: Creds, c': Creds, i: nat)
    requires OneByteApart(Flat(c), Flat(c'), i)
    ensures Key(c) != Key(c')
  {
    var a, b := Flat(c), Flat(c');
    assert a == a[..i] + [a[i]] + a[i + 1..];
    assert b == a[..i] + [b[i]] + a[i + 1..];
    OneByteMatters(OFFSET, a[..i], a[i], b[i], a[i + 1..]);
  }

  predicate CollisionFree(used: set<Creds>) {
    forall c, c' | c in used && c' in used && Key(c) == Key(c') :: c == c'
  }

  /** The fields are hashed without separators, so moving bytes across a boundary keeps the key. */
  lemma SomeCredentialsCollide()
    ensures !CollisionFree({Creds([97], [98], []), Creds([97, 98], [], [])})
  {
    var c, c' := Creds([97], [98], []), Creds([97, 98], [], []);
    assert Flat(c) == [97, 98] == Flat(c');
    assert c in {c, c'} && c' in {c, c'} && c != c';
  }

  // ----- reading the secret -----

  type Secret = map<string, seq<Byte>>

  /** A secret that cannot be read or whose URL does not parse is an error; a missing key gives no client. */
  datatype Request = Failed | NoClient | Use(creds: Creds)

  function ReadSecret(secret: Option<Secret>, urlParses: seq<Byte> -> bool): Request {
    if secret.None? then Failed
    else if "url" !in secret.value then NoClient
    else if !urlParses(secret.value["url"]) then Failed
    else if "apiToken" !in secret.value then NoClient
    else if "organization" !in secret.value then NoClient
    else Use(Creds(secret.value["url"], secret.value["apiToken"], secret.value["organization"]))
  }

  /** Which answer each secret leads to, by the keys it holds. */
  lemma SecretDecides(secret: Option<Secret>, urlParses: seq<Byte> -> bool)
    ensures var r := ReadSecret(secret, urlParses);
            && (r.Failed? <==> secret.None? || ("url" in secret.value && !urlParses(secret.value["url"])))
            && (r.NoClient? <==>
                  && secret.Some?
                  && (|| "url" !in secret.value
                      || (&& urlParses(secret.value["url"])
                          && ("apiToken" !in secret.value || "organization" !in secret.value))))
            && (r.Use? ==>
                  && r.creds.endpoint == secret.value["url"]
                  && r.creds.token == secret.value["apiToken"]
                  && r.creds.organization == secret.value["organization"])
  {
  }

  // ----- tokens and times -----

  const SECOND := 1_000_000_000

  /** The range of the source's durations: 64-bit signed nanoseconds. */
  const LONGEST := 0x7FFF_FFFF_FFFF_FFFF

  function Truncated(x: real): int {
    if x >= 0.0 then x.Floor else -((-x).Floor)
  }

  /** The instant of the token's `exp` claim, section 4.1.4 of RFC 7519, in whole seconds. */
  function Expiration(exp: real): int { Truncated(exp) * SECOND }

  /** A difference of instants, saturating at the ends of the range. */
  function RemainingTtl(exp: real, now: int): int {
    var d := Expiration(exp) - now;
    if d > LONGEST then LONGEST else if d < -LONGEST - 1 then -LONGEST - 1 else d
  }

  /** A number of seconds is cut towards zero. */
  lemma CutTowardsZero(x: real, n: int)
    ensures 0 <= n && n as real <= x < n as real + 1.0 ==> Truncated(x) == n
    ensures n <= 0 && n as real - 1.0 < x <= n as real ==> Truncated(x) == n
  {
  }

  /**
    When a token whose `exp` is `n` whole seconds and a fraction expires for an entry, in nanoseconds; a remaining
    lifetime that does not fit 64 bits is cut at the end of their range.
  */
  lemma EntryExpiresAt(call: Call, n: nat)
    requires call.login.Granted? && n as real <= call.login.exp < n as real + 1.0
    ensures var left := n * 1_000_000_000 - call.readAt;
            EntryOf(call).expires == call.addAt + if left > 9223372036854775807 then 9223372036854775807
                                                  else if left < -9223372036854775808 then -9223372036854775808
                                                  else left
  {
    CutTowardsZero(call.login.exp, n);
  }

  // ----- the cache -----

  /** What a login brings: an error, a token without a usable `exp` claim, or one with it. */
  datatype Login = Refused | NoExpiry | Granted(exp: real)

  /** A client holds the credentials it was made from and the token it was granted. */
  datatype Client = Client(creds: Creds, exp: real)

  datatype Entry = Entry(client: Client, expires: int)

  type Cache = map<Word, Entry>

  datatype Call = Call(creds: Creds, now: int, login: Login, readAt: int, addAt: int, evicted: set<Word>) {
    ghost predicate Ordered() { now <= readAt <= addAt }
  }

  datatype Answer = Hit(client: Client) | New(client: Client) | Error

  predicate Live(cache: Cache, key: Word, now: int) {
    key in cache && now <= cache[key].expires
  }

  function Answered(cache: Cache, call: Call): Answer {
    if Live(cache, Key(call.creds), call.now) then Hit(cache[Key(call.creds)].client)
    else if call.login.Granted? then New(Client(call.creds, call.login.exp))
    else Error
  }

  function Next(cache: Cache, call: Call): Cache {
    var key := Key(call.creds);
    if Live(cache, key, call.now) then cache
    else if call.login.Granted? then
      (cache - {key} - call.evicted)[key := Entry(Client(call.creds, call.login.exp),
                                                  call.addAt + RemainingTtl(call.login.exp, call.readAt))]
    else cache - {key}
  }

  class Provider {
    var entries: Cache

    constructor ()
      ensures entries == map[]
    {
      entries := map[];
    }

    /** An expired entry is removed when it is met. */
    method Get(key: Word, now: int) returns (client: Option<Client>)
      modifies this
      ensures client == (if Live(old(entries), key, now) then Some(old(entries)[key].client) else None)
      ensures entries == if Live(old(entries), key, now) then old(entries) else old(entries) - {key}
    {
      if key !in entries {
        assert entries == entries - {key};
        return None;
      }
      if now > entries[key].expires {
        entries := entries - {key};
        return None;
      }
      client := Some(entries[key].client);
    }

    method Add(key: Word, client: Client, ttl: int, now: int, evicted: set<Word>)
      modifies this
      ensures forall t :: Live(entries, key, t) <==> t <= now + ttl
      ensures key in entries && entries[key].client == client
      ensures forall other | other != key :: other in entries <==> other in old(entries) && other !in evicted
      ensures forall other | other != key && other in entries :: entries[other] == old(entries)[other]
    {
      entries := entries - evicted;
      entries := entries[key := Entry(client, now + ttl)];
    }

    /** `None` is the nil client of a secret that lacks a key. */
    method GetVCDClient(secret: Option<Secret>, urlParses: seq<Byte> -> bool, now: int, login: Login,
                        readAt: int, addAt: int, evicted: set<Word>)
      returns (answer: Option<Answer>)
      modifies this
      ensures ReadSecret(secret, urlParses).Failed? ==> answer == Some(Error) && entries == old(entries)
      ensures ReadSecret(secret, urlParses).NoClient? ==> answer == None && entries == old(entries)
      ensures ReadSecret(secret, urlParses).Use? ==>
                var call := Call(ReadSecret(secret, urlParses).creds, now, login, readAt, addAt, evicted);
                answer == Some(Answered(old(entries), call)) && entries == Next(old(entries), call)
    {
      if secret.None? { return Some(Error); }
      if "url" !in secret.value { return None; }
      if !urlParses(secret.value["url"]) { return Some(Error); }
      if "apiToken" !in secret.value { return None; }
      if "organization" !in secret.value { return None; }
      var creds := Creds(secret.value["url"], secret.value["apiToken"], secret.value["organization"]);
      var sum := KeyOf(creds);
      var found := Get(sum, now);
      if found.Some? { return Some(Hit(found.value)); }
      if login.Refused? { return Some(Error); }
      if login.NoExpiry? { return Some(Error); }
      var client := Client(creds, login.exp);
      var ttl := RemainingTtl(login.exp, readAt);
      ghost var before := entries;
      Add(sum, client, ttl, addAt, evicted);
      assert Live(entries, sum, addAt + ttl) && !Live(entries, sum, addAt + ttl + 1);
      assert entries == (before - evicted)[sum := Entry(client, addAt + ttl)];
      answer := Some(New(client));
    }
  }

  // ----- all runs -----

  /** The cache after a sequence of calls. */
  function After(calls: seq<Call>): Cache {
    if calls == [] then map[] else Next(After(calls[..|calls| - 1]), calls[|calls| - 1])
  }

  function AnswerTo(calls: seq<Call>, j: nat): Answer
    requires j < |calls|
  {
    Answered(After(calls[..j]), calls[j])
  }

  lemma AfterOneMore(calls: seq<Call>, j: nat)
    requires j < |calls|
    ensures After(calls[..j + 1]) == Next(After(calls[..j]), calls[j])
  {
    assert calls[..j + 1][..j] == calls[..j];
  }

  /** Call `i` of the run put this entry in the cache. */
  ghost predicate AddedBy(calls: seq<Call>, i: nat, key: Word, e: Entry) {
    && i < |calls|
    && AnswerTo(calls, i) == New(e.client)
    && key == Key(calls[i].creds)
    && calls[i].login == Granted(e.client.exp)
    && e.client.creds == calls[i].creds
    && e.expires == calls[i].addAt + RemainingTtl(e.client.exp, calls[i].readAt)
  }

  /** Every entry was put there by an earlier call with the same key. */
  lemma {:induction false} EntryHasOrigin(calls: seq<Call>, j: nat, key: Word) returns (i: nat)
    requires j <= |calls| && key in After(calls[..j])
    ensures i < j && AddedBy(calls, i, key, After(calls[..j])[key])
    decreases j
  {
    assert calls[..0] == [];
    AfterOneMore(calls, j - 1);
    var before := After(calls[..j - 1]);
    if key in before && After(calls[..j])[key] == before[key] {
      i := EntryHasOrigin(calls, j - 1, key);
    } else {
      i := j - 1;
    }
  }

  ghost predicate Uses(calls: seq<Call>, used: set<Creds>) {
    forall j | 0 <= j < |calls| :: calls[j].creds in used
  }

  /** Nobody is handed a client made from someone else's credentials. */
  ghost predicate OwnClients(calls: seq<Call>) {
    forall j | 0 <= j < |calls| :: AnswerTo(calls, j).Error? || AnswerTo(calls, j).client.creds == calls[j].creds
  }

  lemma CollisionFreeGivesOwnClients(used: set<Creds>, calls: seq<Call>)
    requires CollisionFree(used) && Uses(calls, used)
    ensures OwnClients(calls)
  {
    forall j | 0 <= j < |calls|
      ensures AnswerTo(calls, j).Error? || AnswerTo(calls, j).client.creds == calls[j].creds
    {
      if AnswerTo(calls, j).Hit? {
        var i := EntryHasOrigin(calls, j, Key(calls[j].creds));
      }
    }
  }

  /** Two callers whose credentials collide: the second is handed the first one's client. */
  function Mixup(c: Creds, c': Creds): seq<Call> {
    [Call(c, 0, Granted(1.0), 0, 0, {}), Call(c', 0, Granted(1.0), 0, 0, {})]
  }

  lemma CollisionMixesClients(c: Creds, c': Creds)
    requires Key(c) == Key(c') && c != c'
    ensures !OwnClients(Mixup(c, c'))
  {
    var calls := Mixup(c, c');
    assert calls[..0] == [];
    AfterOneMore(calls, 0);
    assert Next(map[], calls[0]) == map[Key(c) := Entry(Client(c, 1.0), SECOND)];
    assert AnswerTo(calls, 1) == Hit(Client(c, 1.0));
    assert calls[1].creds == c';
  }

  /** Every caller gets a client of its own in every run, exactly when no two credentials in use share a key. */
  lemma OwnClientsExactly(used: set<Creds>)
    ensures CollisionFree(used) <==> forall calls | Uses(calls, used) :: OwnClients(calls)
  {
    if CollisionFree(used) {
      forall calls | Uses(calls, used) ensures OwnClients(calls) { CollisionFreeGivesOwnClients(used, calls); }
    } else {
      var c, c' :| c in used && c' in used && Key(c) == Key(c') && c != c';
      CollisionMixesClients(c, c');
      assert Uses(Mixup(c, c'), used);
    }
  }

  /** The clock read by successive calls, and within each of them, does not run backwards. */
  ghost predicate Clocked(calls: seq<Call>) {
    && (forall j | 0 <= j < |calls| :: calls[j].Ordered())
    && (forall i, j | 0 <= i < j < |calls| :: calls[i].addAt <= calls[j].now)
  }

  /**
    A client is handed out again only while its token is valid, up to the time its own login spent between reading
    the clock for the remaining lifetime and adding the entry.
  */
  lemma HitsAreInDate(calls: seq<Call>, j: nat) returns (i: nat)
    requires Clocked(calls) && j < |calls| && AnswerTo(calls, j).Hit?
    ensures i < j && AnswerTo(calls, i) == New(AnswerTo(calls, j).client)
    ensures calls[j].now <= Expiration(AnswerTo(calls, j).client.exp) + (calls[i].addAt - calls[i].readAt)
    ensures AnswerTo(calls, j).client.exp >= 0.0 ==>
              calls[j].now as real
              <= AnswerTo(calls, j).client.exp * 1_000_000_000.0 + (calls[i].addAt - calls[i].readAt) as real
  {
    i := EntryHasOrigin(calls, j, Key(calls[j].creds));
    assert calls[i].addAt <= calls[j].now;
    var exp := AnswerTo(calls, j).client.exp;
    assert exp >= 0.0 ==> exp.Floor as real <= exp;
  }

  lemma LiveEntrySurvives(cache: Cache, call: Call, key: Word)
    requires Live(cache, key, call.now) && key !in call.evicted
    ensures key in Next(cache, call) && Next(cache, call)[key] == cache[key]
  {
  }

  function EntryOf(call: Call): Entry
    requires call.login.Granted?
  {
    Entry(Client(call.creds, call.login.exp), call.addAt + RemainingTtl(call.login.exp, call.readAt))
  }

  lemma NewEntryIsAdded(cache: Cache, call: Call)
    requires Answered(cache, call).New?
    ensures Key(call.creds) in Next(cache, call) && Next(cache, call)[Key(call.creds)] == EntryOf(call)
  {
  }

  /** Until it expires, unless it is evicted, an entry stays as it was added. */
  lemma {:induction false} EntryStays(calls: seq<Call>, i: nat, j: nat)
    requires Clocked(calls) && i < j < |calls| && AnswerTo(calls, i).New?
    requires forall k | i < k < j :: Key(calls[i].creds) !in calls[k].evicted
    requires calls[j].now <= EntryOf(calls[i]).expires
    ensures Key(calls[i].creds) in After(calls[..j]) && After(calls[..j])[Key(calls[i].creds)] == EntryOf(calls[i])
    decreases j
  {
    AfterOneMore(calls, j - 1);
    if i == j - 1 {
      NewEntryIsAdded(After(calls[..i]), calls[i]);
    } else {
      assert calls[j - 1].Ordered() && calls[j - 1].addAt <= calls[j].now;
      EntryStays(calls, i, j - 1);
      LiveEntrySurvives(After(calls[..j - 1]), calls[j - 1], Key(calls[i].creds));
    }
  }

  /** Until the entry expires, unless it is evicted, every call with the same key is answered with the same client. */
  lemma LoginIsReused(calls: seq<Call>, i: nat, j: nat)
    requires Clocked(calls) && i < j < |calls| && AnswerTo(calls, i).New?
    requires forall k | i < k < j :: Key(calls[i].creds) !in calls[k].evicted
    requires calls[j].now <= EntryOf(calls[i]).expires
    requires Key(calls[j].creds) == Key(calls[i].creds)
    ensures AnswerTo(calls, j) == Hit(AnswerTo(calls, i).client)
  {
    EntryStays(calls, i, j);
  }

  /**
    A call right after a login is answered with its client exactly up to the token's expiry, moved by the time between
    reading the clock and adding the entry.
  */
  lemma NextCallHitsExactly(calls: seq<Call>, i: nat, n: nat)
    requires Clocked(calls) && i + 1 < |calls| && AnswerTo(calls, i).New? && calls[i + 1].creds == calls[i].creds
    requires n as real <= calls[i].login.exp < n as real + 1.0
    requires -9223372036854775808 <= n * 1_000_000_000 - calls[i].readAt <= 9223372036854775807
    ensures AnswerTo(calls, i + 1).Hit? <==>
              calls[i + 1].now <= n * 1_000_000_000 + calls[i].addAt - calls[i].readAt
  {
    EntryExpiresAt(calls[i], n);
    AfterOneMore(calls, i);
    NewEntryIsAdded(After(calls[..i]), calls[i]);
  }

  /** And so is every later call with the key up to then, unless the entry is evicted. */
  lemma LoginIsReusedUntilExp(calls: seq<Call>, i: nat, j: nat, n: nat)
    requires Clocked(calls) && i < j < |calls| && AnswerTo(calls, i).New?
    requires forall k | i < k < j :: Key(calls[i].creds) !in calls[k].evicted
    requires n as real <= calls[i].login.exp < n as real + 1.0
    requires -9223372036854775808 <= n * 1_000_000_000 - calls[i].readAt <= 9223372036854775807
    requires calls[j].now <= n * 1_000_000_000 + calls[i].addAt - calls[i].readAt
    requires Key(calls[j].creds) == Key(calls[i].creds)
    ensures AnswerTo(calls, j) == Hit(AnswerTo(calls, i).client)
  {
    EntryExpiresAt(calls[i], n);
    LoginIsReused(calls, i, j);
  }
}
