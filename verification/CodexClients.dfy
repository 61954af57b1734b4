/** The cache of HTTP clients: at most 64, least recently used out first, and a
    new transport snapshot of an account pushes its old clients out
    (src/codex_clients.rs:11-21, 199-257). */
module CodexClients {
  import opened Json

  datatype ClientKey = ClientKey(
    control: bool, settingsRevision: nat, account: int, revision: int, selectionGeneration: int,
    proxyFingerprint: int, timeouts: (nat, nat, nat), protocol: int)

  /** A cached client, named by its instance id. */
  type Entry = (ClientKey, nat)

  const CAPACITY := 64

  /** One `client_snapshot` call: the key (with the settings revision of the
      moment), whether building a client would succeed, and the id it would get. */
  datatype Call = Call(key: ClientKey, builds: bool, instance: nat)

  datatype Answer = Unavailable | Snapshot(instance: nat, hit: bool)

  function IndexOf(q: seq<Entry>, key: ClientKey): (i: nat)
    ensures i <= |q|
    ensures i < |q| ==> q[i].0 == key
    ensures forall j | 0 <= j < i :: q[j].0 != key
  {
    if q == [] || q[0].0 == key then 0 else 1 + IndexOf(q[1..], key)
  }

  predicate SameSlot(a: ClientKey, b: ClientKey)
  {
    a.account == b.account && a.control == b.control
  }

  predicate SameTransport(a: ClientKey, b: ClientKey)
  {
    a.settingsRevision == b.settingsRevision && a.revision == b.revision
    && a.protocol == b.protocol && a.timeouts == b.timeouts
  }

  predicate Stale(cached: ClientKey, key: ClientKey)
  {
    SameSlot(cached, key) && !SameTransport(cached, key)
  }

  /** `clients.retain(…)`. */
  function Retain(q: seq<Entry>, key: ClientKey): seq<Entry>
  {
    if q == [] then []
    else (if Stale(q[0].0, key) then [] else [q[0]]) + Retain(q[1..], key)
  }

  function Access(q: seq<Entry>, call: Call): (seq<Entry>, Answer)
  {
    var p := IndexOf(q, call.key);
    if p < |q| then (q[..p] + q[p + 1..] + [q[p]], Snapshot(q[p].1, true))
    else if !call.builds then (q, Unavailable)
    else
      var kept := Retain(q, call.key);
      var room := if |kept| >= CAPACITY then kept[1..] else kept;
      (room + [(call.key, call.instance)], Snapshot(call.instance, false))
  }

  class Clients {
    var clients: seq<Entry>

    constructor ()
      ensures clients == []
    {
      clients := [];
    }

    /** `client_snapshot`, with the queue held under its lock. */
    method ClientSnapshot(given: ClientKey, settingsRevision: nat, builds: bool, instance: nat) returns (answer: Answer)
      modifies this
      ensures var call := Call(given.(settingsRevision := settingsRevision), builds, instance);
              clients == Access(old(clients), call).0 && answer == Access(old(clients), call).1
    {
      var key := given.(settingsRevision := settingsRevision);
      var position := 0;
      while position < |clients| && clients[position].0 != key
        invariant 0 <= position <= |clients| && clients == old(clients)
        invariant forall j | 0 <= j < position :: clients[j].0 != key
      {
        position := position + 1;
      }
      if position < |clients| {
        var entry := clients[position];
        clients := clients[..position] + clients[position + 1..];
        clients := clients + [entry];
        return Snapshot(entry.1, true);
      }
      if !builds { return Unavailable; }
      var kept: seq<Entry> := [];
      for i := 0 to |clients|
        invariant clients == old(clients)
        invariant kept + Retain(clients[i..], key) == Retain(clients, key)
      {
        assert clients[i..][0] == clients[i] && clients[i..][1..] == clients[i + 1..];
        if !Stale(clients[i].0, key) { kept := kept + [clients[i]]; }
      }
      clients := kept;
      if |clients| >= CAPACITY { clients := clients[1..]; }
      clients := clients + [(key, instance)];
      answer := Snapshot(instance, false);
    }
  }

  // ---------------------------------------------------------------- invariant

  ghost predicate DistinctKeys(q: seq<Entry>)
  {
    forall i, j | 0 <= i < j < |q| :: q[i].0 != q[j].0
  }

  /** Another transport for one account and kind: other settings, credentials, protocol or
      timeouts. */
  predicate Outdated(a: ClientKey, b: ClientKey)
  {
    && a.account == b.account && a.control == b.control
    && (a.settingsRevision != b.settingsRevision || a.revision != b.revision || a.protocol != b.protocol
        || a.timeouts != b.timeouts)
  }

  lemma {:induction false} StaleIsOutdated(a: ClientKey, b: ClientKey)
    ensures Stale(a, b) <==> Outdated(a, b)
  {
  }

  /** Within capacity, one entry a key, one transport for one account and kind. */
  ghost predicate Valid(q: seq<Entry>)
  {
    && |q| <= CAPACITY
    && DistinctKeys(q)
    && forall i, j | 0 <= i < |q| && 0 <= j < |q| :: !Outdated(q[i].0, q[j].0)
  }

  /** What `retain` keeps is the part that is not stale, in order. */
  lemma {:induction false} RetainFacts(q: seq<Entry>, key: ClientKey)
    ensures var r := Retain(q, key);
            && |r| <= |q|
            && (forall x :: x in r <==> x in q && !Stale(x.0, key))
            && (DistinctKeys(q) ==> DistinctKeys(r))
  {
    if q != [] {
      RetainFacts(q[1..], key);
      var rest := Retain(q[1..], key);
      assert q == [q[0]] + q[1..];
      if DistinctKeys(q) {
        assert DistinctKeys(q[1..]);
        forall j | 0 <= j < |rest| ensures rest[j].0 != q[0].0 {
          assert rest[j] in rest;
          assert rest[j] in q[1..];
        }
      }
    }
  }

  lemma {:induction false} AccessElements(q: seq<Entry>, call: Call)
    requires DistinctKeys(q)
    ensures var r := Access(q, call).0;
            && DistinctKeys(r)
            && (Access(q, call).1.Snapshot? ==> r != [] && r[|r| - 1] == (call.key, Access(q, call).1.instance))
            && (forall x | x in r :: x in q || x == (call.key, call.instance))
  {
    var p := IndexOf(q, call.key);
    var r := Access(q, call).0;
    if p < |q| {
      assert forall i | 0 <= i < |r| :: r[i] == (if i < p then q[i] else if i < |q| - 1 then q[i + 1] else q[p]);
    } else if call.builds {
      RetainFacts(q, call.key);
      forall x | x in Retain(q, call.key) ensures x.0 != call.key {
        assert x in q;
      }
    }
  }

  lemma {:induction false} AccessKeepsValid(q: seq<Entry>, call: Call)
    requires Valid(q)
    ensures Valid(Access(q, call).0)
  {
    AccessElements(q, call);
    var p := IndexOf(q, call.key);
    var r := Access(q, call).0;
    if p == |q| && call.builds {
      RetainFacts(q, call.key);
      forall i, j | 0 <= i < |r| && 0 <= j < |r| ensures !Outdated(r[i].0, r[j].0)
      {
        var n := |r| - 1;
        assert i < n ==> r[i] in Retain(q, call.key);
        assert j < n ==> r[j] in Retain(q, call.key);
        assert i < n ==> r[i] in q;
        assert j < n ==> r[j] in q;
      }
    } else if p < |q| {
      forall i | 0 <= i < |r| ensures r[i] in q {}
    }
  }

  // --------------------------------------------------------------- whole runs

  function Run(q: seq<Entry>, calls: seq<Call>): seq<Entry>
    decreases |calls|
  {
    if calls == [] then q else Run(Access(q, calls[0]).0, calls[1..])
  }

  /** The keys of the calls that were answered, in order. */
  function Uses(q: seq<Entry>, calls: seq<Call>): seq<ClientKey>
    decreases |calls|
  {
    if calls == [] then []
    else (if Access(q, calls[0]).1.Snapshot? then [calls[0].key] else []) + Uses(Access(q, calls[0]).0, calls[1..])
  }

  function LastUse(uses: seq<ClientKey>, key: ClientKey): int
  {
    if uses == [] then -1
    else if uses[|uses| - 1] == key then |uses| - 1
    else LastUse(uses[..|uses| - 1], key)
  }

  /** The queue holds used keys, least recently used first. */
  ghost predicate Recency(q: seq<Entry>, uses: seq<ClientKey>)
  {
    && (forall i | 0 <= i < |q| :: LastUse(uses, q[i].0) >= 0)
    && (forall i, j | 0 <= i < j < |q| :: LastUse(uses, q[i].0) < LastUse(uses, q[j].0))
  }

  lemma {:induction false} UseAppended(uses: seq<ClientKey>, key: ClientKey, other: ClientKey)
    ensures LastUse(uses + [key], other) == if other == key then |uses| else LastUse(uses, other)
    ensures LastUse(uses, other) < |uses|
  {
    assert (uses + [key])[..|uses|] == uses;
    LastUseBound(uses, other);
  }

  lemma {:induction false} LastUseBound(uses: seq<ClientKey>, key: ClientKey)
    ensures LastUse(uses, key) < |uses|
  {
    if uses != [] { LastUseBound(uses[..|uses| - 1], key); }
  }

  lemma {:induction false} RetainOrdered(q: seq<Entry>, key: ClientKey, uses: seq<ClientKey>)
    requires Recency(q, uses)
    ensures Recency(Retain(q, key), uses)
  {
    if q != [] {
      RetainOrdered(q[1..], key, uses);
      RetainFacts(q[1..], key);
      var rest := Retain(q[1..], key);
      forall j | 0 <= j < |rest| ensures LastUse(uses, q[0].0) < LastUse(uses, rest[j].0) {
        assert rest[j] in rest;
        var i :| 0 <= i < |q[1..]| && q[1..][i] == rest[j];
        assert q[i + 1] == rest[j];
      }
    }
  }

  lemma {:induction false} UsesAppended(uses: seq<ClientKey>, key: ClientKey)
    ensures forall k :: LastUse(uses + [key], k) == (if k == key then |uses| else LastUse(uses, k))
                        && LastUse(uses, k) < |uses|
  {
    forall k
      ensures LastUse(uses + [key], k) == (if k == key then |uses| else LastUse(uses, k)) && LastUse(uses, k) < |uses|
    {
      UseAppended(uses, key, k);
    }
  }

  lemma {:induction false} RemovedKeepsRecency(q: seq<Entry>, p: nat, uses: seq<ClientKey>)
    requires p < |q| && DistinctKeys(q) && Recency(q, uses)
    ensures Recency(q[..p] + q[p + 1..], uses)
    ensures forall x | x in q[..p] + q[p + 1..] :: x.0 != q[p].0
  {
    var r := q[..p] + q[p + 1..];
    assert forall i | 0 <= i < |r| :: r[i] == q[if i < p then i else i + 1];
  }

  lemma {:induction false} AppendedRecency(q: seq<Entry>, entry: Entry, uses: seq<ClientKey>)
    requires Recency(q, uses) && forall x | x in q :: x.0 != entry.0
    ensures Recency(q + [entry], uses + [entry.0])
  {
    UsesAppended(uses, entry.0);
  }

  lemma {:induction false} HitKeepsRecency(q: seq<Entry>, call: Call, uses: seq<ClientKey>)
    requires DistinctKeys(q) && Recency(q, uses) && IndexOf(q, call.key) < |q|
    ensures Recency(Access(q, call).0, uses + [call.key])
  {
    var p := IndexOf(q, call.key);
    RemovedKeepsRecency(q, p, uses);
    AppendedRecency(q[..p] + q[p + 1..], q[p], uses);
  }

  lemma {:induction false} AccessKeepsRecency(q: seq<Entry>, call: Call, uses: seq<ClientKey>)
    requires DistinctKeys(q) && Recency(q, uses)
    ensures Recency(Access(q, call).0, if Access(q, call).1.Snapshot? then uses + [call.key] else uses)
  {
    if IndexOf(q, call.key) < |q| {
      HitKeepsRecency(q, call, uses);
    } else if call.builds {
      AccessElements(q, call);
      UsesAppended(uses, call.key);
      RetainOrdered(q, call.key, uses);
    }
  }

  lemma {:induction false} RunKeeps(q: seq<Entry>, calls: seq<Call>, uses: seq<ClientKey>)
    requires Valid(q) && Recency(q, uses)
    ensures Valid(Run(q, calls)) && Recency(Run(q, calls), uses + Uses(q, calls))
    decreases |calls|
  {
    if calls == [] {
      assert uses + [] == uses;
    } else {
      var c := calls[0];
      var now := if Access(q, c).1.Snapshot? then uses + [c.key] else uses;
      AccessKeepsValid(q, c);
      AccessKeepsRecency(q, c, uses);
      RunKeeps(Access(q, c).0, calls[1..], now);
      assert uses + Uses(q, calls) == now + Uses(Access(q, c).0, calls[1..]);
    }
  }

  /** After any sequence of calls: at most 64 entries, keys distinct, one
      transport per account and kind, and the queue in order of last use. */
  lemma {:induction false} CacheInvariant(calls: seq<Call>)
    ensures Valid(Run([], calls)) && Recency(Run([], calls), Uses([], calls))
  {
    RunKeeps([], calls, []);
    assert [] + Uses([], calls) == Uses([], calls);
  }

  // ------------------------------------------------------------ hit guarantee

  function OtherKeys(calls: seq<Call>, key: ClientKey): set<ClientKey>
  {
    set c | c in calls && c.key != key :: c.key
  }

  lemma {:induction false} KeyCount(q: seq<Entry>, keys: set<ClientKey>)
    requires DistinctKeys(q) && forall x | x in q :: x.0 in keys
    ensures |q| <= |keys|
  {
    if q != [] {
      forall x | x in q[1..] ensures x.0 in keys - {q[0].0} { assert x in q; }
      assert q[0] in q;
      KeyCount(q[1..], keys - {q[0].0});
    }
  }

  /** The entry stands somewhere with only recently used keys behind it. */
  ghost predicate Guarded(q: seq<Entry>, entry: Entry, since: set<ClientKey>)
  {
    exists p :: 0 <= p < |q| && q[p] == entry && forall j | p < j < |q| :: q[j].0 in since
  }

  lemma {:induction false} RetainGuarded(q: seq<Entry>, key: ClientKey, entry: Entry, since: set<ClientKey>)
    requires Guarded(q, entry, since) && !Stale(entry.0, key)
    ensures Guarded(Retain(q, key), entry, since)
  {
    var p :| 0 <= p < |q| && q[p] == entry && forall j | p < j < |q| :: q[j].0 in since;
    var rest := Retain(q[1..], key);
    var r := Retain(q, key);
    if p == 0 {
      RetainFacts(q[1..], key);
      assert r == [q[0]] + rest;
      forall j | 0 < j < |r| ensures r[j].0 in since {
        assert rest[j - 1] in q[1..];
        var i :| 0 <= i < |q[1..]| && q[1..][i] == rest[j - 1];
        assert q[i + 1].0 in since;
      }
      assert r[0] == entry;
    } else {
      assert q[1..][p - 1] == entry && forall j | p - 1 < j < |q[1..]| :: q[1..][j].0 in since;
      RetainGuarded(q[1..], key, entry, since);
      var k :| 0 <= k < |rest| && rest[k] == entry && forall j | k < j < |rest| :: rest[j].0 in since;
      var shift := |r| - |rest|;
      assert r[k + shift] == entry;
      assert forall j | k + shift < j < |r| :: r[j] == rest[j - shift];
    }
  }

  lemma {:induction false} HitGuarded(q: seq<Entry>, call: Call, entry: Entry, since: set<ClientKey>)
    requires DistinctKeys(q) && Guarded(q, entry, since) && call.key != entry.0 && IndexOf(q, call.key) < |q|
    requires entry.0 !in since
    ensures Guarded(Access(q, call).0, entry, since + {call.key} - {entry.0})
  {
    var p := IndexOf(q, call.key);
    var r := Access(q, call).0;
    var k :| 0 <= k < |q| && q[k] == entry && forall j | k < j < |q| :: q[j].0 in since;
    var at := if p < k then k - 1 else k;
    assert forall i | 0 <= i < |r| :: r[i] == (if i < p then q[i] else if i < |q| - 1 then q[i + 1] else q[p]);
    assert r[at] == entry;
    forall j | at < j < |r| ensures r[j].0 in since + {call.key} - {entry.0} {
      assert r[j].0 != entry.0;
    }
  }

  lemma {:induction false} AccessGuarded(q: seq<Entry>, call: Call, entry: Entry, since: set<ClientKey>)
    requires Valid(q) && Guarded(q, entry, since) && !Stale(entry.0, call.key)
    requires |since + {call.key} - {entry.0}| < CAPACITY && entry.0 !in since
    ensures Guarded(Access(q, call).0, entry, since + {call.key} - {entry.0})
  {
    var p := IndexOf(q, call.key);
    if call.key == entry.0 {
      var r := Access(q, call).0;
      var k :| 0 <= k < |q| && q[k] == entry && forall j | k < j < |q| :: q[j].0 in since;
      assert p == k;
      assert r[|r| - 1] == entry;
    } else if p < |q| {
      HitGuarded(q, call, entry, since);
    } else if call.builds {
      InsertGuarded(q, call, entry, since);
    } else {
      var now := since + {call.key} - {entry.0};
      var k :| 0 <= k < |q| && q[k] == entry && forall j | k < j < |q| :: q[j].0 in since;
      forall j | k < j < |q| ensures q[j].0 in now { assert q[j].0 != entry.0; }
    }
  }

  /** The keys behind the entry are all recent and none is the new one. */
  lemma {:induction false} FewBehind(kept: seq<Entry>, k: nat, key: ClientKey, since: set<ClientKey>)
    requires k < |kept| && DistinctKeys(kept)
    requires forall j | k < j < |kept| :: kept[j].0 in since && kept[j].0 != key
    requires |since + {key}| < CAPACITY
    ensures |kept| - k < CAPACITY
  {
    var behind := kept[k + 1..];
    forall x | x in behind ensures x.0 in since - {key} {
      var i :| 0 <= i < |behind| && behind[i] == x;
      assert kept[i + k + 1] == x;
    }
    forall i, j | 0 <= i < j < |behind| ensures behind[i].0 != behind[j].0 {
      assert kept[i + k + 1].0 != kept[j + k + 1].0;
    }
    KeyCount(behind, since - {key});
    assert since + {key} == (since - {key}) + {key};
    assert |since + {key}| == |since - {key}| + 1;
  }

  lemma {:induction false} InsertGuarded(q: seq<Entry>, call: Call, entry: Entry, since: set<ClientKey>)
    requires Valid(q) && Guarded(q, entry, since) && !Stale(entry.0, call.key) && entry.0 !in since
    requires IndexOf(q, call.key) == |q| && call.builds
    requires |since + {call.key}| < CAPACITY
    ensures Guarded(Access(q, call).0, entry, since + {call.key} - {entry.0})
  {
    RetainGuarded(q, call.key, entry, since);
    RetainFacts(q, call.key);
    var kept := Retain(q, call.key);
    var k :| 0 <= k < |kept| && kept[k] == entry && forall j | k < j < |kept| :: kept[j].0 in since;
    forall j | 0 <= j < |kept| ensures kept[j].0 != call.key { assert kept[j] in q; }
    FewBehind(kept, k, call.key, since);
    PlaceGuarded(kept, k, call, entry, since);
  }

  lemma {:induction false} PlaceGuarded(kept: seq<Entry>, k: nat, call: Call, entry: Entry, since: set<ClientKey>)
    requires k < |kept| && kept[k] == entry && |kept| - k < CAPACITY && entry.0 !in since
    requires forall j | k < j < |kept| :: kept[j].0 in since
    requires call.key != entry.0
    ensures Guarded((if |kept| >= CAPACITY then kept[1..] else kept) + [(call.key, call.instance)], entry,
                    since + {call.key} - {entry.0})
  {
    var drop := if |kept| >= CAPACITY then 1 else 0;
    var r := kept[drop..] + [(call.key, call.instance)];
    assert r[k - drop] == entry;
    forall j | k - drop < j < |r| ensures r[j].0 in since + {call.key} - {entry.0} {
      if j < |r| - 1 { assert r[j] == kept[j + drop]; }
    }
  }

  lemma {:induction false} StaysGuarded(q: seq<Entry>, calls: seq<Call>, entry: Entry, since: set<ClientKey>)
    requires Valid(q) && Guarded(q, entry, since) && entry.0 !in since
    requires forall c | c in calls :: !Stale(entry.0, c.key)
    requires |since + OtherKeys(calls, entry.0)| < CAPACITY
    ensures entry in Run(q, calls) && Valid(Run(q, calls))
    decreases |calls|
  {
    if calls != [] {
      var c := calls[0];
      var now := since + {c.key} - {entry.0};
      var all := since + OtherKeys(calls, entry.0);
      assert c in calls;
      assert forall x | x in calls[1..] :: x in calls;
      assert now <= all && now + OtherKeys(calls[1..], entry.0) <= all;
      Subset(now, all);
      Subset(now + OtherKeys(calls[1..], entry.0), all);
      AccessKeepsValid(q, c);
      AccessGuarded(q, c, entry, since);
      StaysGuarded(Access(q, c).0, calls[1..], entry, now);
    }
  }

  lemma {:induction false} Subset(a: set<ClientKey>, b: set<ClientKey>)
    requires a <= b
    ensures |a| <= |b|
  {
    if a != b { assert b == a + (b - a); assert |b| == |a| + |b - a|; }
  }

  /** A client that was just handed out is handed out again, the same instance,
      as long as no call asks for another transport of its account and fewer
      than 64 distinct other keys have been asked for. */
  lemma {:induction false} KeepsHitting(q: seq<Entry>, first: Call, calls: seq<Call>, again: Call)
    requires Valid(q) && Access(q, first).1.Snapshot?
    requires again.key == first.key
    requires forall c | c in calls :: !Stale(first.key, c.key)
    requires |OtherKeys(calls, first.key)| < CAPACITY
    ensures Access(Run(Access(q, first).0, calls), again).1 == Snapshot(Access(q, first).1.instance, true)
  {
    var instance := Access(q, first).1.instance;
    var entry := (first.key, instance);
    var start := Access(q, first).0;
    AccessElements(q, first);
    AccessKeepsValid(q, first);
    assert start[|start| - 1] == entry;
    assert {} + OtherKeys(calls, first.key) == OtherKeys(calls, first.key);
    StaysGuarded(start, calls, entry, {});
    var end := Run(start, calls);
    var i :| 0 <= i < |end| && end[i] == entry;
    assert IndexOf(end, again.key) == i;
  }

  // ------------------------------------------------------------------ eviction

  ghost predicate Behind(q: seq<Entry>, p: nat, k: ClientKey)
  {
    exists j :: p < j < |q| && q[j].0 == k
  }

  /** If the key is still there, all these keys stand behind it. */
  ghost predicate Outlasted(q: seq<Entry>, key: ClientKey, since: set<ClientKey>)
  {
    forall p, k | 0 <= p < |q| && q[p].0 == key && k in since :: Behind(q, p, k)
  }

  lemma {:induction false} PrependOutlasted(x: Entry, rest: seq<Entry>, key: ClientKey, since: set<ClientKey>)
    requires Outlasted(rest, key, since)
    requires x.0 == key ==> forall k | k in since :: exists i :: 0 <= i < |rest| && rest[i].0 == k
    ensures Outlasted([x] + rest, key, since)
  {
    var r := [x] + rest;
    forall p, k | 0 <= p < |r| && r[p].0 == key && k in since ensures Behind(r, p, k) {
      if p == 0 {
        var i :| 0 <= i < |rest| && rest[i].0 == k;
        assert r[i + 1].0 == k;
      } else {
        assert Behind(rest, p - 1, k);
        var i :| p - 1 < i < |rest| && rest[i].0 == k;
        assert r[i + 1].0 == k;
      }
    }
  }

  lemma {:induction false} KeptBehind(q: seq<Entry>, k: ClientKey, pushed: ClientKey)
    requires q != [] && Behind(q, 0, k) && !Stale(k, pushed)
    ensures exists i :: 0 <= i < |Retain(q[1..], pushed)| && Retain(q[1..], pushed)[i].0 == k
  {
    RetainFacts(q[1..], pushed);
    var j :| 0 < j < |q| && q[j].0 == k;
    assert q[1..][j - 1] == q[j] && q[j] in q[1..];
    var rest := Retain(q[1..], pushed);
    assert q[j] in rest;
  }

  lemma {:induction false} RetainOutlasted(q: seq<Entry>, key: ClientKey, since: set<ClientKey>, pushed: ClientKey)
    requires Outlasted(q, key, since) && forall k | k in since :: !Stale(k, pushed)
    ensures Outlasted(Retain(q, pushed), key, since)
  {
    if q != [] {
      DropOutlasted(q, key, since);
      RetainOutlasted(q[1..], key, since, pushed);
      if q[0].0 == key {
        forall k | k in since
          ensures exists i :: 0 <= i < |Retain(q[1..], pushed)| && Retain(q[1..], pushed)[i].0 == k
        {
          assert Behind(q, 0, k);
          KeptBehind(q, k, pushed);
        }
      }
      PrependOutlasted(q[0], Retain(q[1..], pushed), key, since);
      assert [] + Retain(q[1..], pushed) == Retain(q[1..], pushed);
    }
  }

  lemma {:induction false} DropOutlasted(q: seq<Entry>, key: ClientKey, since: set<ClientKey>)
    requires q != [] && Outlasted(q, key, since)
    ensures Outlasted(q[1..], key, since)
  {
    forall p, k | 0 <= p < |q[1..]| && q[1..][p].0 == key && k in since ensures Behind(q[1..], p, k) {
      assert Behind(q, p + 1, k);
      var j :| p + 1 < j < |q| && q[j].0 == k;
      assert q[1..][j - 1].0 == k;
    }
  }

  lemma {:induction false} AppendOutlasted(q: seq<Entry>, entry: Entry, key: ClientKey, since: set<ClientKey>)
    requires Outlasted(q, key, since) && entry.0 != key
    ensures Outlasted(q + [entry], key, since + {entry.0})
  {
    var r := q + [entry];
    forall p, k | 0 <= p < |r| && r[p].0 == key && k in since + {entry.0} ensures Behind(r, p, k) {
      assert r[|q|].0 == entry.0;
      if k in since {
        assert Behind(q, p, k);
        var j :| p < j < |q| && q[j].0 == k;
        assert r[j].0 == k;
      }
    }
  }

  lemma {:induction false} MoveOutlasted(q: seq<Entry>, at: nat, key: ClientKey, since: set<ClientKey>)
    requires at < |q| && DistinctKeys(q) && Outlasted(q, key, since) && q[at].0 != key
    ensures Outlasted(q[..at] + q[at + 1..], key, since - {q[at].0})
  {
    var r := q[..at] + q[at + 1..];
    forall p, k | 0 <= p < |r| && r[p].0 == key && k in since - {q[at].0} ensures Behind(r, p, k) {
      var was := if p < at then p else p + 1;
      assert q[was] == r[p] && Behind(q, was, k);
      var j :| was < j < |q| && q[j].0 == k;
      assert r[if j < at then j else j - 1].0 == k;
    }
  }

  lemma {:induction false} AccessOutlasted(q: seq<Entry>, call: Call, key: ClientKey, since: set<ClientKey>)
    requires DistinctKeys(q) && Outlasted(q, key, since) && call.key != key && call.builds
    requires forall k | k in since :: !Stale(k, call.key)
    ensures Outlasted(Access(q, call).0, key, since + {call.key})
  {
    var p := IndexOf(q, call.key);
    if p < |q| {
      MoveOutlasted(q, p, key, since);
      AppendOutlasted(q[..p] + q[p + 1..], q[p], key, since - {call.key});
      assert since - {call.key} + {call.key} == since + {call.key};
    } else {
      RetainOutlasted(q, key, since, call.key);
      var kept := Retain(q, call.key);
      if |kept| >= CAPACITY { DropOutlasted(kept, key, since); }
      AppendOutlasted(if |kept| >= CAPACITY then kept[1..] else kept, (call.key, call.instance), key, since);
    }
  }

  /** No call pushes out another's client. */
  ghost predicate Peaceful(calls: seq<Call>, since: set<ClientKey>)
  {
    && (forall c, k | c in calls && k in since :: !Stale(k, c.key))
    && (forall c, d | c in calls && d in calls :: !Stale(c.key, d.key))
  }

  lemma {:induction false} RunOutlasted(q: seq<Entry>, calls: seq<Call>, key: ClientKey, since: set<ClientKey>)
    requires Valid(q) && Outlasted(q, key, since) && Peaceful(calls, since)
    requires forall c | c in calls :: c.builds && c.key != key
    ensures Valid(Run(q, calls)) && Outlasted(Run(q, calls), key, since + OtherKeys(calls, key))
    decreases |calls|
  {
    if calls == [] {
      assert since + OtherKeys(calls, key) == since;
    } else {
      assert calls[0] in calls;
      AccessKeepsValid(q, calls[0]);
      AccessOutlasted(q, calls[0], key, since);
      RunOutlasted(Access(q, calls[0]).0, calls[1..], key, since + {calls[0].key});
      assert calls == [calls[0]] + calls[1..];
      assert since + {calls[0].key} + OtherKeys(calls[1..], key) == since + OtherKeys(calls, key);
    }
  }

  /** Behind a key there is room for 63 others. */
  lemma {:induction false} FewOutlasted(q: seq<Entry>, p: nat, since: set<ClientKey>)
    requires p < |q| && Outlasted(q, q[p].0, since)
    ensures |since| < |q|
  {
    var behind := set j | p + 1 <= j < |q| :: q[j].0;
    SetOfSuffix(q, p + 1);
    forall k | k in since ensures k in behind {
      assert Behind(q, p, k);
      var j :| p < j < |q| && q[j].0 == k;
    }
    Subset(since, behind);
  }

  lemma {:induction false} TooManyBehind(q: seq<Entry>, key: ClientKey, since: set<ClientKey>)
    requires |q| <= CAPACITY && Outlasted(q, key, since) && |since| >= CAPACITY
    ensures forall p | 0 <= p < |q| :: q[p].0 != key
  {
    forall p | 0 <= p < |q| ensures q[p].0 != key {
      if q[p].0 == key { FewOutlasted(q, p, since); }
    }
  }

  lemma {:induction false} SetOfSuffix(q: seq<Entry>, n: nat)
    requires n <= |q|
    ensures |set j | n <= j < |q| :: q[j].0| <= |q| - n
    decreases |q| - n
  {
    var here := set j | n <= j < |q| :: q[j].0;
    if n < |q| {
      var rest := set j | n + 1 <= j < |q| :: q[j].0;
      SetOfSuffix(q, n + 1);
      assert here == rest + {q[n].0};
    } else {
      assert here == {};
    }
  }

  /** The capacity in plain counts: when no call invalidates another's client, a key
      used last before these calls still hits exactly when they used fewer than 64
      distinct keys. */
  lemma {:induction false} HitsByCount(q: seq<Entry>, first: Call, calls: seq<Call>, again: Call)
    requires Valid(q) && Access(q, first).1.Snapshot? && again.key == first.key
    requires forall c | c in calls :: c.builds && c.key != first.key && !Stale(first.key, c.key)
    requires Peaceful(calls, {})
    ensures Access(Run(Access(q, first).0, calls), again).1 == Snapshot(Access(q, first).1.instance, true)
            <==> |OtherKeys(calls, first.key)| < CAPACITY
  {
    if |OtherKeys(calls, first.key)| < CAPACITY {
      KeepsHitting(q, first, calls, again);
    } else {
      var start := Access(q, first).0;
      AccessKeepsValid(q, first);
      RunOutlasted(start, calls, first.key, {});
      assert {} + OtherKeys(calls, first.key) == OtherKeys(calls, first.key);
      TooManyBehind(Run(start, calls), first.key, OtherKeys(calls, first.key));
      assert IndexOf(Run(start, calls), again.key) == |Run(start, calls)|;
    }
  }
  // ------------------------------------------------------------- the exact condition

  function Answers(q: seq<Entry>, calls: seq<Call>): (history: seq<(Call, Answer)>)
    ensures |history| == |calls|
    decreases |calls|
  {
    if calls == [] then [] else [(calls[0], Access(q, calls[0]).1)] + Answers(Access(q, calls[0]).0, calls[1..])
  }

  /** Of the keys used since, those whose clients a new one does not invalidate. */
  function StillCached(since: set<ClientKey>, pushed: ClientKey): set<ClientKey>
  {
    set k | k in since && !Outdated(k, pushed)
  }

  /** Told from the calls and their answers: no client that was built invalidates the
      key's, and at no such time are 64 other keys cached that were used since. */
  predicate Survives(history: seq<(Call, Answer)>, key: ClientKey, since: set<ClientKey>)
    decreases |history|
  {
    if history == [] then true
    else
      var (call, answer) := history[0];
      if answer.Unavailable? then Survives(history[1..], key, since)
      else if call.key == key then Survives(history[1..], key, {})
      else if answer.hit then Survives(history[1..], key, since + {call.key})
      else
        var now := StillCached(since, call.key) + {call.key};
        !Outdated(key, call.key) && |now| < CAPACITY && Survives(history[1..], key, now)
  }

  function KeysIn(q: seq<Entry>): set<ClientKey>
  {
    set x | x in q :: x.0
  }

  /** The entry stands with exactly these keys behind it. */
  ghost predicate StandsBefore(q: seq<Entry>, entry: Entry, since: set<ClientKey>)
  {
    exists older, newer :: q == older + [entry] + newer && KeysIn(newer) == since
  }

  lemma {:induction false} RetainConcat(a: seq<Entry>, b: seq<Entry>, key: ClientKey)
    ensures Retain(a + b, key) == Retain(a, key) + Retain(b, key)
  {
    if a == [] {
      assert a + b == b;
    } else {
      RetainConcat(a[1..], b, key);
      assert (a + b)[0] == a[0] && (a + b)[1..] == a[1..] + b;
    }
  }

  lemma {:induction false} KeysOfRetained(q: seq<Entry>, key: ClientKey)
    ensures KeysIn(Retain(q, key)) == StillCached(KeysIn(q), key)
  {
    RetainFacts(q, key);
    forall k ensures k in KeysIn(Retain(q, key)) <==> k in StillCached(KeysIn(q), key) {
      if k in StillCached(KeysIn(q), key) {
        var x :| x in q && x.0 == k;
        assert x in Retain(q, key);
      }
    }
  }

  lemma {:induction false} DistinctCount(q: seq<Entry>)
    requires DistinctKeys(q)
    ensures |KeysIn(q)| == |q|
  {
    if q != [] {
      DistinctCount(q[1..]);
      assert q == [q[0]] + q[1..];
      assert q[0].0 !in KeysIn(q[1..]);
      assert KeysIn(q) == {q[0].0} + KeysIn(q[1..]);
    }
  }

  lemma {:induction false} DistinctSuffix(older: seq<Entry>, newer: seq<Entry>)
    requires DistinctKeys(older + newer)
    ensures DistinctKeys(newer)
  {
    forall i, j | 0 <= i < j < |newer| ensures newer[i].0 != newer[j].0 {
      assert (older + newer)[|older| + i] == newer[i] && (older + newer)[|older| + j] == newer[j];
    }
  }

  /** A hit of the key itself: nothing is behind it. */
  lemma {:induction false} OwnHit(q: seq<Entry>, call: Call, entry: Entry, since: set<ClientKey>)
    requires DistinctKeys(q) && StandsBefore(q, entry, since) && call.key == entry.0
    ensures StandsBefore(Access(q, call).0, entry, {}) && Access(q, call).1 == Snapshot(entry.1, true)
  {
    var older, newer :| q == older + [entry] + newer && KeysIn(newer) == since;
    assert q[|older|] == entry;
    var p := IndexOf(q, call.key);
    assert p == |older|;
    assert Access(q, call).0 == q[..p] + q[p + 1..] + [entry] + [];
    assert KeysIn([]) == {};
  }

  lemma {:induction false} OlderMoves(older: seq<Entry>, entry: Entry, newer: seq<Entry>, p: nat)
    requires p < |older|
    ensures var q := older + [entry] + newer;
            q[..p] + q[p + 1..] + [q[p]] == older[..p] + older[p + 1..] + [entry] + (newer + [older[p]])
  {
    var q := older + [entry] + newer;
    assert q[..p] == older[..p];
    assert q[p + 1..] == older[p + 1..] + [entry] + newer;
  }

  lemma {:induction false} NewerMoves(older: seq<Entry>, entry: Entry, newer: seq<Entry>, m: nat)
    requires m < |newer|
    ensures var q := older + [entry] + newer; var p := |older| + 1 + m;
            q[..p] + q[p + 1..] + [q[p]] == older + [entry] + (newer[..m] + newer[m + 1..] + [newer[m]])
    ensures KeysIn(newer[..m] + newer[m + 1..] + [newer[m]]) == KeysIn(newer) == KeysIn(newer) + {newer[m].0}
  {
    var q, p := older + [entry] + newer, |older| + 1 + m;
    assert q[..p] == older + [entry] + newer[..m];
    assert q[p + 1..] == newer[m + 1..];
    var after := newer[..m] + newer[m + 1..] + [newer[m]];
    assert newer == newer[..m] + [newer[m]] + newer[m + 1..];
    SameKeys(after, newer);
    assert newer[m] in newer;
  }

  lemma {:induction false} SameKeys(a: seq<Entry>, b: seq<Entry>)
    requires forall x :: x in a <==> x in b
    ensures KeysIn(a) == KeysIn(b)
  {
  }

  lemma {:induction false} MovedBehind(older: seq<Entry>, entry: Entry, newer: seq<Entry>, p: nat)
    requires p < |older| + 1 + |newer| && p != |older|
    ensures var q := older + [entry] + newer;
            StandsBefore(q[..p] + q[p + 1..] + [q[p]], entry, KeysIn(newer) + {q[p].0})
  {
    if p < |older| {
      OlderMoves(older, entry, newer, p);
      KeysAdded(newer, older[p]);
    } else {
      NewerMoves(older, entry, newer, p - |older| - 1);
    }
  }

  /** A hit of another key: it stands behind now, wherever it stood. */
  lemma {:induction false} OtherHit(q: seq<Entry>, call: Call, entry: Entry, since: set<ClientKey>)
    requires DistinctKeys(q) && StandsBefore(q, entry, since) && call.key != entry.0 && IndexOf(q, call.key) < |q|
    ensures StandsBefore(Access(q, call).0, entry, since + {call.key})
  {
    var older, newer :| q == older + [entry] + newer && KeysIn(newer) == since;
    var p := IndexOf(q, call.key);
    assert q[|older|] == entry;
    MovedBehind(older, entry, newer, p);
    assert StandsBefore(q[..p] + q[p + 1..] + [q[p]], entry, since + {q[p].0});
  }

  lemma {:induction false} KeysAdded(q: seq<Entry>, x: Entry)
    ensures KeysIn(q + [x]) == KeysIn(q) + {x.0}
  {
    forall k ensures k in KeysIn(q + [x]) <==> k in KeysIn(q) + {x.0} {
      if k in KeysIn(q) {
        var y :| y in q && y.0 == k;
        assert y in q + [x];
      }
      if k == x.0 { assert x in q + [x]; }
    }
  }

  /** A client is built: the key's own goes if it is stale, or if it is the oldest of 64. */
  lemma {:induction false} OtherBuilt(q: seq<Entry>, call: Call, entry: Entry, since: set<ClientKey>)
    requires Valid(q) && StandsBefore(q, entry, since) && call.key != entry.0
    requires IndexOf(q, call.key) == |q| && call.builds && (call.key, call.instance) != entry
    ensures var now := StillCached(since, call.key) + {call.key};
            if !Stale(entry.0, call.key) && |now| < CAPACITY then StandsBefore(Access(q, call).0, entry, now)
            else entry !in Access(q, call).0
  {
    var older, newer :| q == older + [entry] + newer && KeysIn(newer) == since;
    RetainFacts(q, call.key);
    if !Stale(entry.0, call.key) {
      RetainSplit(older, entry, newer, call.key);
      NotKept(q, call.key);
      BuiltBehind(Retain(older, call.key), entry, Retain(newer, call.key), (call.key, call.instance));
      KeysOfRetained(newer, call.key);
    }
  }

  lemma {:induction false} RetainSplit(older: seq<Entry>, entry: Entry, newer: seq<Entry>, key: ClientKey)
    requires !Stale(entry.0, key)
    ensures Retain(older + [entry] + newer, key) == Retain(older, key) + [entry] + Retain(newer, key)
  {
    RetainConcat(older + [entry], newer, key);
    RetainConcat(older, [entry], key);
    assert [entry][1..] == [];
    assert Retain([entry], key) == [entry];
  }

  lemma {:induction false} NotKept(q: seq<Entry>, key: ClientKey)
    requires Valid(q) && IndexOf(q, key) == |q|
    ensures DistinctKeys(Retain(q, key)) && |Retain(q, key)| <= CAPACITY
    ensures forall x | x in Retain(q, key) :: x.0 != key
  {
    RetainFacts(q, key);
    forall x | x in Retain(q, key) ensures x.0 != key { assert x in q; }
  }

  /** Of at most 64 kept entries the first goes when there are 64; then one is added. */
  lemma {:induction false} BuiltBehind(older: seq<Entry>, entry: Entry, newer: seq<Entry>, built: Entry)
    requires var kept := older + [entry] + newer;
             DistinctKeys(kept) && |kept| <= CAPACITY && (forall x | x in kept :: x.0 != built.0) && built != entry
    ensures var kept := older + [entry] + newer;
            var r := (if |kept| >= CAPACITY then kept[1..] else kept) + [built];
            if |KeysIn(newer) + {built.0}| < CAPACITY then StandsBefore(r, entry, KeysIn(newer) + {built.0})
            else entry !in r
  {
    var kept := older + [entry] + newer;
    var r := (if |kept| >= CAPACITY then kept[1..] else kept) + [built];
    CountBehind(older, entry, newer, built);
    KeysAdded(newer, built);
    if |newer| + 1 < CAPACITY {
      var first := if |kept| >= CAPACITY then older[1..] else older;
      assert r == first + [entry] + (newer + [built]);
    } else {
      assert older == [] && kept == [entry] + newer;
      assert kept[1..] == newer && r == newer + [built];
      forall i | 0 <= i < |newer| ensures newer[i] != entry { assert kept[i + 1] == newer[i] && kept[0] == entry; }
    }
  }

  lemma {:induction false} CountBehind(older: seq<Entry>, entry: Entry, newer: seq<Entry>, built: Entry)
    requires DistinctKeys(older + [entry] + newer) && forall x | x in older + [entry] + newer :: x.0 != built.0
    ensures |KeysIn(newer) + {built.0}| == |newer| + 1
  {
    DistinctSuffix(older + [entry], newer);
    DistinctCount(newer);
    forall x | x in newer ensures x.0 != built.0 { assert x in older + [entry] + newer; }
    assert built.0 !in KeysIn(newer);
  }

  lemma {:induction false} LostStaysLost(q: seq<Entry>, calls: seq<Call>, entry: Entry)
    requires entry !in q && forall c | c in calls :: (c.key, c.instance) != entry
    ensures entry !in Run(q, calls)
    decreases |calls|
  {
    if calls != [] {
      var r := Access(q, calls[0]).0;
      RetainFacts(q, calls[0].key);
      assert calls[0] in calls;
      assert entry !in r;
      LostStaysLost(r, calls[1..], entry);
    }
  }

  /** The entry is there at the end exactly when it survives by the answers. */
  lemma {:induction false} StaysExactly(q: seq<Entry>, calls: seq<Call>, entry: Entry, since: set<ClientKey>)
    requires Valid(q) && StandsBefore(q, entry, since)
    requires forall c | c in calls :: (c.key, c.instance) != entry
    ensures Valid(Run(q, calls))
    ensures entry in Run(q, calls) <==> Survives(Answers(q, calls), entry.0, since)
    decreases |calls|
  {
    if calls == [] {
      var older, newer :| q == older + [entry] + newer && KeysIn(newer) == since;
      assert q[|older|] == entry;
    } else {
      var c, rest := calls[0], Answers(Access(q, calls[0]).0, calls[1..]);
      var next := Access(q, c).0;
      assert c in calls;
      assert Answers(q, calls)[0] == (c, Access(q, c).1) && Answers(q, calls)[1..] == rest;
      AccessKeepsValid(q, c);
      RunKeepsValid(next, calls[1..]);
      var now := StillCached(since, c.key) + {c.key};
      if c.key == entry.0 {
        OwnHit(q, c, entry, since);
        StaysExactly(next, calls[1..], entry, {});
      } else if IndexOf(q, c.key) < |q| {
        OtherHit(q, c, entry, since);
        StaysExactly(next, calls[1..], entry, since + {c.key});
      } else if !c.builds {
        StaysExactly(next, calls[1..], entry, since);
      } else {
        OtherBuilt(q, c, entry, since);
        if !Stale(entry.0, c.key) && |now| < CAPACITY {
          StaysExactly(next, calls[1..], entry, now);
        } else {
          LostStaysLost(next, calls[1..], entry);
        }
      }
    }
  }

  lemma {:induction false} RunKeepsValid(q: seq<Entry>, calls: seq<Call>)
    requires Valid(q)
    ensures Valid(Run(q, calls))
    decreases |calls|
  {
    if calls != [] {
      AccessKeepsValid(q, calls[0]);
      RunKeepsValid(Access(q, calls[0]).0, calls[1..]);
    }
  }

  /** After any calls at all, failed builds and invalidations among them, a key hits its
      old client exactly when it survives by their answers. Instance ids are new. */
  lemma {:induction false} HitsExactly(q: seq<Entry>, first: Call, calls: seq<Call>, again: Call)
    requires Valid(q) && Access(q, first).1.Snapshot? && again.key == first.key
    requires forall c | c in calls :: c.instance != Access(q, first).1.instance
    ensures Access(Run(Access(q, first).0, calls), again).1 == Snapshot(Access(q, first).1.instance, true)
            <==> Survives(Answers(Access(q, first).0, calls), first.key, {})
  {
    var start := Access(q, first).0;
    var entry := (first.key, Access(q, first).1.instance);
    AccessElements(q, first);
    AccessKeepsValid(q, first);
    assert start == start[..|start| - 1] + [entry] + [];
    assert KeysIn([]) == {};
    StaysExactly(start, calls, entry, {});
    var end := Run(start, calls);
    var i := IndexOf(end, again.key);
    if entry in end {
      var j :| 0 <= j < |end| && end[j] == entry;
      assert i == j;
    }
  }
}
