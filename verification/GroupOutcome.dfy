/** What a completed preparation leaves in a request, told from the candidates, the
    bindings and what the strategies answered (src/group_routing.rs:161-191, 459-475,
    528-548, 690-695, 728-807). */
module GroupOutcome {
  import opened Json
  import opened StableSort
  import opened GroupRouting
  import opened GroupLayout
  import Text

  // -------------------------------------------------------------- what is promised

  predicate InGroup(bindings: map<Key, Binding>, c: Candidate, g: BucketKey)
  {
    var key := (c.route, c.account, c.generation);
    key in bindings && bindings[key].priority == g.priority && bindings[key].groupId == g.groupId
  }

  predicate InNoGroup(bindings: map<Key, Binding>, c: Candidate)
  {
    (c.route, c.account, c.generation) !in bindings
  }

  /** The candidates for which it holds, in their order. */
  function Only(s: seq<Candidate>, holds: Candidate -> bool): seq<Candidate>
  {
    if s == [] then []
    else Only(s[..|s| - 1], holds) + if holds(s[|s| - 1]) then [s[|s| - 1]] else []
  }

  function GroupOf(given: seq<Candidate>, bindings: map<Key, Binding>, g: BucketKey): seq<Candidate>
  {
    Only(given, c => InGroup(bindings, c, g))
  }

  /** Higher priority first, and within one priority the lesser group id. */
  predicate Precedes(a: BucketKey, b: BucketKey)
  {
    if a.priority == b.priority then a.groupId != b.groupId && Text.Le(a.groupId, b.groupId)
    else a.priority > b.priority
  }

  /** The groups of these candidates, each once, in order. */
  ghost predicate GroupsAre(groups: seq<BucketKey>, given: seq<Candidate>, bindings: map<Key, Binding>)
  {
    && (forall i, j | 0 <= i < j < |groups| :: Precedes(groups[i], groups[j]))
    && (forall g | g in groups :: GroupOf(given, bindings, g) != [])
    && (forall c, g | c in given && InGroup(bindings, c, g) :: g in groups)
  }

  /** The members of a group were all read with one version of it. */
  predicate OneVersion(members: seq<Candidate>, bindings: map<Key, Binding>)
  {
    forall i, j | 0 <= i < |members| && 0 <= j < |members|
                  && members[i].Key() in bindings && members[j].Key() in bindings ::
      bindings[members[i].Key()].version == bindings[members[j].Key()].version
  }

  /** As many directives as members, each for a member, none for one twice. */
  predicate Fits(plan: seq<Directive>, members: seq<Candidate>)
  {
    && |plan| == |members|
    && (forall i | 0 <= i < |plan| :: exists j | 0 <= j < |members| :: members[j].Key() == plan[i].candidate)
    && (forall i, j | 0 <= i < j < |plan| :: plan[i].candidate != plan[j].candidate)
  }

  /** The strategy's answer for the group is used. */
  predicate Used(g: BucketKey, members: seq<Candidate>, bindings: map<Key, Binding>, world: World)
  {
    && OneVersion(members, bindings)
    && var answer := world.answer(Bucket(g, members));
       answer.Planned? && Fits(answer.directives, members)
  }

  predicate Earlier(plan: seq<Directive>, x: Directive, y: Directive)
  {
    exists p, q | 0 <= p < q < |plan| :: plan[p] == x && plan[q] == y
  }

  /** Not of the account that the session prefers. */
  predicate Far(d: Directive, preferred: Option<int>)
  {
    preferred.Some? && d.candidate.1 != preferred.value
  }

  /** `x` may stand before `y`: the preferred account first; in either half the sticky
      ones first, by rising rank; and what is alike in the plugin's order. */
  predicate MayPrecede(x: Directive, y: Directive, plan: seq<Directive>, preferred: Option<int>, rank: Key -> nat)
  {
    if Far(x, preferred) != Far(y, preferred) then Far(y, preferred)
    else if x.stickiness != y.stickiness then x.stickiness
    else if x.stickiness && rank(x.candidate) != rank(y.candidate) then rank(x.candidate) < rank(y.candidate)
    else Earlier(plan, x, y)
  }

  /** These candidates stand in the order of these directives, which are the plan's. */
  ghost predicate Executed(run: seq<Candidate>, ds: seq<Directive>, plan: seq<Directive>, preferred: Option<int>,
                           rank: Key -> nat)
  {
    && |run| == |ds| && multiset(ds) == multiset(plan)
    && (forall i | 0 <= i < |run| :: run[i].Key() == ds[i].candidate)
    && (forall i, j | 0 <= i < j < |ds| :: MayPrecede(ds[i], ds[j], plan, preferred, rank))
  }

  /** The slots of one group, and the policies that are installed for it. */
  ghost predicate RunOf(run: seq<Candidate>, g: BucketKey, members: seq<Candidate>, bindings: map<Key, Binding>,
                        world: World)
  {
    && multiset(run) == multiset(members)
    && if Used(g, members, bindings, world) then
         var answer := world.answer(Bucket(g, members));
         exists ds :: Executed(run, ds, answer.directives, answer.preferred, world.stickyRank)
       else run == members
  }

  function Flat(runs: seq<seq<Candidate>>): seq<Candidate>
  {
    if runs == [] then [] else Flat(runs[..|runs| - 1]) + runs[|runs| - 1]
  }

  /** The final order: group after group, each in its own order, then the candidates of
      no group as they were. */
  ghost predicate OrderedAs(final: seq<Candidate>, given: seq<Candidate>, bindings: map<Key, Binding>, world: World)
  {
    exists groups, runs ::
      && GroupsAre(groups, given, bindings) && |runs| == |groups|
      && final == Flat(runs) + Only(given, c => InNoGroup(bindings, c))
      && forall b | 0 <= b < |groups| :: RunOf(runs[b], groups[b], GroupOf(given, bindings, groups[b]), bindings, world)
  }

  /** A candidate's policy is its group's, with the directive of the used answer. */
  ghost predicate PolicyIs(policy: Policy, key: Key, given: seq<Candidate>, bindings: map<Key, Binding>, world: World)
  {
    exists c, g :: c in given && c.Key() == key && InGroup(bindings, c, g)
      && Used(g, GroupOf(given, bindings, g), bindings, world) && !world.usesNativeHealth(g)
      && policy.groupId == g.groupId && policy.version == bindings[key].version
      && policy.directive in world.answer(Bucket(g, GroupOf(given, bindings, g))).directives
      && policy.directive.candidate == key
  }

  /** The candidate's group is governed by a plugin's answer. */
  ghost predicate Governed(key: Key, given: seq<Candidate>, bindings: map<Key, Binding>, world: World)
  {
    exists c, g :: c in given && c.Key() == key && InGroup(bindings, c, g)
      && Used(g, GroupOf(given, bindings, g), bindings, world) && !world.usesNativeHealth(g)
  }

  ghost predicate PoliciesAre(policies: map<Key, Policy>, given: seq<Candidate>, bindings: map<Key, Binding>,
                              world: World)
  {
    && (forall key :: key in policies <==> Governed(key, given, bindings, world))
    && (forall key | key in policies :: PolicyIs(policies[key], key, given, bindings, world))
  }

  // ---------------------------------------------------------------- stable classes

  lemma {:induction false} SelectedEarlier<T, K>(s: seq<T>, key: T -> K, k: K, i: nat, j: nat)
    returns (u: nat, v: nat)
    requires i < j < |s| && key(s[i]) == k && key(s[j]) == k
    ensures u < v < |WithKey(s, key, k)| && WithKey(s, key, k)[u] == s[i] && WithKey(s, key, k)[v] == s[j]
  {
    if i == 0 {
      v := SelectedAt(s[1..], key, k, j - 1);
      u, v := 0, v + 1;
    } else {
      u, v := SelectedEarlier(s[1..], key, k, i - 1, j - 1);
      if key(s[0]) == k { u, v := u + 1, v + 1; }
    }
  }

  lemma {:induction false} SelectedAt<T, K>(s: seq<T>, key: T -> K, k: K, i: nat) returns (u: nat)
    requires i < |s| && key(s[i]) == k
    ensures u < |WithKey(s, key, k)| && WithKey(s, key, k)[u] == s[i]
  {
    if i == 0 {
      u := 0;
    } else {
      u := SelectedAt(s[1..], key, k, i - 1);
      if key(s[0]) == k { u := u + 1; }
    }
  }

  lemma {:induction false} PlacedEarlier<T, K>(s: seq<T>, key: T -> K, k: K, u: nat, v: nat)
    returns (p: nat, q: nat)
    requires u < v < |WithKey(s, key, k)|
    ensures p < q < |s| && s[p] == WithKey(s, key, k)[u] && s[q] == WithKey(s, key, k)[v]
  {
    if key(s[0]) == k {
      if u == 0 {
        q := PlacedAt(s[1..], key, k, v - 1);
        p, q := 0, q + 1;
      } else {
        p, q := PlacedEarlier(s[1..], key, k, u - 1, v - 1);
        p, q := p + 1, q + 1;
      }
    } else {
      p, q := PlacedEarlier(s[1..], key, k, u, v);
      p, q := p + 1, q + 1;
    }
  }

  lemma {:induction false} PlacedAt<T, K>(s: seq<T>, key: T -> K, k: K, u: nat) returns (p: nat)
    requires u < |WithKey(s, key, k)|
    ensures p < |s| && s[p] == WithKey(s, key, k)[u]
  {
    if key(s[0]) == k {
      if u == 0 {
        p := 0;
      } else {
        p := PlacedAt(s[1..], key, k, u - 1);
        p := p + 1;
      }
    } else {
      p := PlacedAt(s[1..], key, k, u);
      p := p + 1;
    }
  }

  /** Directives that are alike stand in the plan's order. */
  lemma {:induction false} AlikeKeepOrder(order: seq<Directive>, plan: seq<Directive>, preferred: Option<int>,
                                          rank: Key -> nat, i: nat, j: nat)
    requires i < j < |order| && Far(order[i], preferred) == Far(order[j], preferred)
    requires StickyKey(order[i], rank) == StickyKey(order[j], rank)
    requires forall away, k :: OneKind(order, preferred, rank, away, k) == OneKind(plan, preferred, rank, away, k)
    ensures Earlier(plan, order[i], order[j])
  {
    var k, sticky, away := StickyKey(order[i], rank), ByStickiness(rank), Far(order[i], preferred);
    assert OneKind(order, preferred, rank, away, k) == OneKind(plan, preferred, rank, away, k);
    var p, q;
    if preferred.None? {
      p, q := KeptOrder(order, plan, sticky, k, i, j);
    } else {
      p, q := KeptOrderTwice(order, plan, ByPreference(preferred.value), away, sticky, k, i, j);
    }
  }

  lemma {:induction false} KeptOrder<T, K>(s: seq<T>, t: seq<T>, key: T -> K, k: K, i: nat, j: nat)
    returns (p: nat, q: nat)
    requires i < j < |s| && key(s[i]) == k && key(s[j]) == k && WithKey(s, key, k) == WithKey(t, key, k)
    ensures p < q < |t| && t[p] == s[i] && t[q] == s[j]
  {
    var u, v := SelectedEarlier(s, key, k, i, j);
    p, q := PlacedEarlier(t, key, k, u, v);
  }

  lemma {:induction false} KeptOrderTwice<T, K, L>(s: seq<T>, t: seq<T>, far: T -> K, k: K, key: T -> L, l: L, i: nat,
                                                   j: nat) returns (p: nat, q: nat)
    requires i < j < |s| && far(s[i]) == k && far(s[j]) == k && key(s[i]) == l && key(s[j]) == l
    requires WithKey(WithKey(s, far, k), key, l) == WithKey(WithKey(t, far, k), key, l)
    ensures p < q < |t| && t[p] == s[i] && t[q] == s[j]
  {
    var u, v := SelectedEarlier(s, far, k, i, j);
    p, q := KeptOrder(WithKey(s, far, k), WithKey(t, far, k), key, l, u, v);
    p, q := PlacedEarlier(t, far, k, p, q);
  }

  lemma {:induction false} OrderIsExecuted(plan: seq<Directive>, preferred: Option<int>, rank: Key -> nat)
    ensures var order := ExecutionOrder(plan, preferred, rank);
            multiset(order) == multiset(plan)
            && forall i, j | 0 <= i < j < |order| :: MayPrecede(order[i], order[j], plan, preferred, rank)
  {
    var order := ExecutionOrder(plan, preferred, rank);
    StickyFirst(plan, preferred, rank, false, (false, 0));
    forall away, k ensures OneKind(order, preferred, rank, away, k) == OneKind(plan, preferred, rank, away, k) {
      StickyFirst(plan, preferred, rank, away, k);
    }
    forall i, j | 0 <= i < j < |order| ensures MayPrecede(order[i], order[j], plan, preferred, rank) {
      assert Away(order[i], preferred) ==> Away(order[j], preferred);
      if Far(order[i], preferred) == Far(order[j], preferred)
         && StickyKey(order[i], rank) == StickyKey(order[j], rank) {
        AlikeKeepOrder(order, plan, preferred, rank, i, j);
      }
    }
  }

  // ----------------------------------------------------------------- buckets as groups

  lemma {:induction false} GroupIsBoundTo(given: seq<Candidate>, bindings: map<Key, Binding>, g: BucketKey)
    ensures GroupOf(given, bindings, g) == BoundTo(given, bindings, g)
  {
    if given != [] { GroupIsBoundTo(given[..|given| - 1], bindings, g); }
  }

  lemma {:induction false} NoGroupIsUnbound(given: seq<Candidate>, bindings: map<Key, Binding>)
    ensures Only(given, c => InNoGroup(bindings, c)) == Unbound(given, bindings)
  {
    if given != [] {
      var n := |given| - 1;
      NoGroupIsUnbound(given[..n], bindings);
      UnboundSnoc(given[..n], given[n], bindings);
      assert given == given[..n] + [given[n]];
    }
  }

  lemma {:induction false} OnlyHas(s: seq<Candidate>, holds: Candidate -> bool, c: Candidate)
    ensures c in Only(s, holds) <==> c in s && holds(c)
  {
    if s != [] {
      OnlyHas(s[..|s| - 1], holds, c);
      assert s == s[..|s| - 1] + [s[|s| - 1]];
    }
  }

  lemma {:induction false} PrecedesIsBefore(a: BucketKey, b: BucketKey)
    ensures Precedes(a, b) <==> Before(a, b)
  {
  }

  function KeysOfBuckets(buckets: seq<Bucket>): (groups: seq<BucketKey>)
    ensures |groups| == |buckets|
  {
    seq(|buckets|, b requires 0 <= b < |buckets| => buckets[b].key)
  }

  lemma {:induction false} FiledUnder(buckets: seq<Bucket>, g: BucketKey)
    requires MembersFor(buckets, g) != []
    ensures exists b :: 0 <= b < |buckets| && buckets[b].key == g
  {
    if buckets[0].key != g {
      FiledUnder(buckets[1..], g);
      var b :| 0 <= b < |buckets[1..]| && buckets[1..][b].key == g;
      assert buckets[b + 1].key == g;
    }
  }

  lemma {:induction false} BucketsAreGroups(given: seq<Candidate>, bindings: map<Key, Binding>)
    ensures var buckets := BucketsOf(given, bindings);
            && GroupsAre(KeysOfBuckets(buckets), given, bindings)
            && forall b | 0 <= b < |buckets| :: buckets[b].members == GroupOf(given, bindings, buckets[b].key)
  {
    var buckets := BucketsOf(given, bindings);
    var groups := KeysOfBuckets(buckets);
    BucketsInOrder(given, bindings);
    BucketsFilled(given, bindings);
    forall b | 0 <= b < |buckets| ensures buckets[b].members == GroupOf(given, bindings, buckets[b].key) {
      GroupIsBoundTo(given, bindings, buckets[b].key);
    }
    forall i, j | 0 <= i < j < |groups| ensures Precedes(groups[i], groups[j]) {
      PrecedesIsBefore(groups[i], groups[j]);
    }
    forall g | g in groups ensures GroupOf(given, bindings, g) != [] {
      var b :| 0 <= b < |groups| && groups[b] == g;
      assert buckets[b] in buckets;
    }
    forall c, g | c in given && InGroup(bindings, c, g) ensures g in groups {
      OnlyHas(given, x => InGroup(bindings, x, g), c);
      GroupIsBoundTo(given, bindings, g);
      BucketsFile(given, bindings, g);
      FiledUnder(buckets, g);
      var b :| 0 <= b < |buckets| && buckets[b].key == g;
      assert groups[b] == g;
    }
  }

  /** All members of a bucket are bound. */
  ghost predicate AllBound(bucket: Bucket, bindings: map<Key, Binding>)
  {
    bucket.members != [] && forall c | c in bucket.members :: InGroup(bindings, c, bucket.key)
  }

  lemma {:induction false} FitsIsValid(plan: seq<Directive>, members: seq<Candidate>)
    ensures Fits(plan, members) <==> ValidPlan(members, plan)
  {
    forall i | 0 <= i < |plan|
      ensures plan[i].candidate in KeysOf(members) <==>
        exists j | 0 <= j < |members| :: members[j].Key() == plan[i].candidate
    {
      if plan[i].candidate in KeysOf(members) {
        var j :| 0 <= j < |members| && KeysOf(members)[j] == plan[i].candidate;
        assert members[j].Key() == plan[i].candidate;
      }
      if j :| 0 <= j < |members| && members[j].Key() == plan[i].candidate {
        assert KeysOf(members)[j] == plan[i].candidate;
      }
    }
    var keys := DirectiveKeys(plan);
    if NoDup(keys) {
      forall i, j | 0 <= i < j < |plan| ensures plan[i].candidate != plan[j].candidate { assert keys[i] != keys[j]; }
    }
    if forall i, j | 0 <= i < j < |plan| :: plan[i].candidate != plan[j].candidate {
      forall i, j | 0 <= i < j < |keys| ensures keys[i] != keys[j] {
        assert keys[i] == plan[i].candidate && keys[j] == plan[j].candidate;
      }
    }
  }

  lemma {:induction false} OneVersionIs(bucket: Bucket, bindings: map<Key, Binding>)
    requires AllBound(bucket, bindings)
    ensures OneVersion(bucket.members, bindings) <==> !GroupChanged(bucket, bindings)
  {
    var m := bucket.members;
    forall i | 0 <= i < |m| ensures m[i].Key() in bindings { assert m[i] in m; }
    if !GroupChanged(bucket, bindings) {
      forall i, j | 0 <= i < |m| && 0 <= j < |m| ensures bindings[m[i].Key()].version == bindings[m[j].Key()].version {
        assert bindings[m[i].Key()].version == bindings[m[0].Key()].version == bindings[m[j].Key()].version;
      }
    }
  }

  /** A used answer is executed, in its execution order. */
  lemma {:induction false} UsedIsPlanned(bucket: Bucket, bindings: map<Key, Binding>, world: World)
    requires AllBound(bucket, bindings)
    ensures Used(bucket.key, bucket.members, bindings, world) <==> PlanOf(bucket, bindings, world).Some?
    ensures PlanOf(bucket, bindings, world).Some? ==>
      var answer := world.answer(bucket);
      PlanOf(bucket, bindings, world).value == ExecutionOrder(answer.directives, answer.preferred, world.stickyRank)
  {
    OneVersionIs(bucket, bindings);
    assert Bucket(bucket.key, bucket.members) == bucket;
    if world.answer(bucket).Planned? { FitsIsValid(world.answer(bucket).directives, bucket.members); }
  }

  lemma {:induction false} RunIs(bucket: Bucket, bindings: map<Key, Binding>, world: World)
    requires AllBound(bucket, bindings) && Distinct(bucket.members)
    ensures RunOf(BucketOrder(bucket, bindings, world), bucket.key, bucket.members, bindings, world)
  {
    var run := BucketOrder(bucket, bindings, world);
    BucketOrderPermutes(bucket, bindings, world);
    UsedIsPlanned(bucket, bindings, world);
    if Used(bucket.key, bucket.members, bindings, world) {
      var answer := world.answer(Bucket(bucket.key, bucket.members));
      var ds := PlanOf(bucket, bindings, world).value;
      PlanStaysValid(bucket, bindings, world);
      OrderIsExecuted(answer.directives, answer.preferred, world.stickyRank);
      assert Executed(run, ds, answer.directives, answer.preferred, world.stickyRank);
    }
  }

  function Runs(buckets: seq<Bucket>, bindings: map<Key, Binding>, world: World): (runs: seq<seq<Candidate>>)
    ensures |runs| == |buckets|
  {
    seq(|buckets|, b requires 0 <= b < |buckets| => BucketOrder(buckets[b], bindings, world))
  }

  lemma {:induction false} LastRun(buckets: seq<Bucket>, bindings: map<Key, Binding>, world: World)
    requires buckets != []
    ensures var runs, n := Runs(buckets, bindings, world), |buckets| - 1;
            runs[..n] == Runs(buckets[..n], bindings, world) && runs[n] == BucketOrder(buckets[n], bindings, world)
  {
  }

  lemma {:induction false} FlatIsLayout(buckets: seq<Bucket>, bindings: map<Key, Binding>, world: World)
    ensures Flat(Runs(buckets, bindings, world)) == BoundLayout(buckets, bindings, world)
  {
    if buckets != [] {
      var n := |buckets| - 1;
      FlatIsLayout(buckets[..n], bindings, world);
      LastRun(buckets, bindings, world);
    }
  }

  lemma {:induction false} BucketSound(given: seq<Candidate>, bindings: map<Key, Binding>, b: nat)
    requires Distinct(given) && b < |BucketsOf(given, bindings)|
    ensures var bucket := BucketsOf(given, bindings)[b];
            AllBound(bucket, bindings) && Distinct(bucket.members) && forall c | c in bucket.members :: c in given
  {
    var buckets := BucketsOf(given, bindings);
    var bucket := buckets[b];
    BucketsAreGroups(given, bindings);
    BucketsFilled(given, bindings);
    assert bucket in buckets;
    forall c | c in bucket.members ensures InGroup(bindings, c, bucket.key) && c in given {
      OnlyHas(given, x => InGroup(bindings, x, bucket.key), c);
    }
    OnlyWithin(given, x => InGroup(bindings, x, bucket.key));
    DistinctWithin(bucket.members, given);
  }

  lemma {:induction false} OnlyWithin(s: seq<Candidate>, holds: Candidate -> bool)
    ensures multiset(Only(s, holds)) <= multiset(s)
  {
    if s != [] {
      OnlyWithin(s[..|s| - 1], holds);
      assert s == s[..|s| - 1] + [s[|s| - 1]];
    }
  }

  /** The final order is the promised one. */
  lemma {:induction false} LayoutIsOrdered(given: seq<Candidate>, bindings: map<Key, Binding>, world: World)
    requires Distinct(given)
    ensures OrderedAs(Layout(given, bindings, world), given, bindings, world)
  {
    var buckets := BucketsOf(given, bindings);
    var groups, runs := KeysOfBuckets(buckets), Runs(buckets, bindings, world);
    BucketsAreGroups(given, bindings);
    FlatIsLayout(buckets, bindings, world);
    NoGroupIsUnbound(given, bindings);
    forall b | 0 <= b < |groups|
      ensures RunOf(runs[b], groups[b], GroupOf(given, bindings, groups[b]), bindings, world)
    {
      BucketSound(given, bindings, b);
      RunIs(buckets[b], bindings, world);
    }
  }

  // ------------------------------------------------------------------------ policies

  lemma {:induction false} PlanPolicyIs(bucket: Bucket, bindings: map<Key, Binding>, plan: seq<Directive>, key: Key)
    requires bucket.members != [] && key in PlanPolicies(bucket, bindings, plan)
    ensures var policy := PlanPolicies(bucket, bindings, plan)[key];
            var first := bucket.members[0].Key();
            && policy.groupId == bucket.key.groupId && policy.directive in plan && policy.directive.candidate == key
            && policy.version == (if first in bindings then bindings[first].version else 0)
  {
    if plan[|plan| - 1].candidate != key { PlanPolicyIs(bucket, bindings, plan[..|plan| - 1], key); }
  }

  /** Every policy comes from a bucket that governs its candidate. */
  lemma {:induction false} PolicyFrom(buckets: seq<Bucket>, bindings: map<Key, Binding>, world: World, key: Key)
    returns (b: nat)
    requires (forall x | x in buckets :: x.members != []) && key in Policies(buckets, bindings, world)
    ensures b < |buckets| && Governs(buckets[b], bindings, world, key)
    ensures var plan := PlanOf(buckets[b], bindings, world).value;
            key in PlanPolicies(buckets[b], bindings, plan)
            && Policies(buckets, bindings, world)[key] == PlanPolicies(buckets[b], bindings, plan)[key]
  {
    var n := |buckets| - 1;
    var last := buckets[n];
    assert last in buckets;
    var plan := PlanOf(last, bindings, world);
    if plan.Some? && !world.usesNativeHealth(last.key) && key in PlanPolicies(last, bindings, plan.value) {
      b := n;
      PlannedKeys(last, bindings, world, key);
    } else {
      b := PolicyFrom(buckets[..n], bindings, world, key);
    }
  }

  /** A governed bucket is the group of its candidate. */
  lemma {:induction false} GovernsIsGoverned(given: seq<Candidate>, bindings: map<Key, Binding>, world: World, b: nat,
                                             key: Key) returns (c: Candidate)
    requires Distinct(given) && b < |BucketsOf(given, bindings)|
    requires Governs(BucketsOf(given, bindings)[b], bindings, world, key)
    ensures var bucket := BucketsOf(given, bindings)[b];
            && c in bucket.members && c in given && c.Key() == key && InGroup(bindings, c, bucket.key)
            && bucket.members == GroupOf(given, bindings, bucket.key)
            && Used(bucket.key, bucket.members, bindings, world)
  {
    var bucket := BucketsOf(given, bindings)[b];
    BucketSound(given, bindings, b);
    BucketsAreGroups(given, bindings);
    UsedIsPlanned(bucket, bindings, world);
    PlanStaysValid(bucket, bindings, world);
    var plan := PlanOf(bucket, bindings, world).value;
    var i :| 0 <= i < |plan| && DirectiveKeys(plan)[i] == key;
    var j :| 0 <= j < |bucket.members| && KeysOf(bucket.members)[j] == key;
    c := bucket.members[j];
  }

  lemma {:induction false} GovernedIsGoverns(given: seq<Candidate>, bindings: map<Key, Binding>, world: World,
                                             c: Candidate, g: BucketKey) returns (b: nat)
    requires Distinct(given) && c in given && InGroup(bindings, c, g)
    requires Used(g, GroupOf(given, bindings, g), bindings, world) && !world.usesNativeHealth(g)
    ensures b < |BucketsOf(given, bindings)| && Governs(BucketsOf(given, bindings)[b], bindings, world, c.Key())
  {
    var buckets := BucketsOf(given, bindings);
    BucketsAreGroups(given, bindings);
    assert g in KeysOfBuckets(buckets);
    b :| 0 <= b < |buckets| && KeysOfBuckets(buckets)[b] == g;
    var bucket := buckets[b];
    BucketSound(given, bindings, b);
    UsedIsPlanned(bucket, bindings, world);
    PlanStaysValid(bucket, bindings, world);
    var plan := PlanOf(bucket, bindings, world).value;
    OnlyHas(given, x => InGroup(bindings, x, g), c);
    AllKeysPlanned(plan, bucket.members, c);
  }

  /** A plan that fits has a directive for every member. */
  lemma {:induction false} AllKeysPlanned(plan: seq<Directive>, members: seq<Candidate>, c: Candidate)
    requires ValidPlan(members, plan) && Distinct(members) && c in members
    ensures c.Key() in DirectiveKeys(plan)
  {
    var keys := KeysOf(members);
    forall i, j | 0 <= i < j < |keys| ensures keys[i] != keys[j] {
      assert members[i] in members && members[j] in members;
    }
    forall k | k in DirectiveKeys(plan) ensures k in keys {
      var i :| 0 <= i < |plan| && DirectiveKeys(plan)[i] == k;
    }
    SameElements(DirectiveKeys(plan), keys);
    var j :| 0 <= j < |members| && members[j] == c;
    assert keys[j] == c.Key() && keys[j] in multiset(keys);
    assert c.Key() in multiset(DirectiveKeys(plan));
  }

  lemma {:induction false} UsedPolicy(bucket: Bucket, bindings: map<Key, Binding>, world: World, key: Key,
                                      c: Candidate)
    requires AllBound(bucket, bindings) && Used(bucket.key, bucket.members, bindings, world)
    requires c in bucket.members && c.Key() == key && PlanOf(bucket, bindings, world).Some?
    requires key in PlanPolicies(bucket, bindings, PlanOf(bucket, bindings, world).value)
    ensures var policy := PlanPolicies(bucket, bindings, PlanOf(bucket, bindings, world).value)[key];
            && policy.groupId == bucket.key.groupId && policy.version == bindings[key].version
            && policy.directive in world.answer(bucket).directives && policy.directive.candidate == key
  {
    var plan, answer := PlanOf(bucket, bindings, world).value, world.answer(bucket);
    UsedIsPlanned(bucket, bindings, world);
    PlanPolicyIs(bucket, bindings, plan, key);
    ExecutionOrderPermutes(answer.directives, answer.preferred, world.stickyRank);
    var policy := PlanPolicies(bucket, bindings, plan)[key];
    assert policy.directive in multiset(plan);
    assert policy.directive in multiset(answer.directives);
    SameVersion(bucket, bindings, c);
  }

  lemma {:induction false} SameVersion(bucket: Bucket, bindings: map<Key, Binding>, c: Candidate)
    requires AllBound(bucket, bindings) && OneVersion(bucket.members, bindings) && c in bucket.members
    ensures bucket.members[0].Key() in bindings && c.Key() in bindings
    ensures bindings[bucket.members[0].Key()].version == bindings[c.Key()].version
  {
    assert bucket.members[0] in bucket.members;
    var j :| 0 <= j < |bucket.members| && bucket.members[j] == c;
    assert bindings[bucket.members[0].Key()].version == bindings[bucket.members[j].Key()].version;
  }

  lemma {:induction false} PolicyValue(given: seq<Candidate>, bindings: map<Key, Binding>, world: World, key: Key)
    requires Distinct(given) && key in Policies(BucketsOf(given, bindings), bindings, world)
    ensures Governed(key, given, bindings, world)
    ensures PolicyIs(Policies(BucketsOf(given, bindings), bindings, world)[key], key, given, bindings, world)
  {
    var buckets := BucketsOf(given, bindings);
    BucketsFilled(given, bindings);
    var b := PolicyFrom(buckets, bindings, world, key);
    var bucket := buckets[b];
    var c := GovernsIsGoverned(given, bindings, world, b, key);
    BucketSound(given, bindings, b);
    UsedPolicy(bucket, bindings, world, key, c);
    assert Bucket(bucket.key, bucket.members) == bucket;
    assert InGroup(bindings, c, bucket.key) && GroupOf(given, bindings, bucket.key) == bucket.members;
  }

  /** The installed policies are the promised ones. */
  lemma {:induction false} PoliciesHold(given: seq<Candidate>, bindings: map<Key, Binding>, world: World)
    requires Distinct(given)
    ensures PoliciesAre(Policies(BucketsOf(given, bindings), bindings, world), given, bindings, world)
  {
    var policies := Policies(BucketsOf(given, bindings), bindings, world);
    forall key ensures key in policies <==> Governed(key, given, bindings, world) {
      if key in policies { PolicyValue(given, bindings, world, key); }
      if Governed(key, given, bindings, world) {
        var c, g :| c in given && c.Key() == key && InGroup(bindings, c, g)
                    && Used(g, GroupOf(given, bindings, g), bindings, world) && !world.usesNativeHealth(g);
        var b := GovernedIsGoverns(given, bindings, world, c, g);
        PolicyKeys(given, bindings, world, key);
        assert BucketsOf(given, bindings)[b] in BucketsOf(given, bindings);
      }
    }
    forall key | key in policies ensures PolicyIs(policies[key], key, given, bindings, world) {
      PolicyValue(given, bindings, world, key);
    }
  }
}
