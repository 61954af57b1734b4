/** What the final layout of group routing looks like
    (src/group_routing.rs:175-191, 459-475, 528-543, 768-784). */
module GroupLayout {
  import opened Json
  import opened StableSort
  import opened GroupRouting
  import Text

  // ------------------------------------------------------------------ buckets

  /** The candidates bound to one bucket, in native order. */
  function BoundTo(candidates: seq<Candidate>, bindings: map<Key, Binding>, key: BucketKey): seq<Candidate>
  {
    if candidates == [] then []
    else
      var n := |candidates| - 1;
      BoundTo(candidates[..n], bindings, key)
      + if BucketKeyOf(bindings, candidates[n]) == Some(key) then [candidates[n]] else []
  }

  ghost predicate Ascending(buckets: seq<Bucket>)
  {
    forall i, j | 0 <= i < j < |buckets| :: Before(buckets[i].key, buckets[j].key)
  }

  lemma {:induction false} BeforeIsStrict(a: BucketKey, b: BucketKey, c: BucketKey)
    ensures Before(a, b) ==> a != b
    ensures Before(a, b) && Before(b, c) ==> Before(a, c)
    ensures a == b || Before(a, b) || Before(b, a)
  {
    Text.LeTotal(a.groupId, b.groupId);
    if Text.Le(a.groupId, b.groupId) && Text.Le(b.groupId, c.groupId) {
      Text.LeTransitive(a.groupId, b.groupId, c.groupId);
      if a.groupId == c.groupId { Text.LeAntisymmetric(a.groupId, b.groupId); }
    }
  }

  function MembersFor(buckets: seq<Bucket>, key: BucketKey): seq<Candidate>
  {
    if buckets == [] then []
    else if buckets[0].key == key then buckets[0].members
    else MembersFor(buckets[1..], key)
  }

  lemma {:induction false} PushAscends(buckets: seq<Bucket>, key: BucketKey, c: Candidate)
    requires Ascending(buckets)
    ensures Ascending(Push(buckets, key, c))
    ensures forall b | b in Push(buckets, key, c) :: b.key == key || exists a :: a in buckets && a.key == b.key
  {
    var r := Push(buckets, key, c);
    if buckets == [] || Before(key, buckets[0].key) {
      forall j | 0 < j < |r| ensures Before(key, r[j].key) {
        if j > 1 { BeforeIsStrict(key, buckets[0].key, buckets[j - 1].key); }
      }
    } else if buckets[0].key == key {
    } else {
      PushAscends(buckets[1..], key, c);
      var rest := Push(buckets[1..], key, c);
      BeforeIsStrict(key, buckets[0].key, key);
      forall j | 0 <= j < |rest| ensures Before(buckets[0].key, rest[j].key) {
        if rest[j].key != key {
          assert rest[j] in rest;
          var a :| a in buckets[1..] && a.key == rest[j].key;
        }
      }
    }
  }

  lemma {:induction false} PushMembers(buckets: seq<Bucket>, key: BucketKey, c: Candidate, other: BucketKey)
    requires Ascending(buckets)
    ensures MembersFor(Push(buckets, key, c), other)
            == MembersFor(buckets, other) + if other == key then [c] else []
  {
    var r := Push(buckets, key, c);
    if buckets == [] || Before(key, buckets[0].key) {
      assert r[1..] == buckets;
      if other == key { NotFiled(buckets, key); }
    } else if buckets[0].key == key {
      assert r[1..] == buckets[1..];
    } else {
      PushMembers(buckets[1..], key, c, other);
      assert r[1..] == Push(buckets[1..], key, c);
    }
  }

  lemma {:induction false} NotFiled(buckets: seq<Bucket>, key: BucketKey)
    requires Ascending(buckets) && (buckets != [] ==> Before(key, buckets[0].key))
    ensures MembersFor(buckets, key) == []
  {
    if buckets != [] {
      BeforeIsStrict(key, buckets[0].key, key);
      if |buckets| > 1 { BeforeIsStrict(key, buckets[0].key, buckets[1].key); }
      NotFiled(buckets[1..], key);
    }
  }

  lemma {:induction false} FiledMembers(buckets: seq<Bucket>, i: nat)
    requires Ascending(buckets) && i < |buckets|
    ensures MembersFor(buckets, buckets[i].key) == buckets[i].members
  {
    if i > 0 {
      BeforeIsStrict(buckets[0].key, buckets[i].key, buckets[i].key);
      FiledMembers(buckets[1..], i - 1);
    }
  }

  lemma {:induction false} BucketsFile(candidates: seq<Candidate>, bindings: map<Key, Binding>, key: BucketKey)
    ensures Ascending(BucketsOf(candidates, bindings))
    ensures MembersFor(BucketsOf(candidates, bindings), key) == BoundTo(candidates, bindings, key)
  {
    if candidates != [] {
      var n := |candidates| - 1;
      BucketsFile(candidates[..n], bindings, key);
      var own := BucketKeyOf(bindings, candidates[n]);
      if own.Some? {
        PushAscends(BucketsOf(candidates[..n], bindings), own.value, candidates[n]);
        PushMembers(BucketsOf(candidates[..n], bindings), own.value, candidates[n], key);
      }
    }
  }

  /** Buckets come in descending priority, then ascending group id, no key
      twice; each holds exactly its candidates, in native order. */
  lemma {:induction false} BucketsInOrder(candidates: seq<Candidate>, bindings: map<Key, Binding>)
    ensures var buckets := BucketsOf(candidates, bindings);
            && Ascending(buckets)
            && forall i | 0 <= i < |buckets| :: buckets[i].members == BoundTo(candidates, bindings, buckets[i].key)
  {
    var buckets := BucketsOf(candidates, bindings);
    BucketsFile(candidates, bindings, BucketKey(0, ""));
    forall i | 0 <= i < |buckets|
      ensures buckets[i].members == BoundTo(candidates, bindings, buckets[i].key)
    {
      BucketsFile(candidates, bindings, buckets[i].key);
      FiledMembers(buckets, i);
    }
  }

  // -------------------------------------------------------------------- slots

  /** Where bucket `b` starts; no plan enters into it. */
  function Offset(buckets: seq<Bucket>, b: nat): nat
    requires b <= |buckets|
  {
    if b == 0 then 0 else Offset(buckets, b - 1) + |buckets[b - 1].members|
  }

  lemma {:induction false} LayoutLength(buckets: seq<Bucket>, b: nat, bindings: map<Key, Binding>, world: World)
    requires b <= |buckets|
    ensures |BoundLayout(buckets[..b], bindings, world)| == Offset(buckets, b)
  {
    if b > 0 {
      assert buckets[..b][..b - 1] == buckets[..b - 1];
      LayoutLength(buckets, b - 1, bindings, world);
    }
  }

  lemma {:induction false} PrefixStays(buckets: seq<Bucket>, b: nat, n: nat, bindings: map<Key, Binding>, world: World)
    requires b <= n <= |buckets|
    ensures BoundLayout(buckets[..b], bindings, world) <= BoundLayout(buckets[..n], bindings, world)
    decreases n
  {
    if b < n {
      assert buckets[..n][..n - 1] == buckets[..n - 1];
      PrefixStays(buckets, b, n - 1, bindings, world);
    }
  }

  lemma {:induction false} BucketWithin(buckets: seq<Bucket>, b: nat, bindings: map<Key, Binding>, world: World)
    requires b < |buckets|
    ensures BoundLayout(buckets[..b], bindings, world) + BucketOrder(buckets[b], bindings, world)
            <= BoundLayout(buckets, bindings, world)
  {
    BoundStep(buckets, b, bindings, world);
    PrefixStays(buckets, b + 1, |buckets|, bindings, world);
    assert buckets[..|buckets|] == buckets;
  }

  /** Bucket `b` fills the slots from its offset in its own order: its plan's
      when one was accepted, native otherwise. What becomes of another bucket
      does not move them. */
  lemma {:induction false} SlotsOfBucket(buckets: seq<Bucket>, b: nat, bindings: map<Key, Binding>, world: World)
    requires b < |buckets|
    ensures var at := Offset(buckets, b);
            var size := |buckets[b].members|;
            at + size <= |BoundLayout(buckets, bindings, world)|
            && BoundLayout(buckets, bindings, world)[at..at + size] == BucketOrder(buckets[b], bindings, world)
  {
    LayoutLength(buckets, b, bindings, world);
    BucketWithin(buckets, b, bindings, world);
    Window(BoundLayout(buckets[..b], bindings, world), BucketOrder(buckets[b], bindings, world),
           BoundLayout(buckets, bindings, world));
  }

  lemma {:induction false} BoundStep(buckets: seq<Bucket>, b: nat, bindings: map<Key, Binding>, world: World)
    requires b < |buckets|
    ensures BoundLayout(buckets[..b + 1], bindings, world)
            == BoundLayout(buckets[..b], bindings, world) + BucketOrder(buckets[b], bindings, world)
  {
    assert buckets[..b + 1][..b] == buckets[..b];
  }

  lemma {:induction false} Window(before: seq<Candidate>, order: seq<Candidate>, all: seq<Candidate>)
    requires before + order <= all
    ensures all[|before|..|before| + |order|] == order
  {
    assert all[..|before + order|] == before + order;
  }

  // ------------------------------------------------------------------ policies

  /** All of a plan but its last directive. */
  lemma {:induction false} AllButLast(plan: seq<Directive>)
    requires plan != [] && NoDup(DirectiveKeys(plan))
    ensures var n := |plan| - 1;
            && NoDup(DirectiveKeys(plan[..n]))
            && (forall d | d in plan[..n] :: d in plan && d.candidate != plan[n].candidate)
            && (forall d | d in plan :: d == plan[n] || d in plan[..n])
            && DirectiveKeys(plan) == DirectiveKeys(plan[..n]) + [plan[n].candidate]
  {
    var n := |plan| - 1;
    var keys := DirectiveKeys(plan);
    assert keys == DirectiveKeys(plan[..n]) + [plan[n].candidate];
    forall i, j | 0 <= i < j < n ensures DirectiveKeys(plan[..n])[i] != DirectiveKeys(plan[..n])[j] {
      assert keys[i] != keys[j];
    }
    forall d | d in plan[..n] ensures d.candidate != plan[n].candidate {
      var i :| 0 <= i < n && plan[i] == d;
      assert keys[i] != keys[n];
    }
  }

  lemma {:induction false} PlanPolicyKeys(bucket: Bucket, bindings: map<Key, Binding>, plan: seq<Directive>)
    requires bucket.members != [] && NoDup(DirectiveKeys(plan))
    ensures var policies := PlanPolicies(bucket, bindings, plan);
            && (forall k | k in policies :: k in DirectiveKeys(plan))
            && (forall d | d in plan :: d.candidate in policies && policies[d.candidate].directive == d
                                        && policies[d.candidate].groupId == bucket.key.groupId)
  {
    if plan != [] {
      AllButLast(plan);
      PlanPolicyKeys(bucket, bindings, plan[..|plan| - 1]);
    }
  }

  ghost predicate Governs(bucket: Bucket, bindings: map<Key, Binding>, world: World, key: Key)
  {
    && PlanOf(bucket, bindings, world).Some? && !world.usesNativeHealth(bucket.key)
    && key in DirectiveKeys(PlanOf(bucket, bindings, world).value)
  }

  lemma {:induction false} PlannedKeys(bucket: Bucket, bindings: map<Key, Binding>, world: World, key: Key)
    requires bucket.members != [] && PlanOf(bucket, bindings, world).Some?
    ensures var plan := PlanOf(bucket, bindings, world).value;
            key in PlanPolicies(bucket, bindings, plan) <==> key in DirectiveKeys(plan)
  {
    PlanStaysValid(bucket, bindings, world);
    var plan := PlanOf(bucket, bindings, world).value;
    PlanPolicyKeys(bucket, bindings, plan);
    if key in DirectiveKeys(plan) {
      var i :| 0 <= i < |plan| && DirectiveKeys(plan)[i] == key;
      assert plan[i] in plan;
    }
  }

  lemma {:induction false} PolicyStep(buckets: seq<Bucket>, bindings: map<Key, Binding>, world: World, key: Key)
    requires buckets != [] && buckets[|buckets| - 1].members != []
    ensures key in Policies(buckets, bindings, world) <==>
      || key in Policies(buckets[..|buckets| - 1], bindings, world)
      || Governs(buckets[|buckets| - 1], bindings, world, key)
  {
    var last := buckets[|buckets| - 1];
    if PlanOf(last, bindings, world).Some? { PlannedKeys(last, bindings, world, key); }
  }

  lemma {:induction false} PolicyKeysOf(buckets: seq<Bucket>, bindings: map<Key, Binding>, world: World, key: Key)
    requires forall b | b in buckets :: b.members != []
    ensures key in Policies(buckets, bindings, world) <==> exists b :: b in buckets && Governs(b, bindings, world, key)
  {
    if buckets != [] {
      var n := |buckets| - 1;
      PolicyKeysOf(buckets[..n], bindings, world, key);
      PolicyStep(buckets, bindings, world, key);
      assert buckets[n] in buckets;
      assert forall b | b in buckets :: b == buckets[n] || b in buckets[..n];
    }
  }

  lemma {:induction false} PushFills(buckets: seq<Bucket>, key: BucketKey, c: Candidate)
    requires forall b | b in buckets :: b.members != []
    ensures forall b | b in Push(buckets, key, c) :: b.members != []
  {
    if buckets != [] && !Before(key, buckets[0].key) && buckets[0].key != key {
      assert buckets[0] in buckets;
      assert forall b | b in buckets[1..] :: b in buckets;
      PushFills(buckets[1..], key, c);
    }
  }

  lemma {:induction false} BucketsFilled(candidates: seq<Candidate>, bindings: map<Key, Binding>)
    ensures forall b | b in BucketsOf(candidates, bindings) :: b.members != []
  {
    if candidates != [] {
      var n := |candidates| - 1;
      BucketsFilled(candidates[..n], bindings);
      var key := BucketKeyOf(bindings, candidates[n]);
      if key.Some? { PushFills(BucketsOf(candidates[..n], bindings), key.value, candidates[n]); }
    }
  }

  /** In the snapshot a preparation installs, a candidate has a policy exactly when its
      bucket's plan was accepted and the plugin does not leave health to the core. */
  lemma {:induction false} PolicyKeys(candidates: seq<Candidate>, bindings: map<Key, Binding>, world: World, key: Key)
    ensures var buckets := BucketsOf(candidates, bindings);
            key in Policies(buckets, bindings, world) <==> exists b :: b in buckets && Governs(b, bindings, world, key)
  {
    BucketsFilled(candidates, bindings);
    PolicyKeysOf(BucketsOf(candidates, bindings), bindings, world, key);
  }

  // ----------------------------------------------------------- execution order

  /** Sticky candidates first, by rising rank and those of one rank in the plugin's
      order; the others after them, all in the plugin's order. When a session prefers an
      account, its candidates come before all others, and either half is so ordered. */
  lemma {:induction false} StickyFirst(plan: seq<Directive>, preferred: Option<int>, stickyRank: Key -> nat,
                                       away: bool, k: (bool, nat))
    ensures var order := ExecutionOrder(plan, preferred, stickyRank);
            && multiset(order) == multiset(plan)
            && (forall i, j | 0 <= i < j < |order| ::
                  && (Away(order[i], preferred) ==> Away(order[j], preferred))
                  && (Away(order[i], preferred) == Away(order[j], preferred) && order[j].stickiness ==>
                        order[i].stickiness && stickyRank(order[i].candidate) <= stickyRank(order[j].candidate)))
            && OneKind(order, preferred, stickyRank, away, k) == OneKind(plan, preferred, stickyRank, away, k)
  {
    var order := ExecutionOrder(plan, preferred, stickyRank);
    var sticky := ByStickiness(stickyRank);
    ExecutionOrderPermutes(plan, preferred, stickyRank);
    StickyOrders();
    SortSorts(plan, sticky, StickyLe);
    if preferred.Some? {
      var far := ByPreference(preferred.value);
      SortSortsBoth(Sort(plan, sticky, StickyLe), sticky, StickyLe, far, BoolLe);
      SortStableBoth(plan, sticky, StickyLe, far, BoolLe, k, away);
    } else {
      SortStable(plan, sticky, StickyLe, k);
    }
    forall i, j | 0 <= i < j < |order|
      ensures Away(order[i], preferred) ==> Away(order[j], preferred)
      ensures Away(order[i], preferred) == Away(order[j], preferred) ==> StickyLe(sticky(order[i]), sticky(order[j]))
    {
      if preferred.Some? {
        var far := ByPreference(preferred.value);
        assert BoolLe(far(order[i]), far(order[j]));
      }
    }
  }

  predicate Away(d: Directive, preferred: Option<int>)
  {
    preferred.Some? && d.candidate.1 != preferred.value
  }

  /** The directives of one half and of one sticky rank, in order. */
  function OneKind(plan: seq<Directive>, preferred: Option<int>, stickyRank: Key -> nat, away: bool,
                   k: (bool, nat)): seq<Directive>
  {
    var half := if preferred.None? then plan else WithKey(plan, ByPreference(preferred.value), away);
    WithKey(half, ByStickiness(stickyRank), k)
  }
}
