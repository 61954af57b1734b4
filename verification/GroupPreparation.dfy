/** The preparation itself: rank slots, the in-place stable sort and the policy
    snapshot (src/group_routing.rs:140-158, 327-362, 528-807). */
module GroupPreparation {
  import opened Json
  import opened StableSort
  import opened GroupRouting
  import GroupOutcome

  // -------------------------------------------------------------------- ranks

  /** The rank map holds exactly these candidates, each at its position. */
  ghost predicate Ranked(ranks: map<Key, int>, order: seq<Candidate>)
  {
    && Distinct(order)
    && (forall i | 0 <= i < |order| :: order[i].Key() in ranks && ranks[order[i].Key()] == i)
    && (forall k | k in ranks :: exists i :: 0 <= i < |order| && order[i].Key() == k)
  }

  /** `reserve_native_bucket_ranks`. */
  method ReserveNativeBucketRanks(members: seq<Candidate>, ranks: map<Key, int>, nextRank: int,
                                  ghost order: seq<Candidate>)
    returns (reserved: map<Key, int>, next: int, start: int)
    requires Ranked(ranks, order) && nextRank == |order| && Distinct(order + members)
    ensures Ranked(reserved, order + members) && next == |order + members| && start == |order|
  {
    start, next, reserved := nextRank, nextRank, ranks;
    assert forall j | 0 <= j < |order| :: (order + members)[j] == order[j];
    for i := 0 to |members|
      invariant next == |order| + i
      invariant forall k | k in reserved ::
        exists j :: 0 <= j < |order| + i && (order + members)[j].Key() == k
      invariant forall j | 0 <= j < |order| + i ::
        (order + members)[j].Key() in reserved && reserved[(order + members)[j].Key()] == j
    {
      ghost var all := order + members;
      assert all[|order| + i] == members[i];
      forall j | 0 <= j < |order| + i ensures all[j].Key() != members[i].Key() {
        assert all[j] != all[|order| + i];
      }
      reserved := reserved[members[i].Key() := next];
      next := next + 1;
    }
  }

  lemma {:induction false} SlotFacts(before: seq<Candidate>, after: seq<Candidate>)
    requires Distinct(before) && multiset(before) == multiset(after)
    ensures Distinct(after)
    ensures forall x | x in after :: x in before
    ensures forall x | x in before :: x in after
    ensures forall i, j | 0 <= i < j < |after| :: after[i].Key() != after[j].Key()
  {
    DistinctWithin(after, before);
    forall x | x in after ensures x in before { assert x in multiset(after); assert x in multiset(before); }
    forall x | x in before ensures x in after { assert x in multiset(before); assert x in multiset(after); }
  }

  function Overwritten(ranks: map<Key, int>, plan: seq<Directive>, start: int): map<Key, int>
  {
    if plan == [] then ranks
    else
      var n := |plan| - 1;
      Overwritten(ranks, plan[..n], start)[plan[n].candidate := start + n]
  }

  method OverwriteSlots(plan: seq<Directive>, ranks: map<Key, int>, start: int) returns (out: map<Key, int>)
    ensures out == Overwritten(ranks, plan, start)
  {
    out := ranks;
    for p := 0 to |plan|
      invariant out == Overwritten(ranks, plan[..p], start)
    {
      assert plan[..p + 1][..p] == plan[..p];
      out := out[plan[p].candidate := start + p];
    }
    assert plan[..|plan|] == plan;
  }

  lemma {:induction false} OverwrittenAt(ranks: map<Key, int>, plan: seq<Directive>, start: int)
    requires NoDup(DirectiveKeys(plan))
    ensures var out := Overwritten(ranks, plan, start);
            && (forall p | 0 <= p < |plan| :: plan[p].candidate in out && out[plan[p].candidate] == start + p)
            && (forall k | k !in DirectiveKeys(plan) :: (k in out <==> k in ranks) && (k in out ==> out[k] == ranks[k]))
  {
    if plan != [] {
      var n := |plan| - 1;
      assert DirectiveKeys(plan) == DirectiveKeys(plan[..n]) + [plan[n].candidate];
      assert forall p | 0 <= p < n :: DirectiveKeys(plan)[p] == plan[p].candidate == plan[..n][p].candidate;
      forall i, j | 0 <= i < j < n ensures DirectiveKeys(plan[..n])[i] != DirectiveKeys(plan[..n])[j] {
        assert DirectiveKeys(plan)[i] != DirectiveKeys(plan)[j];
      }
      OverwrittenAt(ranks, plan[..n], start);
      assert DirectiveKeys(plan)[n] == plan[n].candidate;
    }
  }

  lemma {:induction false} OldSlot(members: seq<Candidate>, plan: seq<Directive>, ranks: map<Key, int>,
                                   order: seq<Candidate>, i: nat)
    requires Ranked(ranks, order + members) && ValidPlan(members, plan)
    requires Distinct(order + InPlanOrder(members, plan)) && i < |order|
    ensures var out := Overwritten(ranks, plan, |order|);
            order[i].Key() in out && out[order[i].Key()] == i
  {
    var after := order + InPlanOrder(members, plan);
    var k := order[i].Key();
    assert ranks[(order + members)[i].Key()] == i && (order + members)[i] == order[i];
    forall p | 0 <= p < |plan| ensures plan[p].candidate != k {
      var x, y := after[i], after[|order| + p];
      assert x == order[i] && y.Key() == plan[p].candidate;
      assert x in after && y in after && x != y;
    }
    assert k !in DirectiveKeys(plan);
    OverwrittenAt(ranks, plan, |order|);
  }

  lemma {:induction false} NewSlot(members: seq<Candidate>, plan: seq<Directive>, ranks: map<Key, int>,
                                   order: seq<Candidate>, p: nat)
    requires ValidPlan(members, plan) && p < |plan|
    ensures var out, after := Overwritten(ranks, plan, |order|), InPlanOrder(members, plan);
            after[p].Key() in out && out[after[p].Key()] == |order| + p
  {
    OverwrittenAt(ranks, plan, |order|);
    assert InPlanOrder(members, plan)[p].Key() == plan[p].candidate;
  }

  lemma {:induction false} OverwrittenPositions(members: seq<Candidate>, plan: seq<Directive>, ranks: map<Key, int>,
                                                order: seq<Candidate>)
    requires Ranked(ranks, order + members) && ValidPlan(members, plan)
    requires Distinct(order + InPlanOrder(members, plan))
    ensures var out, after := Overwritten(ranks, plan, |order|), order + InPlanOrder(members, plan);
            forall i | 0 <= i < |after| :: after[i].Key() in out && out[after[i].Key()] == i
  {
    var out, after := Overwritten(ranks, plan, |order|), order + InPlanOrder(members, plan);
    forall i | 0 <= i < |after| ensures after[i].Key() in out && out[after[i].Key()] == i {
      if i < |order| {
        OldSlot(members, plan, ranks, order, i);
      } else {
        NewSlot(members, plan, ranks, order, i - |order|);
      }
    }
  }

  lemma {:induction false} OverwrittenDomain(members: seq<Candidate>, plan: seq<Directive>, ranks: map<Key, int>,
                                             order: seq<Candidate>)
    requires Ranked(ranks, order + members) && ValidPlan(members, plan)
    requires multiset(InPlanOrder(members, plan)) == multiset(members)
    ensures var after := order + InPlanOrder(members, plan);
            forall k | k in Overwritten(ranks, plan, |order|) :: exists i :: 0 <= i < |after| && after[i].Key() == k
  {
    var before, after := order + members, order + InPlanOrder(members, plan);
    SlotFacts(before, after);
    OverwrittenAt(ranks, plan, |order|);
    forall k | k in Overwritten(ranks, plan, |order|) ensures exists i :: 0 <= i < |after| && after[i].Key() == k {
      if k in DirectiveKeys(plan) {
        var p :| 0 <= p < |plan| && DirectiveKeys(plan)[p] == k;
        assert after[|order| + p].Key() == k;
      } else {
        var i :| 0 <= i < |before| && before[i].Key() == k;
        assert before[i] in after;
      }
    }
  }

  /** A planned bucket overwrites its own slots, and only those. */
  lemma {:induction false} OverwrittenRanked(members: seq<Candidate>, plan: seq<Directive>, ranks: map<Key, int>,
                                             order: seq<Candidate>)
    requires Ranked(ranks, order + members) && ValidPlan(members, plan)
    requires multiset(InPlanOrder(members, plan)) == multiset(members)
    ensures Ranked(Overwritten(ranks, plan, |order|), order + InPlanOrder(members, plan))
  {
    SlotFacts(order + members, order + InPlanOrder(members, plan));
    OverwrittenPositions(members, plan, ranks, order);
    OverwrittenDomain(members, plan, ranks, order);
  }

  function RankOf(ranks: map<Key, int>, c: Candidate): int
  {
    if c.Key() in ranks then ranks[c.Key()] else MAX_RANK
  }

  predicate IntLe(a: int, b: int) { a <= b }

  lemma {:induction false} UnboundByRank(s: seq<Candidate>, bindings: map<Key, Binding>, key: Candidate -> int)
    requires forall c | c in s :: key(c) == MAX_RANK <==> BucketKeyOf(bindings, c).None?
    ensures WithKey(s, key, MAX_RANK) == Unbound(s, bindings)
    ensures forall c | c in Unbound(s, bindings) :: c in s && BucketKeyOf(bindings, c).None?
  {
    if s != [] { UnboundByRank(s[1..], bindings, key); }
  }

  /** Bound candidates hold the places of the layout, the rest none. */
  ghost predicate SplitsInto(candidates: seq<Candidate>, bindings: map<Key, Binding>, bound: seq<Candidate>)
  {
    && Distinct(candidates) && |candidates| <= MAX_CANDIDATES
    && multiset(bound) + multiset(Unbound(candidates, bindings)) == multiset(candidates)
    && forall c | c in bound :: BucketKeyOf(bindings, c).Some?
  }

  lemma {:induction false} RanksTellBound(candidates: seq<Candidate>, bindings: map<Key, Binding>,
                                          bound: seq<Candidate>, ranks: map<Key, int>)
    requires SplitsInto(candidates, bindings, bound) && Ranked(ranks, bound)
    ensures |bound| <= MAX_CANDIDATES
    ensures forall c | c in candidates :: RankOf(ranks, c) == MAX_RANK <==> BucketKeyOf(bindings, c).None?
    ensures forall c | c in candidates && BucketKeyOf(bindings, c).Some? :: c in bound
    ensures forall i | 0 <= i < |bound| :: bound[i] in candidates && RankOf(ranks, bound[i]) == i
  {
    assert |bound| <= |candidates| by { assert |multiset(bound)| <= |multiset(candidates)|; }
    forall i | 0 <= i < |bound| ensures bound[i] in candidates {
      assert bound[i] in multiset(bound);
      assert bound[i] in multiset(candidates);
    }
    forall c | c in candidates
      ensures RankOf(ranks, c) == MAX_RANK <==> BucketKeyOf(bindings, c).None?
      ensures BucketKeyOf(bindings, c).Some? ==> c in bound
    {
      assert c.Key() in ranks ==> BucketKeyOf(bindings, c).Some? by {
        if c.Key() in ranks {
          var i :| 0 <= i < |bound| && bound[i].Key() == c.Key();
          assert bound[i] in bound;
        }
      }
      assert c in multiset(candidates);
      UnboundHas(candidates, c, bindings);
      if BucketKeyOf(bindings, c).Some? {
        assert c in multiset(bound);
        var i :| 0 <= i < |bound| && bound[i] == c;
      }
    }
  }

  lemma {:induction false} SameAtRank(candidates: seq<Candidate>, bindings: map<Key, Binding>,
                                      bound: seq<Candidate>, ranks: map<Key, int>,
                                      key: Candidate -> int, k: int)
    requires SplitsInto(candidates, bindings, bound) && Ranked(ranks, bound)
    requires forall c :: key(c) == RankOf(ranks, c)
    ensures WithKey(bound + Unbound(candidates, bindings), key, k) == WithKey(candidates, key, k)
  {
    RanksTellBound(candidates, bindings, bound, ranks);
    var rest := Unbound(candidates, bindings);
    UnboundByRank(candidates, bindings, key);
    WithKeyConcat(bound, rest, key, k);
    if 0 <= k < |bound| {
      assert bound[k] in bound;
      WithKeyNone(rest, key, k);
      WithKeySingle(bound, key, k, bound[k]);
      WithKeySingle(candidates, key, k, bound[k]);
    } else {
      WithKeyNone(bound, key, k);
      if k == MAX_RANK {
        UnboundAll(rest, bindings);
        UnboundByRank(rest, bindings, key);
      } else {
        WithKeyNone(rest, key, k);
        WithKeyNone(candidates, key, k);
      }
    }
  }

  lemma {:induction false} LayoutSorted(candidates: seq<Candidate>, bindings: map<Key, Binding>,
                                        bound: seq<Candidate>, ranks: map<Key, int>,
                                        key: Candidate -> int)
    requires SplitsInto(candidates, bindings, bound) && Ranked(ranks, bound)
    requires forall c :: key(c) == RankOf(ranks, c)
    ensures Sorted(bound + Unbound(candidates, bindings), key, IntLe)
  {
    RanksTellBound(candidates, bindings, bound, ranks);
    var rest := Unbound(candidates, bindings);
    forall i | 0 <= i < |rest| ensures key(rest[i]) == MAX_RANK {
      UnboundHas(candidates, rest[i], bindings);
    }
    var r := bound + rest;
    forall i, j | 0 <= i < j < |r| ensures IntLe(key(r[i]), key(r[j])) {
      assert key(r[i]) == (if i < |bound| then i else MAX_RANK);
      assert key(r[j]) == (if j < |bound| then j else MAX_RANK);
    }
  }

  /** Sorting by rank, unranked last, gives the bound layout and then the rest
      in native order. */
  lemma {:induction false} SortByRank(candidates: seq<Candidate>, bindings: map<Key, Binding>,
                                      bound: seq<Candidate>, ranks: map<Key, int>,
                                      key: Candidate -> int)
    requires SplitsInto(candidates, bindings, bound) && Ranked(ranks, bound)
    requires forall c :: key(c) == RankOf(ranks, c)
    ensures Sort(candidates, key, IntLe) == bound + Unbound(candidates, bindings)
  {
    LayoutSorted(candidates, bindings, bound, ranks, key);
    var r := bound + Unbound(candidates, bindings);
    forall k ensures WithKey(r, key, k) == WithKey(candidates, key, k) {
      SameAtRank(candidates, bindings, bound, ranks, key, k);
    }
    IntLeIsTotal();
    SortIs(candidates, r, key, IntLe);
  }

  lemma {:induction false} IntLeIsTotal()
    ensures TotalOrder(IntLe)
  {
  }

  lemma {:induction false} UnboundHas(s: seq<Candidate>, c: Candidate, bindings: map<Key, Binding>)
    ensures c in Unbound(s, bindings) <==> c in s && BucketKeyOf(bindings, c).None?
  {
    if s != [] { UnboundHas(s[1..], c, bindings); }
  }

  lemma {:induction false} UnboundAll(s: seq<Candidate>, bindings: map<Key, Binding>)
    requires forall c | c in s :: BucketKeyOf(bindings, c).None?
    ensures Unbound(s, bindings) == s
  {
    if s != [] { UnboundAll(s[1..], bindings); }
  }

  // -------------------------------------------------------------- preparation

  /** The request state preparation works on: the candidate slice it sorts in
      place, and the policy snapshot it installs. */
  class Request {
    var candidates: seq<Candidate>
    var groupRouting: Option<map<Key, Policy>>

    constructor (given: seq<Candidate>)
      ensures candidates == given && groupRouting == None
    {
      candidates, groupRouting := given, None;
    }

    /** `prepare`: clears the old snapshot, then runs under a deadline; an error
        or an expired deadline leaves native routing in place. */
    method Prepare(world: World)
      requires Distinct(candidates)
      modifies this
      ensures Completes(old(candidates), world) ==>
        && candidates == Layout(old(candidates), world.bindings.value, world)
        && groupRouting == Some(Policies(BucketsOf(old(candidates), world.bindings.value), world.bindings.value, world))
      ensures Completes(old(candidates), world) ==>
        && GroupOutcome.OrderedAs(candidates, old(candidates), world.bindings.value, world)
        && GroupOutcome.PoliciesAre(groupRouting.value, old(candidates), world.bindings.value, world)
      ensures !Completes(old(candidates), world) ==> candidates == old(candidates) && groupRouting == None
    {
      groupRouting := None;
      PrepareInner(world);
    }

    method PrepareInner(world: World)
      requires Distinct(candidates) && groupRouting == None
      modifies this
      ensures Completes(old(candidates), world) ==>
        && candidates == Layout(old(candidates), world.bindings.value, world)
        && groupRouting == Some(Policies(BucketsOf(old(candidates), world.bindings.value), world.bindings.value, world))
      ensures Completes(old(candidates), world) ==>
        && GroupOutcome.OrderedAs(candidates, old(candidates), world.bindings.value, world)
        && GroupOutcome.PoliciesAre(groupRouting.value, old(candidates), world.bindings.value, world)
      ensures !Completes(old(candidates), world) ==> candidates == old(candidates) && groupRouting == None
    {
      if |candidates| > MAX_CANDIDATES { return; }
      if world.dropped(0) || world.bindings.None? || world.bindings.value == map[] { return; }
      if world.dropped(1) || !world.signalsRead { return; }
      var bindings := world.bindings.value;
      var buckets := CollectBuckets(candidates, bindings);
      if world.dropped(2) { return; }
      LayoutPermutes(candidates, bindings, world);
      var planned := RankBuckets(buckets, bindings, world);
      if planned.None? { return; }
      var ranks := planned.value.0;
      var key := c => RankOf(ranks, c);
      LayoutSplits(candidates, bindings, world);
      SortByRank(candidates, bindings, BoundLayout(buckets, bindings, world), ranks, key);
      candidates := Sort(candidates, key, IntLe);
      groupRouting := Some(planned.value.1);
      GroupOutcome.LayoutIsOrdered(old(candidates), bindings, world);
      GroupOutcome.PoliciesHold(old(candidates), bindings, world);
    }
  }

  ghost predicate NoneDropped(buckets: seq<Bucket>, n: nat, bindings: map<Key, Binding>, world: World)
    requires n <= |buckets|
  {
    forall b | 0 <= b < n :: !Stops(buckets[b], b, bindings, world)
  }

  /** The future is dropped while this bucket's strategy runs. */
  predicate Stops(bucket: Bucket, b: nat, bindings: map<Key, Binding>, world: World)
  {
    Asked(bucket, bindings, world) && world.dropped(BucketAwait(b))
  }

  /** The bucket loop. Nothing comes out when the future is dropped on the way. */
  method RankBuckets(buckets: seq<Bucket>, bindings: map<Key, Binding>, world: World)
    returns (planned: Option<(map<Key, int>, map<Key, Policy>)>)
    requires Distinct(Members(buckets))
    ensures planned.Some? <==> NoneDropped(buckets, |buckets|, bindings, world)
    ensures planned.Some? ==>
      && Ranked(planned.value.0, BoundLayout(buckets, bindings, world))
      && planned.value.1 == Policies(buckets, bindings, world)
  {
    var ranks: map<Key, int>, nextRank, policies: map<Key, Policy> := map[], 0, map[];
    for b := 0 to |buckets|
      invariant Ranked(ranks, BoundLayout(buckets[..b], bindings, world))
      invariant nextRank == |BoundLayout(buckets[..b], bindings, world)|
      invariant policies == Policies(buckets[..b], bindings, world)
      invariant NoneDropped(buckets, b, bindings, world)
    {
      if Stops(buckets[b], b, bindings, world) { return None; }
      ranks, nextRank, policies := PlaceBucket(buckets, b, bindings, world, ranks, nextRank, policies);
    }
    assert buckets[..|buckets|] == buckets;
    planned := Some((ranks, policies));
  }

  /** One round of the bucket loop: reserve native slots, then let an accepted
      plan overwrite them and add its policies. */
  method PlaceBucket(buckets: seq<Bucket>, b: nat, bindings: map<Key, Binding>, world: World,
                     ranks: map<Key, int>, nextRank: int, policies: map<Key, Policy>)
    returns (placed: map<Key, int>, next: int, extended: map<Key, Policy>)
    requires b < |buckets| && Distinct(Members(buckets))
    requires Ranked(ranks, BoundLayout(buckets[..b], bindings, world))
    requires nextRank == |BoundLayout(buckets[..b], bindings, world)|
    requires policies == Policies(buckets[..b], bindings, world)
    ensures Ranked(placed, BoundLayout(buckets[..b + 1], bindings, world))
    ensures next == |BoundLayout(buckets[..b + 1], bindings, world)|
    ensures extended == Policies(buckets[..b + 1], bindings, world)
  {
    ghost var order := BoundLayout(buckets[..b], bindings, world);
    NextBucket(buckets, b, bindings, world);
    assert buckets[..b + 1][..b] == buckets[..b];
    var bucket := buckets[b];
    var start;
    placed, next, start := ReserveNativeBucketRanks(bucket.members, ranks, nextRank, order);
    extended := policies;
    var plan := PlanOf(bucket, bindings, world);
    if plan.Some? {
      PlanStaysValid(bucket, bindings, world);
      BucketOrderPermutes(bucket, bindings, world);
      OverwrittenRanked(bucket.members, plan.value, placed, order);
      placed := OverwriteSlots(plan.value, placed, start);
      if !world.usesNativeHealth(bucket.key) {
        var added := InsertPolicies(bucket, bindings, plan.value);
        extended := policies + added;
      }
    }
  }

  lemma {:induction false} LayoutSplits(candidates: seq<Candidate>, bindings: map<Key, Binding>, world: World)
    requires Distinct(candidates) && |candidates| <= MAX_CANDIDATES
    ensures SplitsInto(candidates, bindings, BoundLayout(BucketsOf(candidates, bindings), bindings, world))
  {
    BucketsPartition(candidates, bindings);
    LayoutPermutes(candidates, bindings, world);
    BoundLayoutPermutes(BucketsOf(candidates, bindings), bindings, world);
    BoundHaveBucket(candidates, bindings, world);
  }

  /** The loop that files each bound candidate under its bucket. */
  method CollectBuckets(candidates: seq<Candidate>, bindings: map<Key, Binding>) returns (buckets: seq<Bucket>)
    ensures buckets == BucketsOf(candidates, bindings)
  {
    buckets := [];
    for i := 0 to |candidates|
      invariant buckets == BucketsOf(candidates[..i], bindings)
    {
      assert candidates[..i + 1][..i] == candidates[..i];
      var key := BucketKeyOf(bindings, candidates[i]);
      if key.Some? { buckets := Push(buckets, key.value, candidates[i]); }
    }
    assert candidates[..|candidates|] == candidates;
  }

  method InsertPolicies(bucket: Bucket, bindings: map<Key, Binding>,
                        plan: seq<Directive>) returns (policies: map<Key, Policy>)
    ensures policies == PlanPolicies(bucket, bindings, plan)
  {
    policies := map[];
    if bucket.members == [] { return; }
    var first := bucket.members[0].Key();
    for p := 0 to |plan|
      invariant policies == PlanPolicies(bucket, bindings, plan[..p])
    {
      assert plan[..p + 1][..p] == plan[..p];
      policies := policies[plan[p].candidate :=
        Policy(bucket.key.groupId, if first in bindings then bindings[first].version else 0, plan[p])];
    }
    assert plan[..|plan|] == plan;
  }

  /** The next bucket's members can take the next slots. */
  lemma {:induction false} NextBucket(buckets: seq<Bucket>, b: nat, bindings: map<Key, Binding>, world: World)
    requires b < |buckets| && Distinct(Members(buckets))
    ensures Distinct(BoundLayout(buckets[..b], bindings, world) + buckets[b].members)
    ensures Distinct(buckets[b].members)
    ensures BoundLayout(buckets[..b + 1], bindings, world)
            == BoundLayout(buckets[..b], bindings, world) + BucketOrder(buckets[b], bindings, world)
  {
    assert buckets[..b + 1][..b] == buckets[..b];
    assert buckets == buckets[..b] + ([buckets[b]] + buckets[b + 1..]);
    assert ([buckets[b]] + buckets[b + 1..])[1..] == buckets[b + 1..];
    MembersConcat(buckets[..b], [buckets[b]] + buckets[b + 1..]);
    DistinctWithin(Members(buckets[..b]), Members(buckets));
    DistinctWithin(buckets[b].members, Members(buckets));
    BoundLayoutPermutes(buckets[..b], bindings, world);
    DistinctWithin(BoundLayout(buckets[..b], bindings, world) + buckets[b].members, Members(buckets));
  }

  lemma {:induction false} MembersAreBound(candidates: seq<Candidate>, bindings: map<Key, Binding>)
    ensures forall c | c in Members(BucketsOf(candidates, bindings)) :: BucketKeyOf(bindings, c).Some?
  {
    if candidates != [] {
      var n := |candidates| - 1;
      MembersAreBound(candidates[..n], bindings);
      var key := BucketKeyOf(bindings, candidates[n]);
      var before := BucketsOf(candidates[..n], bindings);
      if key.Some? {
        PushAdds(before, key.value, candidates[n]);
        forall c | c in Members(BucketsOf(candidates, bindings)) ensures BucketKeyOf(bindings, c).Some? {
          assert c in multiset(Members(before)) + multiset{candidates[n]};
        }
      }
    }
  }

  lemma {:induction false} BoundHaveBucket(candidates: seq<Candidate>, bindings: map<Key, Binding>, world: World)
    requires Distinct(candidates)
    ensures forall c | c in BoundLayout(BucketsOf(candidates, bindings), bindings, world) ::
      BucketKeyOf(bindings, c).Some?
  {
    LayoutPermutes(candidates, bindings, world);
    var buckets := BucketsOf(candidates, bindings);
    BoundLayoutPermutes(buckets, bindings, world);
    MembersAreBound(candidates, bindings);
    forall c | c in BoundLayout(buckets, bindings, world) ensures BucketKeyOf(bindings, c).Some? {
      assert c in multiset(BoundLayout(buckets, bindings, world));
      assert c in multiset(Members(buckets));
    }
  }
}
