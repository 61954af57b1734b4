/** Group routing: candidates reordered bucket by bucket, all or nothing
    (src/group_routing.rs:140-187, 327-362, 459-475, 528-548, 728-807;
    src/plugin/routing.rs:451-479). */
module GroupRouting {
  import opened Json
  import opened StableSort
  import Text

  type Key = (int, int, int)

  /** An authorized candidate: route, account and credential generation identify it. */
  datatype Candidate = Candidate(route: int, account: int, generation: int, transportRevision: int) {
    function Key(): Key { (route, account, generation) }
  }

  datatype Binding = Binding(groupId: string, priority: int, version: int)

  datatype BucketKey = BucketKey(priority: int, groupId: string)

  datatype Bucket = Bucket(key: BucketKey, members: seq<Candidate>)

  datatype Directive = Directive(candidate: Key, stickiness: bool, cooldownMs: nat)

  /** What a bucket's strategy came to: not asked (budget, scope or quota
      evidence missing), asked and failed, or an answer; a session may prefer
      one account. */
  datatype Answer = NotAsked | Failed | Planned(directives: seq<Directive>, preferred: Option<int>)

  datatype Policy = Policy(groupId: string, version: int, directive: Directive)

  /** Everything outside: the two snapshot reads, the strategies, and the awaits
      at which the request future is dropped or times out. */
  datatype World = World(
    bindings: Option<map<Key, Binding>>,
    signalsRead: bool,
    answer: Bucket -> Answer,
    usesNativeHealth: BucketKey -> bool,
    stickyRank: Key -> nat,
    dropped: nat -> bool)

  const MAX_CANDIDATES := 1024
  const MAX_RANK: int := 0xffff_ffff_ffff_ffff

  // ------------------------------------------------------------------ buckets

  /** The `BTreeMap` order: higher priority first, then group id. */
  predicate Before(a: BucketKey, b: BucketKey)
  {
    a.priority > b.priority || (a.priority == b.priority && a.groupId != b.groupId && Text.Le(a.groupId, b.groupId))
  }

  /** `entry(key).or_default().push(candidate)`. */
  function Push(buckets: seq<Bucket>, key: BucketKey, c: Candidate): seq<Bucket>
  {
    if buckets == [] || Before(key, buckets[0].key) then [Bucket(key, [c])] + buckets
    else if buckets[0].key == key then [Bucket(key, buckets[0].members + [c])] + buckets[1..]
    else [buckets[0]] + Push(buckets[1..], key, c)
  }

  function BucketKeyOf(bindings: map<Key, Binding>, c: Candidate): Option<BucketKey>
  {
    if c.Key() in bindings then Some(BucketKey(bindings[c.Key()].priority, bindings[c.Key()].groupId)) else None
  }

  function BucketsOf(candidates: seq<Candidate>, bindings: map<Key, Binding>): seq<Bucket>
  {
    if candidates == [] then []
    else
      var n := |candidates| - 1;
      var before := BucketsOf(candidates[..n], bindings);
      var key := BucketKeyOf(bindings, candidates[n]);
      if key.Some? then Push(before, key.value, candidates[n]) else before
  }

  function Unbound(candidates: seq<Candidate>, bindings: map<Key, Binding>): seq<Candidate>
  {
    if candidates == [] then []
    else
      (if BucketKeyOf(bindings, candidates[0]).None? then [candidates[0]] else [])
      + Unbound(candidates[1..], bindings)
  }

  // -------------------------------------------------------------------- plans

  function KeysOf(members: seq<Candidate>): (r: seq<Key>)
    ensures |r| == |members|
  {
    seq(|members|, i requires 0 <= i < |members| => members[i].Key())
  }

  function DirectiveKeys(plan: seq<Directive>): (r: seq<Key>)
    ensures |r| == |plan|
  {
    seq(|plan|, i requires 0 <= i < |plan| => plan[i].candidate)
  }

  /** `validate_group_routing_plan`: as many directives as candidates, each for
      a candidate of the input, none twice. */
  predicate ValidPlan(members: seq<Candidate>, plan: seq<Directive>)
  {
    && |plan| == |members|
    && (forall i | 0 <= i < |plan| :: plan[i].candidate in KeysOf(members))
    && NoDup(DirectiveKeys(plan))
  }

  function StickyKey(d: Directive, stickyRank: Key -> nat): (bool, nat)
  {
    (!d.stickiness, if d.stickiness then stickyRank(d.candidate) else 0)
  }

  predicate StickyLe(a: (bool, nat), b: (bool, nat))
  {
    (!a.0 && b.0) || (a.0 == b.0 && a.1 <= b.1)
  }

  predicate BoolLe(a: bool, b: bool)
  {
    a ==> b
  }

  function ByStickiness(stickyRank: Key -> nat): Directive -> (bool, nat)
  {
    (d: Directive) => StickyKey(d, stickyRank)
  }

  /** Not the account a session prefers. */
  function ByPreference(account: int): Directive -> bool
  {
    (d: Directive) => d.candidate.1 != account
  }

  /** `sort_execution_candidates`, then the preferred account of a session first. */
  function ExecutionOrder(plan: seq<Directive>, preferred: Option<int>, stickyRank: Key -> nat): seq<Directive>
  {
    var sticky := Sort(plan, ByStickiness(stickyRank), StickyLe);
    if preferred.None? then sticky else Sort(sticky, ByPreference(preferred.value), BoolLe)
  }

  /** The directives a bucket is ordered by, or nothing when it keeps native order. */
  function PlanOf(bucket: Bucket, bindings: map<Key, Binding>, world: World): Option<seq<Directive>>
  {
    if GroupChanged(bucket, bindings) then None
    else match world.answer(bucket)
      case Planned(directives, preferred) =>
        if ValidPlan(bucket.members, directives) then Some(ExecutionOrder(directives, preferred, world.stickyRank))
        else None
      case _ => None
  }

  /** Members read with different versions of the group. */
  predicate GroupChanged(bucket: Bucket, bindings: map<Key, Binding>)
  {
    exists i | 0 <= i < |bucket.members| ::
      bucket.members[i].Key() in bindings && bucket.members[0].Key() in bindings
      && bindings[bucket.members[i].Key()].version != bindings[bucket.members[0].Key()].version
  }

  function FindCandidate(members: seq<Candidate>, key: Key): Candidate
    requires key in KeysOf(members)
    ensures FindCandidate(members, key) in members && FindCandidate(members, key).Key() == key
  {
    if members[0].Key() == key then members[0]
    else
      assert KeysOf(members) == [members[0].Key()] + KeysOf(members[1..]);
      FindCandidate(members[1..], key)
  }

  function InPlanOrder(members: seq<Candidate>, plan: seq<Directive>): (r: seq<Candidate>)
    requires forall i | 0 <= i < |plan| :: plan[i].candidate in KeysOf(members)
    ensures |r| == |plan|
  {
    seq(|plan|, i requires 0 <= i < |plan| => FindCandidate(members, plan[i].candidate))
  }

  lemma {:induction false} StickyOrders()
    ensures TotalOrder(StickyLe) && TotalOrder(BoolLe)
  {
  }

  lemma {:induction false} ExecutionOrderPermutes(plan: seq<Directive>, preferred: Option<int>, stickyRank: Key -> nat)
    ensures multiset(ExecutionOrder(plan, preferred, stickyRank)) == multiset(plan)
    ensures |ExecutionOrder(plan, preferred, stickyRank)| == |plan|
  {
    var sticky := Sort(plan, ByStickiness(stickyRank), StickyLe);
    SortPermutes(plan, ByStickiness(stickyRank), StickyLe);
    if preferred.Some? { SortPermutes(sticky, ByPreference(preferred.value), BoolLe); }
  }

  lemma {:induction false} PlanKeysPermute(a: seq<Directive>, b: seq<Directive>)
    requires multiset(a) == multiset(b) && NoDup(DirectiveKeys(a))
    ensures NoDup(DirectiveKeys(b))
  {
    forall i, j | 0 <= i < j < |a| ensures a[i] != a[j] {
      assert DirectiveKeys(a)[i] == a[i].candidate && DirectiveKeys(a)[j] == a[j].candidate;
    }
    NoDupWithin(b, a);
    forall i, j | 0 <= i < j < |b| ensures DirectiveKeys(b)[i] != DirectiveKeys(b)[j] {
      assert b[i] in multiset(a) && b[j] in multiset(a);
      var p :| 0 <= p < |a| && a[p] == b[i];
      var q :| 0 <= q < |a| && a[q] == b[j];
      assert DirectiveKeys(a)[p] == b[i].candidate && DirectiveKeys(a)[q] == b[j].candidate;
    }
  }

  /** Reordering an accepted plan leaves it an accepted plan. */
  lemma {:induction false} PlanStaysValid(bucket: Bucket, bindings: map<Key, Binding>, world: World)
    ensures PlanOf(bucket, bindings, world).Some? ==> ValidPlan(bucket.members, PlanOf(bucket, bindings, world).value)
  {
    if PlanOf(bucket, bindings, world).Some? {
      var answer := world.answer(bucket);
      var order := ExecutionOrder(answer.directives, answer.preferred, world.stickyRank);
      ExecutionOrderPermutes(answer.directives, answer.preferred, world.stickyRank);
      PlanKeysPermute(answer.directives, order);
      forall i | 0 <= i < |order| ensures order[i].candidate in KeysOf(bucket.members) {
        assert order[i] in multiset(answer.directives);
        var p :| 0 <= p < |answer.directives| && answer.directives[p] == order[i];
      }
    }
  }

  // ------------------------------------------------------------- final layout

  function BucketOrder(bucket: Bucket, bindings: map<Key, Binding>, world: World): (r: seq<Candidate>)
    ensures |r| == |bucket.members|
  {
    PlanStaysValid(bucket, bindings, world);
    var plan := PlanOf(bucket, bindings, world);
    if plan.Some? then InPlanOrder(bucket.members, plan.value) else bucket.members
  }

  /** Buckets one after the other, each in its own order. */
  function BoundLayout(buckets: seq<Bucket>, bindings: map<Key, Binding>, world: World): seq<Candidate>
  {
    if buckets == [] then []
    else BoundLayout(buckets[..|buckets| - 1], bindings, world)
         + BucketOrder(buckets[|buckets| - 1], bindings, world)
  }

  function Layout(candidates: seq<Candidate>, bindings: map<Key, Binding>, world: World): seq<Candidate>
  {
    BoundLayout(BucketsOf(candidates, bindings), bindings, world) + Unbound(candidates, bindings)
  }

  function PlanPolicies(bucket: Bucket, bindings: map<Key, Binding>, plan: seq<Directive>): map<Key, Policy>
  {
    if plan == [] || bucket.members == [] then map[]
    else
      var last := plan[|plan| - 1];
      var first := bucket.members[0].Key();
      PlanPolicies(bucket, bindings, plan[..|plan| - 1])
      [last.candidate := Policy(bucket.key.groupId, if first in bindings then bindings[first].version else 0, last)]
  }

  /** Policies of the planned buckets that do not use native health. */
  function Policies(buckets: seq<Bucket>, bindings: map<Key, Binding>, world: World): map<Key, Policy>
  {
    if buckets == [] then map[]
    else
      var last := buckets[|buckets| - 1];
      var before := Policies(buckets[..|buckets| - 1], bindings, world);
      var plan := PlanOf(last, bindings, world);
      if plan.Some? && !world.usesNativeHealth(last.key) then before + PlanPolicies(last, bindings, plan.value)
      else before
  }

  /** The await of bucket `b` comes after the two snapshots and the quota read. */
  function BucketAwait(b: nat): nat { b + 3 }

  predicate Asked(bucket: Bucket, bindings: map<Key, Binding>, world: World)
  {
    !GroupChanged(bucket, bindings) && !world.answer(bucket).NotAsked?
  }

  /** Preparation reaches its end: nothing on the way failed or was dropped. */
  ghost predicate Completes(candidates: seq<Candidate>, world: World)
  {
    && |candidates| <= MAX_CANDIDATES
    && !world.dropped(0) && world.bindings.Some? && world.bindings.value != map[]
    && !world.dropped(1) && world.signalsRead
    && !world.dropped(2)
    && var buckets := BucketsOf(candidates, world.bindings.value);
       forall b | 0 <= b < |buckets| && Asked(buckets[b], world.bindings.value, world) :: !world.dropped(BucketAwait(b))
  }

  // -------------------------------------------------------------- permutation

  /** No candidate is listed twice and the key tells candidates apart. */
  ghost predicate Distinct(s: seq<Candidate>)
  {
    NoDup(s) && forall x, y | x in s && y in s && x.Key() == y.Key() :: x == y
  }

  lemma {:induction false} DistinctWithin(a: seq<Candidate>, b: seq<Candidate>)
    requires Distinct(b) && multiset(a) <= multiset(b)
    ensures Distinct(a)
  {
    NoDupWithin(a, b);
    forall x | x in a ensures x in b { assert x in multiset(a); assert x in multiset(b); }
  }

  lemma {:induction false} BucketOrderPermutes(bucket: Bucket, bindings: map<Key, Binding>, world: World)
    requires Distinct(bucket.members)
    ensures multiset(BucketOrder(bucket, bindings, world)) == multiset(bucket.members)
  {
    PlanStaysValid(bucket, bindings, world);
    var plan := PlanOf(bucket, bindings, world);
    if plan.Some? {
      var order := InPlanOrder(bucket.members, plan.value);
      forall i, j | 0 <= i < j < |order| ensures order[i] != order[j] {
        assert DirectiveKeys(plan.value)[i] != DirectiveKeys(plan.value)[j];
        assert order[i].Key() == plan.value[i].candidate && order[j].Key() == plan.value[j].candidate;
      }
      SameElements(order, bucket.members);
    }
  }

  function Members(buckets: seq<Bucket>): seq<Candidate>
  {
    if buckets == [] then [] else buckets[0].members + Members(buckets[1..])
  }

  lemma {:induction false} PushAdds(buckets: seq<Bucket>, key: BucketKey, c: Candidate)
    ensures multiset(Members(Push(buckets, key, c))) == multiset(Members(buckets)) + multiset{c}
  {
    var r := Push(buckets, key, c);
    if buckets == [] || Before(key, buckets[0].key) {
      assert r[1..] == buckets;
    } else if buckets[0].key == key {
      assert r[1..] == buckets[1..];
    } else {
      PushAdds(buckets[1..], key, c);
      assert r[1..] == Push(buckets[1..], key, c);
    }
  }

  lemma {:induction false} UnboundSnoc(s: seq<Candidate>, c: Candidate, bindings: map<Key, Binding>)
    ensures Unbound(s + [c], bindings) ==
      Unbound(s, bindings) + if BucketKeyOf(bindings, c).None? then [c] else []
  {
    if s == [] {
      assert s + [c] == [c] && [c][1..] == [];
    } else {
      UnboundSnoc(s[1..], c, bindings);
      assert (s + [c])[1..] == s[1..] + [c] && (s + [c])[0] == s[0];
      var head := if BucketKeyOf(bindings, s[0]).None? then [s[0]] else [];
      var last := if BucketKeyOf(bindings, c).None? then [c] else [];
      assert head + (Unbound(s[1..], bindings) + last) == head + Unbound(s[1..], bindings) + last;
    }
  }

  lemma {:induction false} BucketsSnoc(s: seq<Candidate>, c: Candidate, bindings: map<Key, Binding>)
    ensures BucketsOf(s + [c], bindings) ==
      var key := BucketKeyOf(bindings, c);
      if key.Some? then Push(BucketsOf(s, bindings), key.value, c) else BucketsOf(s, bindings)
  {
    assert (s + [c])[..|s|] == s;
  }

  lemma {:induction false} PartitionStep(s: seq<Candidate>, c: Candidate, bindings: map<Key, Binding>)
    ensures multiset(Members(BucketsOf(s + [c], bindings))) + multiset(Unbound(s + [c], bindings))
            == multiset(Members(BucketsOf(s, bindings))) + multiset(Unbound(s, bindings)) + multiset{c}
  {
    UnboundSnoc(s, c, bindings);
    BucketsSnoc(s, c, bindings);
    if BucketKeyOf(bindings, c).Some? {
      PushAdds(BucketsOf(s, bindings), BucketKeyOf(bindings, c).value, c);
      assert Unbound(s, bindings) + [] == Unbound(s, bindings);
    }
  }

  /** Every candidate is in exactly one bucket or unbound. */
  lemma {:induction false} BucketsPartition(candidates: seq<Candidate>, bindings: map<Key, Binding>)
    ensures multiset(Members(BucketsOf(candidates, bindings))) + multiset(Unbound(candidates, bindings))
            == multiset(candidates)
  {
    if candidates != [] {
      var s, c := candidates[..|candidates| - 1], candidates[|candidates| - 1];
      assert candidates == s + [c];
      BucketsPartition(s, bindings);
      PartitionStep(s, c, bindings);
      assert multiset(candidates) == multiset(s) + multiset{c};
    }
  }

  lemma {:induction false} MembersConcat(a: seq<Bucket>, b: seq<Bucket>)
    ensures Members(a + b) == Members(a) + Members(b)
  {
    if a == [] {
      assert a + b == b;
    } else {
      MembersConcat(a[1..], b);
      var rest := a[1..] + b;
      assert a + b == [a[0]] + rest && (a + b)[1..] == rest;
      assert a[0].members + (Members(a[1..]) + Members(b)) == a[0].members + Members(a[1..]) + Members(b);
    }
  }

  lemma {:induction false} BoundLayoutPermutes(buckets: seq<Bucket>, bindings: map<Key, Binding>, world: World)
    requires Distinct(Members(buckets))
    ensures multiset(BoundLayout(buckets, bindings, world)) == multiset(Members(buckets))
  {
    if buckets != [] {
      var n := |buckets| - 1;
      MembersConcat(buckets[..n], [buckets[n]]);
      assert buckets == buckets[..n] + [buckets[n]];
      assert [buckets[n]][1..] == [];
      DistinctWithin(Members(buckets[..n]), Members(buckets));
      DistinctWithin(buckets[n].members, Members(buckets));
      BoundLayoutPermutes(buckets[..n], bindings, world);
      BucketOrderPermutes(buckets[n], bindings, world);
    }
  }

  /** The final order is a permutation of the candidates. */
  lemma {:induction false} LayoutPermutes(candidates: seq<Candidate>, bindings: map<Key, Binding>, world: World)
    requires Distinct(candidates)
    ensures multiset(Layout(candidates, bindings, world)) == multiset(candidates)
    ensures Distinct(Members(BucketsOf(candidates, bindings)))
  {
    BucketsPartition(candidates, bindings);
    DistinctWithin(Members(BucketsOf(candidates, bindings)), candidates);
    BoundLayoutPermutes(BucketsOf(candidates, bindings), bindings, world);
  }
}
