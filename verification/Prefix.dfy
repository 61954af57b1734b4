/** The Merkle prefix chain over content hashes and the relation inferred from
    it (src/conversation.rs:210-248, 1602-1608). */
module Prefix {
  import opened Json

  datatype PrefixNode = PrefixNode(
    nodeHash: string, parentHash: Option<string>, atomHash: string, depth: nat)

  datatype RelationKind = Continues | Retry | Edit | Branch | Candidate

  const NUL: char := '\U{0}'

  /** What `digest_parts` feeds the hasher: parent (or "root"), NUL, atom. */
  function Framed(parent: Option<string>, atom: string): string
  {
    (if parent.Some? then parent.value else "root") + [NUL] + atom
  }

  /** The hash of the node over the first `i + 1` atoms. */
  function NodeAt(hash: string -> string, atoms: seq<string>, i: nat): string
    requires i < |atoms|
  {
    hash(Framed(if i == 0 then None else Some(NodeAt(hash, atoms, i - 1)), atoms[i]))
  }

  /** The parent the loop holds when it reaches position `i`. */
  function ParentAt(hash: string -> string, atoms: seq<string>, i: nat): Option<string>
    requires i <= |atoms|
  {
    if i == 0 then None else Some(NodeAt(hash, atoms, i - 1))
  }

  function FramedAt(hash: string -> string, atoms: seq<string>, i: nat): string
    requires i < |atoms|
  {
    Framed(ParentAt(hash, atoms, i), atoms[i])
  }

  /** One node per content hash, each naming its predecessor. */
  ghost predicate ChainOver(nodes: seq<PrefixNode>, atoms: seq<string>, hash: string -> string)
  {
    && |nodes| == |atoms|
    && forall i {:trigger nodes[i]} :: 0 <= i < |atoms| ==>
         nodes[i] == PrefixNode(NodeAt(hash, atoms, i), ParentAt(hash, atoms, i), atoms[i], i + 1)
  }

  /** `build_prefix`: one node per content hash, threading the parent. */
  method BuildPrefix(atoms: seq<string>, hash: string -> string) returns (nodes: seq<PrefixNode>)
    ensures ChainOver(nodes, atoms, hash)
  {
    nodes := [];
    var parent: Option<string> := None;
    for i := 0 to |atoms|
      invariant |nodes| == i && parent == ParentAt(hash, atoms, i)
      invariant forall j :: 0 <= j < i ==>
        nodes[j] == PrefixNode(NodeAt(hash, atoms, j), ParentAt(hash, atoms, j), atoms[j], j + 1)
    {
      var nodeHash := hash(Framed(parent, atoms[i]));
      nodes := nodes + [PrefixNode(nodeHash, parent, atoms[i], i + 1)];
      parent := Some(nodeHash);
    }
  }

  /** A digest prints as 64 characters, none of them NUL. */
  ghost predicate HexDigest(hash: string -> string)
  {
    forall s :: |hash(s)| == 64 && NUL !in hash(s)
  }

  /** No collision among the texts hashed while building these two histories.
      (No function into 64 hex digits is injective on all texts.) */
  ghost predicate NoCollision(hash: string -> string, a: seq<string>, b: seq<string>)
  {
    forall i, j {:trigger FramedAt(hash, a, i), FramedAt(hash, b, j)} | 0 <= i < |a| && 0 <= j < |b| ::
      NodeAt(hash, a, i) == NodeAt(hash, b, j) ==> FramedAt(hash, a, i) == FramedAt(hash, b, j)
  }

  /** The frame splits in one way only, and the root marker is not a digest. */
  lemma {:induction false} FramedInjective(p: Option<string>, x: string, q: Option<string>, y: string)
    requires p.Some? ==> |p.value| == 64 && NUL !in p.value
    requires q.Some? ==> |q.value| == 64 && NUL !in q.value
    ensures Framed(p, x) == Framed(q, y) <==> p == q && x == y
  {
    var s, t := Framed(p, x), Framed(q, y);
    assert s[4] == NUL <==> p.None? by { assert p.Some? ==> s[4] == p.value[4]; }
    assert t[4] == NUL <==> q.None? by { assert q.Some? ==> t[4] == q.value[4]; }
    var n := if p.Some? then 64 else 4;
    assert s[n + 1..] == x && (p.Some? ==> s[..n] == p.value);
    assert p.Some? == q.Some? ==> t[n + 1..] == y && (q.Some? ==> t[..n] == q.value);
  }

  /** Node `i` of one history is node `j` of another exactly when they stand at
      one depth over one sequence of content hashes. */
  lemma {:induction false} NodesAgree(hash: string -> string, a: seq<string>, b: seq<string>, i: nat, j: nat)
    requires HexDigest(hash) && NoCollision(hash, a, b)
    requires i < |a| && j < |b|
    ensures NodeAt(hash, a, i) == NodeAt(hash, b, j) <==> i == j && a[..i + 1] == b[..j + 1]
    decreases i
  {
    assert NodeAt(hash, a, i) == hash(FramedAt(hash, a, i)) && NodeAt(hash, b, j) == hash(FramedAt(hash, b, j));
    FramedInjective(ParentAt(hash, a, i), a[i], ParentAt(hash, b, j), b[j]);
    assert a[..i + 1] == a[..i] + [a[i]] && b[..j + 1] == b[..j] + [b[j]];
    if i > 0 && j > 0 { NodesAgree(hash, a, b, i - 1, j - 1); }
    if i == j && a[..i + 1] == b[..j + 1] {
      assert a[i] == a[..i + 1][i] == b[..j + 1][j] == b[j];
      assert a[..i] == a[..i + 1][..i] == b[..j + 1][..j] == b[..j];
    }
  }

  /** The `zip … take_while … count` of `infer_relation`. */
  function SharedCount(previous: seq<string>, current: seq<string>): (n: nat)
    ensures n <= |previous| && n <= |current|
    ensures previous[..n] == current[..n]
    ensures n < |previous| && n < |current| ==> previous[n] != current[n]
  {
    if previous == [] || current == [] || previous[0] != current[0] then 0
    else
      var n := SharedCount(previous[1..], current[1..]);
      assert previous[..n + 1] == [previous[0]] + previous[1..][..n];
      assert current[..n + 1] == [current[0]] + current[1..][..n];
      n + 1
  }

  function InferRelation(previous: seq<string>, current: seq<string>): (RelationKind, real)
  {
    var shared := SharedCount(previous, current);
    var shorter := if |previous| <= |current| then |previous| else |current|;
    if shared == |previous| && shared == |current| then (Retry, 0.98)
    else if shared == |previous| && |current| > |previous| then (Continues, 0.95)
    else if shared > 0 && shared + 1 >= shorter then (Edit, 0.82)
    else if shared >= 2 then (Branch, 0.72)
    else (Candidate, 0.35)
  }

  /** The two chains share exactly their first `SharedCount` nodes, so the count
      is the depth of the last common node of the prefix tree. */
  lemma {:induction false} SharedCountIsCommonDepth(hash: string -> string, a: seq<string>, b: seq<string>, i: nat,
                                                    j: nat)
    requires HexDigest(hash) && NoCollision(hash, a, b)
    requires i < |a| && j < |b|
    ensures NodeAt(hash, a, i) == NodeAt(hash, b, j) <==> i == j && i < SharedCount(a, b)
  {
    NodesAgree(hash, a, b, i, j);
    var n := SharedCount(a, b);
    if i == j {
      if i < n {
        assert a[..i + 1] == a[..n][..i + 1] && b[..i + 1] == b[..n][..i + 1];
      } else {
        TakeDiffers(a, b, n, i + 1);
      }
    }
  }

  /** The two sequences agree on their first `k` hashes and part there. */
  predicate PartAt(a: seq<string>, b: seq<string>, k: nat)
  {
    k < |a| && k < |b| && a[..k] == b[..k] && a[k] != b[k]
  }

  lemma {:induction false} PartAtShared(a: seq<string>, b: seq<string>, k: nat)
    requires PartAt(a, b, k)
    ensures SharedCount(a, b) == k
  {
    var n := SharedCount(a, b);
    assert forall i | 0 <= i < k :: a[i] == a[..k][i] && b[i] == b[..k][i];
    assert forall i | 0 <= i < n :: a[i] == a[..n][i] && b[i] == b[..n][i];
  }

  lemma {:induction false} PartOrPrefix(a: seq<string>, b: seq<string>)
    ensures a <= b <==> SharedCount(a, b) == |a|
    ensures b <= a <==> SharedCount(a, b) == |b|
    ensures !(a <= b) && !(b <= a) <==> PartAt(a, b, SharedCount(a, b))
  {
    var n := SharedCount(a, b);
    if n < |a| && n < |b| { TakeDiffers(a, b, n, n + 1); }
    if n == |a| { assert a[..n] == a; }
    if n == |b| { assert b[..n] == b; }
  }

  /** Each verdict and its confidence, by where the two hash sequences part. */
  lemma {:induction false} RelationMeaning(a: seq<string>, b: seq<string>)
    ensures InferRelation(a, b) == (Retry, 0.98) <==> a == b
    ensures InferRelation(a, b) == (Continues, 0.95) <==> a < b
    ensures InferRelation(a, b) == (Edit, 0.82) <==>
            (b != [] && b < a) || exists k: nat :: PartAt(a, b, k) && 1 <= k && (k + 1 == |a| || k + 1 == |b|)
    ensures InferRelation(a, b) == (Branch, 0.72) <==>
            exists k: nat :: PartAt(a, b, k) && 2 <= k && k + 1 < |a| && k + 1 < |b|
    ensures InferRelation(a, b) == (Candidate, 0.35) <==>
            (b == [] && a != []) || PartAt(a, b, 0) || (PartAt(a, b, 1) && 2 < |a| && 2 < |b|)
  {
    var n := SharedCount(a, b);
    PartOrPrefix(a, b);
    forall k: nat | PartAt(a, b, k) ensures k == n { PartAtShared(a, b, k); }
  }

  lemma {:induction false} TakeDiffers(a: seq<string>, b: seq<string>, n: nat, m: nat)
    requires n < m <= |a| && m <= |b| && a[n] != b[n]
    ensures a[..m] != b[..m]
  {
    assert a[..m][n] == a[n] && b[..m][n] == b[n];
  }
}
