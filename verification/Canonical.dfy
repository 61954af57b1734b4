/** Canonical form of a message and its two hashes
    (src/conversation.rs:162-208, 250-277). */
module Canonical {
  import opened Json
  import opened StableSort
  import Text

  predicate VolatileKey(key: string)
  {
    key in {"id", "call_id", "tool_call_id", "request_id", "created_at"}
  }

  predicate Kept(key: string, removeVolatile: bool)
  {
    !(removeVolatile && VolatileKey(key))
  }

  function SortByKey(fields: Fields): Fields
  {
    Sort(fields, (f: Field) => f.0, Text.Le)
  }

  lemma {:induction false} SortByKeyElements(fields: Fields)
    ensures forall f :: f in SortByKey(fields) <==> f in fields
    ensures |SortByKey(fields)| == |fields|
  {
    SortPermutes(fields, (f: Field) => f.0, Text.Le);
    assert forall f :: f in SortByKey(fields) <==> f in multiset(SortByKey(fields));
    assert forall f :: f in fields <==> f in multiset(fields);
  }

  function Canonicalize(v: Value, removeVolatile: bool): Value
    decreases v, 1, 0
  {
    match v
    case Array(items) =>
      Array(seq(|items|, i requires 0 <= i < |items| => Canonicalize(items[i], removeVolatile)))
    case Object(fields) =>
      SortByKeyElements(fields);
      Object(CanonicalFields(SortByKey(fields), removeVolatile, v))
    case _ => v
  }

  function CanonicalFields(entries: Fields, removeVolatile: bool, ghost outer: Value): Fields
    requires forall f :: f in entries ==> f.1 < outer
    decreases outer, 0, |entries|
  {
    if entries == [] then []
    else
      (if Kept(entries[0].0, removeVolatile)
       then [(entries[0].0, Canonicalize(entries[0].1, removeVolatile))] else [])
      + CanonicalFields(entries[1..], removeVolatile, outer)
  }

  /** A key that counts when two entries are compared. */
  predicate Counts(key: string, removeVolatile: bool)
  {
    removeVolatile ==>
      key != "id" && key != "call_id" && key != "tool_call_id" && key != "request_id" && key != "created_at"
  }

  /** Equal up to the order of fields, at any depth, and (when removed) up to
      the volatile ids. Says nothing about sorting. */
  ghost predicate Same(a: Value, b: Value, removeVolatile: bool)
    decreases a
  {
    match a
    case Array(x) =>
      b.Array? && |x| == |b.items|
      && forall i :: 0 <= i < |x| ==> Same(x[i], b.items[i], removeVolatile)
    case Object(f) =>
      && b.Object?
      && (forall i :: 0 <= i < |f| && Counts(f[i].0, removeVolatile) ==> HasKey(b.fields, f[i].0))
      && (forall j :: 0 <= j < |b.fields| && Counts(b.fields[j].0, removeVolatile) ==> HasKey(f, b.fields[j].0))
      && (forall i, j ::
            0 <= i < |f| && 0 <= j < |b.fields| && f[i].0 == b.fields[j].0 && Counts(f[i].0, removeVolatile)
            ==> Same(f[i].1, b.fields[j].1, removeVolatile))
    case _ => a == b
  }

  ghost predicate HasKey(fields: Fields, key: string)
  {
    exists i :: 0 <= i < |fields| && fields[i].0 == key
  }

  ghost predicate StrictlySorted(fields: Fields)
  {
    forall i, j :: 0 <= i < j < |fields| ==> fields[i].0 != fields[j].0 && Text.Le(fields[i].0, fields[j].0)
  }

  lemma {:induction false} LeIsTotalOrder()
    ensures TotalOrder(Text.Le)
  {
    forall x, y ensures Text.Le(x, y) || Text.Le(y, x) { Text.LeTotal(x, y); }
    forall x, y | Text.Le(x, y) && Text.Le(y, x) ensures x == y { Text.LeAntisymmetric(x, y); }
    forall x, y, z | Text.Le(x, y) && Text.Le(y, z) ensures Text.Le(x, z) { Text.LeTransitive(x, y, z); }
  }

  lemma {:induction false} CountAtMostOne(a: Fields, x: Field)
    requires UniqueKeys(a)
    ensures multiset(a)[x] <= 1
  {
    if x in a {
      var p :| 0 <= p < |a| && a[p] == x;
      assert a == a[..p] + [x] + a[p + 1..];
      assert x !in a[..p] && x !in a[p + 1..];
    }
  }

  lemma {:induction false} CountTwice(b: Fields, i: nat, j: nat)
    requires i < j < |b|
    ensures b[i] == b[j] ==> multiset(b)[b[i]] >= 2
  {
    assert b == b[..i] + [b[i]] + b[i + 1..j] + [b[j]] + b[j + 1..];
  }

  lemma {:induction false} UniqueKeysPermute(a: Fields, b: Fields)
    requires UniqueKeys(a) && multiset(a) == multiset(b)
    ensures UniqueKeys(b)
  {
    forall i, j | 0 <= i < j < |b| ensures b[i].0 != b[j].0 {
      CountTwice(b, i, j);
      CountAtMostOne(a, b[i]);
      assert b[i] in multiset(a) && b[j] in multiset(a);
    }
  }

  lemma {:induction false} SortByKeyStrict(fields: Fields)
    requires UniqueKeys(fields)
    ensures StrictlySorted(SortByKey(fields))
  {
    LeIsTotalOrder();
    SortSorts(fields, (f: Field) => f.0, Text.Le);
    SortPermutes(fields, (f: Field) => f.0, Text.Le);
    UniqueKeysPermute(fields, SortByKey(fields));
  }

  ghost predicate CanonicalOf(f: Field, entry: Field, removeVolatile: bool)
  {
    Kept(entry.0, removeVolatile) && f == (entry.0, Canonicalize(entry.1, removeVolatile))
  }

  ghost predicate ComesFrom(f: Field, entries: Fields, removeVolatile: bool)
  {
    exists i :: 0 <= i < |entries| && CanonicalOf(f, entries[i], removeVolatile)
  }

  lemma {:induction false} CanonicalFieldsSound(entries: Fields, removeVolatile: bool, outer: Value)
    requires forall f :: f in entries ==> f.1 < outer
    ensures forall f | f in CanonicalFields(entries, removeVolatile, outer) :: ComesFrom(f, entries, removeVolatile)
    decreases |entries|
  {
    if entries != [] {
      CanonicalFieldsSound(entries[1..], removeVolatile, outer);
      forall f | f in CanonicalFields(entries, removeVolatile, outer)
        ensures ComesFrom(f, entries, removeVolatile)
      {
        if !CanonicalOf(f, entries[0], removeVolatile) {
          assert f in CanonicalFields(entries[1..], removeVolatile, outer);
          var i :| 0 <= i < |entries[1..]| && CanonicalOf(f, entries[1..][i], removeVolatile);
          assert CanonicalOf(f, entries[i + 1], removeVolatile);
        }
      }
    }
  }

  lemma {:induction false} CanonicalFieldsComplete(entries: Fields, removeVolatile: bool, outer: Value, i: nat)
    requires forall f :: f in entries ==> f.1 < outer
    requires i < |entries| && Kept(entries[i].0, removeVolatile)
    ensures (entries[i].0, Canonicalize(entries[i].1, removeVolatile))
            in CanonicalFields(entries, removeVolatile, outer)
    decreases |entries|
  {
    if i > 0 { CanonicalFieldsComplete(entries[1..], removeVolatile, outer, i - 1); }
  }

  lemma {:induction false} CanonicalFieldsStrict(entries: Fields, removeVolatile: bool, outer: Value)
    requires forall f :: f in entries ==> f.1 < outer
    requires StrictlySorted(entries)
    ensures StrictlySorted(CanonicalFields(entries, removeVolatile, outer))
    decreases |entries|
  {
    if entries != [] {
      var rest := CanonicalFields(entries[1..], removeVolatile, outer);
      CanonicalFieldsStrict(entries[1..], removeVolatile, outer);
      CanonicalFieldsSound(entries[1..], removeVolatile, outer);
      forall j | 0 <= j < |rest| ensures entries[0].0 != rest[j].0 && Text.Le(entries[0].0, rest[j].0) {
        assert ComesFrom(rest[j], entries[1..], removeVolatile);
        var i :| 0 <= i < |entries[1..]| && CanonicalOf(rest[j], entries[1..][i], removeVolatile);
        assert rest[j].0 == entries[i + 1].0;
      }
    }
  }

  lemma {:induction false} NoElements(b: Fields)
    ensures (forall f :: f !in b) ==> b == []
  {
    if b != [] { assert b[0] in b; }
  }

  lemma {:induction false} StrictlySortedUnique(a: Fields, b: Fields)
    requires StrictlySorted(a) && StrictlySorted(b)
    requires forall f :: f in a <==> f in b
    ensures a == b
  {
    if a == [] {
      NoElements(b);
    } else {
      assert a[0] in b;
      assert b[0] in a;
      if a[0] != b[0] { Text.LeAntisymmetric(a[0].0, b[0].0); }
      assert a == [a[0]] + a[1..] && b == [b[0]] + b[1..];
      assert a[0] !in a[1..] && a[0] !in b[1..];
      forall f ensures f in a[1..] <==> f in b[1..] {
        assert f in a <==> f == a[0] || f in a[1..];
        assert f in b <==> f == b[0] || f in b[1..];
      }
      StrictlySortedUnique(a[1..], b[1..]);
    }
  }

  lemma {:induction false} CanonicalObject(v: Value, removeVolatile: bool)
    requires v.Object? && UniqueKeys(v.fields)
    ensures var r := Canonicalize(v, removeVolatile);
            && r.Object? && StrictlySorted(r.fields)
            && (forall i | 0 <= i < |v.fields| && Kept(v.fields[i].0, removeVolatile) ::
                  (v.fields[i].0, Canonicalize(v.fields[i].1, removeVolatile)) in r.fields)
            && (forall f | f in r.fields :: ComesFrom(f, v.fields, removeVolatile))
  {
    var entries := SortByKey(v.fields);
    SortByKeyElements(v.fields);
    SortByKeyStrict(v.fields);
    CanonicalFieldsSound(entries, removeVolatile, v);
    CanonicalFieldsStrict(entries, removeVolatile, v);
    var r := Canonicalize(v, removeVolatile);
    forall i | 0 <= i < |v.fields| && Kept(v.fields[i].0, removeVolatile)
      ensures (v.fields[i].0, Canonicalize(v.fields[i].1, removeVolatile)) in r.fields
    {
      assert v.fields[i] in entries;
      var j :| 0 <= j < |entries| && entries[j] == v.fields[i];
      CanonicalFieldsComplete(entries, removeVolatile, v, j);
    }
    forall f | f in r.fields ensures ComesFrom(f, v.fields, removeVolatile) {
      var i :| 0 <= i < |entries| && CanonicalOf(f, entries[i], removeVolatile);
      assert entries[i] in v.fields;
    }
  }

  /** Two values have one canonical form exactly when they agree up to field
      order at any depth (and up to volatile ids when those are removed). */
  lemma {:induction false} CanonicalIffSame(a: Value, b: Value, removeVolatile: bool)
    requires WellFormed(a) && WellFormed(b)
    ensures Canonicalize(a, removeVolatile) == Canonicalize(b, removeVolatile) <==> Same(a, b, removeVolatile)
    decreases a
  {
    if a.Array? && b.Array? && |a.items| == |b.items| {
      forall i | 0 <= i < |a.items|
        ensures Canonicalize(a.items[i], removeVolatile) == Canonicalize(b.items[i], removeVolatile)
                <==> Same(a.items[i], b.items[i], removeVolatile)
      {
        CanonicalIffSame(a.items[i], b.items[i], removeVolatile);
      }
      var x, y := Canonicalize(a, removeVolatile), Canonicalize(b, removeVolatile);
      if x == y {
        forall i | 0 <= i < |a.items| ensures Same(a.items[i], b.items[i], removeVolatile) {
          assert x.items[i] == y.items[i];
        }
      }
    } else if a.Array? {
      var x := Canonicalize(a, removeVolatile);
      assert |x.items| == |a.items|;
    } else if a.Object? && b.Object? {
      forall i, j | 0 <= i < |a.fields| && 0 <= j < |b.fields|
        ensures Canonicalize(a.fields[i].1, removeVolatile) == Canonicalize(b.fields[j].1, removeVolatile)
                <==> Same(a.fields[i].1, b.fields[j].1, removeVolatile)
      {
        CanonicalIffSame(a.fields[i].1, b.fields[j].1, removeVolatile);
      }
      if Same(a, b, removeVolatile) {
        forall i | 0 <= i < |a.fields| && Kept(a.fields[i].0, removeVolatile)
          ensures HasPartner(a.fields[i], b.fields, removeVolatile)
        {
          var j :| 0 <= j < |b.fields| && b.fields[j].0 == a.fields[i].0;
          assert Same(a.fields[i].1, b.fields[j].1, removeVolatile);
        }
        forall j | 0 <= j < |b.fields| && Kept(b.fields[j].0, removeVolatile)
          ensures HasPartner(b.fields[j], a.fields, removeVolatile)
        {
          var i :| 0 <= i < |a.fields| && a.fields[i].0 == b.fields[j].0;
          assert Same(a.fields[i].1, b.fields[j].1, removeVolatile);
        }
        SameObjects(a, b, removeVolatile);
      }
      if Canonicalize(a, removeVolatile) == Canonicalize(b, removeVolatile) {
        EqualObjects(a, b, removeVolatile);
      }
    }
  }

  /** Each kept field of the first has a partner with the same canonical value. */
  ghost predicate Covered(f: Fields, g: Fields, removeVolatile: bool)
  {
    forall i | 0 <= i < |f| && Kept(f[i].0, removeVolatile) :: HasPartner(f[i], g, removeVolatile)
  }

  ghost predicate HasPartner(x: Field, g: Fields, removeVolatile: bool)
  {
    exists j :: 0 <= j < |g| && g[j].0 == x.0
                && Canonicalize(x.1, removeVolatile) == Canonicalize(g[j].1, removeVolatile)
  }

  lemma {:induction false} CoveredFields(a: Value, b: Value, removeVolatile: bool)
    requires a.Object? && b.Object? && UniqueKeys(a.fields) && UniqueKeys(b.fields)
    requires Covered(a.fields, b.fields, removeVolatile)
    ensures forall f | f in Canonicalize(a, removeVolatile).fields :: f in Canonicalize(b, removeVolatile).fields
  {
    CanonicalObject(a, removeVolatile);
    CanonicalObject(b, removeVolatile);
    forall f | f in Canonicalize(a, removeVolatile).fields
      ensures f in Canonicalize(b, removeVolatile).fields
    {
      var i :| 0 <= i < |a.fields| && CanonicalOf(f, a.fields[i], removeVolatile);
      assert HasPartner(a.fields[i], b.fields, removeVolatile);
    }
  }

  lemma {:induction false} SameObjects(a: Value, b: Value, removeVolatile: bool)
    requires a.Object? && b.Object? && UniqueKeys(a.fields) && UniqueKeys(b.fields)
    requires Covered(a.fields, b.fields, removeVolatile) && Covered(b.fields, a.fields, removeVolatile)
    ensures Canonicalize(a, removeVolatile) == Canonicalize(b, removeVolatile)
  {
    CanonicalObject(a, removeVolatile);
    CanonicalObject(b, removeVolatile);
    CoveredFields(a, b, removeVolatile);
    CoveredFields(b, a, removeVolatile);
    StrictlySortedUnique(Canonicalize(a, removeVolatile).fields, Canonicalize(b, removeVolatile).fields);
  }

  lemma {:induction false} EqualObjects(a: Value, b: Value, removeVolatile: bool)
    requires a.Object? && b.Object? && WellFormed(a) && WellFormed(b)
    requires Canonicalize(a, removeVolatile) == Canonicalize(b, removeVolatile)
    requires forall i, j | 0 <= i < |a.fields| && 0 <= j < |b.fields| ::
      Canonicalize(a.fields[i].1, removeVolatile) == Canonicalize(b.fields[j].1, removeVolatile)
      <==> Same(a.fields[i].1, b.fields[j].1, removeVolatile)
    ensures Same(a, b, removeVolatile)
  {
    CanonicalObject(a, removeVolatile);
    CanonicalObject(b, removeVolatile);
    var r := Canonicalize(a, removeVolatile).fields;
    forall i | 0 <= i < |a.fields| && Kept(a.fields[i].0, removeVolatile)
      ensures HasKey(b.fields, a.fields[i].0)
      ensures forall j | 0 <= j < |b.fields| && a.fields[i].0 == b.fields[j].0 ::
        Same(a.fields[i].1, b.fields[j].1, removeVolatile)
    {
      var f := (a.fields[i].0, Canonicalize(a.fields[i].1, removeVolatile));
      assert f in r;
      var k :| 0 <= k < |b.fields| && CanonicalOf(f, b.fields[k], removeVolatile);
    }
    forall j | 0 <= j < |b.fields| && Kept(b.fields[j].0, removeVolatile)
      ensures HasKey(a.fields, b.fields[j].0)
    {
      var f := (b.fields[j].0, Canonicalize(b.fields[j].1, removeVolatile));
      assert f in r;
      var k :| 0 <= k < |a.fields| && CanonicalOf(f, a.fields[k], removeVolatile);
    }
  }

  // ---------------------------------------------------------------- stripping

  function Stripped(v: Value): Value
    decreases v, 1, 0
  {
    match v
    case Array(items) => Array(seq(|items|, i requires 0 <= i < |items| => Stripped(items[i])))
    case Object(fields) => Object(StrippedFields(fields, v))
    case _ => v
  }

  function StrippedFields(fields: Fields, ghost outer: Value): Fields
    requires forall f :: f in fields ==> f.1 < outer
    decreases outer, 0, |fields|
  {
    if fields == [] then []
    else
      (if VolatileKey(fields[0].0) then [] else [(fields[0].0, Stripped(fields[0].1))])
      + StrippedFields(fields[1..], outer)
  }

  /** Stripping the canonical copy in place gives what a second canonical tree
      built without the ids would be. */
  lemma {:induction false} StripAfterCanonical(v: Value)
    ensures Stripped(Canonicalize(v, false)) == Canonicalize(v, true)
    decreases v, 1, 0
  {
    match v
    case Array(items) =>
      forall i | 0 <= i < |items| ensures Stripped(Canonicalize(items[i], false)) == Canonicalize(items[i], true) {
        StripAfterCanonical(items[i]);
      }
    case Object(fields) =>
      SortByKeyElements(fields);
      StripAfterCanonicalFields(SortByKey(fields), v, Canonicalize(v, false));
    case _ =>
  }

  lemma {:induction false} StripAfterCanonicalFields(entries: Fields, outer: Value, canonical: Value)
    requires forall f :: f in entries ==> f.1 < outer
    requires forall f :: f in CanonicalFields(entries, false, outer) ==> f.1 < canonical
    ensures StrippedFields(CanonicalFields(entries, false, outer), canonical) == CanonicalFields(entries, true, outer)
    decreases outer, 0, |entries|
  {
    if entries != [] {
      StripAfterCanonical(entries[0].1);
      var rest := CanonicalFields(entries[1..], false, outer);
      var all := CanonicalFields(entries, false, outer);
      assert all[0] == (entries[0].0, Canonicalize(entries[0].1, false)) && all[1..] == rest;
      StripAfterCanonicalFields(entries[1..], outer, canonical);
    }
  }

  lemma {:induction false} StrippedStep(slots: Fields, fields: Fields, i: nat, outer: Value)
    requires i < |fields| && forall f :: f in fields ==> f.1 < outer
    ensures slots + StrippedFields(fields[i..], outer)
            == (if VolatileKey(fields[i].0) then slots else slots + [(fields[i].0, Stripped(fields[i].1))])
               + StrippedFields(fields[i + 1..], outer)
  {
    assert fields[i..][0] == fields[i] && fields[i..][1..] == fields[i + 1..];
  }

  /** `strip_volatile_ids`: `retain` drops the volatile fields, then each
      remaining child is stripped where it stands. */
  method StripVolatileIds(value: Value) returns (stripped: Value)
    ensures stripped == Stripped(value)
    decreases value, 1
  {
    match value
    case Array(items) =>
      var slots := StripItems(items, value);
      stripped := Array(slots);
    case Object(fields) =>
      var slots := StripFields(fields, value);
      stripped := Object(slots);
    case _ =>
      stripped := value;
  }

  /** The loop over an array: each slot is stripped where it stands. */
  method StripItems(items: seq<Value>, ghost outer: Value) returns (slots: seq<Value>)
    requires forall v | v in items :: v < outer
    ensures |slots| == |items| && forall j :: 0 <= j < |items| ==> slots[j] == Stripped(items[j])
    decreases outer, 0
  {
    slots := items;
    for i := 0 to |items|
      invariant |slots| == |items|
      invariant forall j :: 0 <= j < i ==> slots[j] == Stripped(items[j])
      invariant forall j :: i <= j < |items| ==> slots[j] == items[j]
    {
      assert slots[i] in items;
      var child := StripVolatileIds(slots[i]);
      slots := slots[i := child];
    }
  }

  /** The loop over an object: volatile fields go, the others are stripped. */
  method StripFields(fields: Fields, ghost outer: Value) returns (slots: Fields)
    requires forall f :: f in fields ==> f.1 < outer
    ensures slots == StrippedFields(fields, outer)
    decreases outer, 0
  {
    slots := [];
    for i := 0 to |fields|
      invariant slots + StrippedFields(fields[i..], outer) == StrippedFields(fields, outer)
    {
      assert fields[i] in fields;
      StrippedStep(slots, fields, i, outer);
      if !VolatileKey(fields[i].0) {
        var child := StripVolatileIds(fields[i].1);
        slots := slots + [(fields[i].0, child)];
      }
    }
  }

  // ------------------------------------------------------------- consequences

  lemma {:induction false} CanonicalWellFormed(v: Value, removeVolatile: bool)
    requires WellFormed(v)
    ensures WellFormed(Canonicalize(v, removeVolatile))
    ensures Same(Canonicalize(v, removeVolatile), v, removeVolatile)
    decreases v
  {
    var r := Canonicalize(v, removeVolatile);
    match v
    case Array(items) =>
      forall i | 0 <= i < |items| ensures WellFormed(r.items[i]) && Same(r.items[i], items[i], removeVolatile) {
        CanonicalWellFormed(items[i], removeVolatile);
      }
    case Object(fields) =>
      CanonicalObject(v, removeVolatile);
      forall j | 0 <= j < |fields|
        ensures WellFormed(Canonicalize(fields[j].1, removeVolatile))
        ensures Same(Canonicalize(fields[j].1, removeVolatile), fields[j].1, removeVolatile)
      {
        CanonicalWellFormed(fields[j].1, removeVolatile);
      }
      forall i | 0 <= i < |r.fields|
        ensures WellFormed(r.fields[i].1) && HasKey(fields, r.fields[i].0)
        ensures forall j | 0 <= j < |fields| && r.fields[i].0 == fields[j].0 ::
          Same(r.fields[i].1, fields[j].1, removeVolatile)
      {
        assert ComesFrom(r.fields[i], fields, removeVolatile);
      }
      forall j | 0 <= j < |fields| && Kept(fields[j].0, removeVolatile) ensures HasKey(r.fields, fields[j].0) {
        assert (fields[j].0, Canonicalize(fields[j].1, removeVolatile)) in r.fields;
      }
    case _ =>
  }

  lemma {:induction false} CanonicalIdempotent(v: Value, removeVolatile: bool)
    requires WellFormed(v)
    ensures Canonicalize(Canonicalize(v, removeVolatile), removeVolatile) == Canonicalize(v, removeVolatile)
  {
    CanonicalWellFormed(v, removeVolatile);
    CanonicalIffSame(Canonicalize(v, removeVolatile), v, removeVolatile);
  }

  datatype SemanticAtom = SemanticAtom(
    role: string, kind: string, content: Value, contentHash: string, instanceHash: string)

  /** `atom_from_entry`. The digest of the serialized value is a parameter. */
  function AtomFromEntry(entry: Value, digest: Value -> string): SemanticAtom
  {
    var content := Canonicalize(entry, false);
    var stripped := Stripped(content);
    SemanticAtom(
      GetOr(GetStr(entry, "role"), "user"),
      GetOr(GetStr(entry, "type"), "message"),
      stripped, digest(stripped), digest(content))
  }

  /** The digest does not send these two values to one text. */
  ghost predicate NoCollision(digest: Value -> string, x: Value, y: Value)
  {
    digest(x) == digest(y) ==> x == y
  }

  /** Entries that differ only in field order and volatile ids get one content
      hash, and entries that differ only in field order one instance hash. The
      converses need the digest to tell only these two values apart. */
  lemma {:induction false} AtomHashes(a: Value, b: Value, digest: Value -> string)
    requires WellFormed(a) && WellFormed(b)
    ensures var x, y := AtomFromEntry(a, digest), AtomFromEntry(b, digest);
            && (Same(a, b, true) ==> x.contentHash == y.contentHash && x.content == y.content)
            && (Same(a, b, false) ==> x.instanceHash == y.instanceHash)
            && (x.contentHash == y.contentHash && NoCollision(digest, x.content, y.content) ==> Same(a, b, true))
            && (x.instanceHash == y.instanceHash && NoCollision(digest, Canonicalize(a, false), Canonicalize(b, false))
                ==> Same(a, b, false))
  {
    StripAfterCanonical(a);
    StripAfterCanonical(b);
    CanonicalIffSame(a, b, true);
    CanonicalIffSame(a, b, false);
  }

  /** An atom says what its entry says: whose it is and of what kind, when the entry tells,
      and its content without volatile ids; the hashes are of contents. */
  ghost predicate AtomSays(atom: SemanticAtom, entry: Value, digest: Value -> string)
  {
    && (match Get(entry, "role") case Some(String(role)) => atom.role == role case _ => atom.role == "user")
    && (match Get(entry, "type") case Some(String(kind)) => atom.kind == kind case _ => atom.kind == "message")
    && WellFormed(atom.content) && Same(atom.content, entry, true) && atom.contentHash == digest(atom.content)
    && exists whole :: WellFormed(whole) && Same(whole, entry, false) && atom.instanceHash == digest(whole)
  }

  lemma {:induction false} AtomIsTold(entry: Value, digest: Value -> string)
    requires WellFormed(entry)
    ensures AtomSays(AtomFromEntry(entry, digest), entry, digest)
  {
    var whole := Canonicalize(entry, false);
    StripAfterCanonical(entry);
    CanonicalWellFormed(entry, true);
    CanonicalWellFormed(entry, false);
    assert AtomFromEntry(entry, digest).instanceHash == digest(whole);
  }
}
