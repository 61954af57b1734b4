/** The scope that separates one strategy's transient health evidence from
    another's (src/group_routing.rs:78-114). */
module HealthScope {
  import opened Limits

  type Byte = b: int | 0 <= b < 256

  /** Little-endian bytes of a number, the low ones of a negative's complement. */
  function LittleEndian(n: int, width: nat): (bytes: seq<Byte>)
    ensures |bytes| == width
    decreases width
  {
    if width == 0 then [] else [n % 256] + LittleEndian(n / 256, width - 1)
  }

  function Pow256(n: nat): (p: int)
    ensures p >= 1
  {
    if n == 0 then 1 else 256 * Pow256(n - 1)
  }

  lemma {:induction false} LittleEndianInjective(m: int, n: int, width: nat)
    requires LittleEndian(m, width) == LittleEndian(n, width)
    requires -Pow256(width) < m - n < Pow256(width)
    ensures m == n
    decreases width
  {
    if width > 0 {
      var a, b := LittleEndian(m, width), LittleEndian(n, width);
      assert a[0] == m % 256 && b[0] == n % 256;
      assert a[1..] == LittleEndian(m / 256, width - 1) && b[1..] == LittleEndian(n / 256, width - 1);
      LittleEndianInjective(m / 256, n / 256, width - 1);
    }
  }

  /** `hash_scope_field`: the length, then the bytes. */
  function Framed(field: seq<Byte>): seq<Byte>
  {
    LittleEndian(|field|, 8) + field
  }

  /** What a hasher fed with these fields has absorbed. */
  function Absorbed(fields: seq<seq<Byte>>): seq<Byte>
  {
    if fields == [] then [] else Framed(fields[0]) + Absorbed(fields[1..])
  }

  lemma {:induction false} FramedPrefix(a: seq<Byte>, b: seq<Byte>, x: seq<Byte>, y: seq<Byte>)
    requires |a| < U64_LIMIT && |b| < U64_LIMIT
    requires Framed(a) + x == Framed(b) + y
    ensures a == b && x == y
  {
    var whole := Framed(a) + x;
    assert whole[..8] == LittleEndian(|a|, 8) && (Framed(b) + y)[..8] == LittleEndian(|b|, 8);
    assert Pow256(8) == U64_LIMIT;
    LittleEndianInjective(|a|, |b|, 8);
    assert whole[8..8 + |a|] == a && (Framed(b) + y)[8..8 + |b|] == b;
    assert whole[8 + |a|..] == x && (Framed(b) + y)[8 + |b|..] == y;
  }

  predicate Short(fields: seq<seq<Byte>>)
  {
    forall f | f in fields :: |f| < U64_LIMIT
  }

  lemma {:induction false} FirstIsFramed(fields: seq<seq<Byte>>)
    requires fields != [] && Short(fields)
    ensures |fields[0]| < U64_LIMIT && Short(fields[1..]) && fields == [fields[0]] + fields[1..]
    ensures Absorbed(fields) == Framed(fields[0]) + Absorbed(fields[1..])
    ensures |Absorbed(fields)| >= 8
  {
    assert fields[0] in fields;
  }

  /** No two lists of fields are absorbed as the same bytes, whatever the fields
      contain and however many there are. */
  lemma {:induction false} FramingInjective(a: seq<seq<Byte>>, b: seq<seq<Byte>>)
    requires Short(a) && Short(b)
    requires Absorbed(a) == Absorbed(b)
    ensures a == b
  {
    if a != [] { FirstIsFramed(a); }
    if b != [] { FirstIsFramed(b); }
    if a != [] && b != [] {
      FramedPrefix(a[0], b[0], Absorbed(a[1..]), Absorbed(b[1..]));
      FramingInjective(a[1..], b[1..]);
    }
  }

  /** What evidence belongs to: ids and texts as bytes, a signed 64-bit version and
      the serialized configuration. */
  datatype Scope = Scope(
    tenantId: seq<Byte>,
    routeId: seq<Byte>,
    groupId: seq<Byte>,
    pluginId: seq<Byte>,
    fingerprint: seq<Byte>,
    strategyVersion: int,
    config: seq<Byte>)

  function Fields(domain: seq<Byte>, s: Scope): seq<seq<Byte>>
  {
    [domain, s.tenantId, s.routeId, s.groupId, s.pluginId, s.fingerprint, LittleEndian(s.strategyVersion, 8), s.config]
  }

  predicate Encodable(s: Scope)
  {
    && -U64_LIMIT / 2 <= s.strategyVersion < U64_LIMIT / 2
    && |s.tenantId| < U64_LIMIT && |s.routeId| < U64_LIMIT && |s.groupId| < U64_LIMIT && |s.pluginId| < U64_LIMIT
    && |s.fingerprint| < U64_LIMIT && |s.config| < U64_LIMIT
  }

  lemma {:induction false} FieldsBounded(domain: seq<Byte>, s: Scope)
    requires Encodable(s) && |domain| < U64_LIMIT
    ensures Short(Fields(domain, s))
  {
  }

  lemma {:induction false} FieldsInjective(domain: seq<Byte>, a: Scope, b: Scope)
    requires Encodable(a) && Encodable(b) && Fields(domain, a) == Fields(domain, b)
    ensures a == b
  {
    var x, y := Fields(domain, a), Fields(domain, b);
    assert x[1] == y[1] && x[2] == y[2] && x[3] == y[3] && x[4] == y[4] && x[5] == y[5] && x[7] == y[7];
    assert x[6] == y[6];
    VersionInjective(a.strategyVersion, b.strategyVersion);
  }

  lemma {:induction false} VersionInjective(m: int, n: int)
    requires -U64_LIMIT < m - n < U64_LIMIT && LittleEndian(m, 8) == LittleEndian(n, 8)
    ensures m == n
  {
    assert Pow256(8) == U64_LIMIT;
    LittleEndianInjective(m, n, 8);
  }

  /** Under a digest that tells two absorbed inputs apart, two scopes share an id
      only when every part agrees. */
  lemma {:induction false} ScopeIdentity(domain: seq<Byte>, a: Scope, b: Scope, digest: seq<Byte> -> string)
    requires Encodable(a) && Encodable(b) && |domain| < U64_LIMIT
    requires digest(Absorbed(Fields(domain, a))) == digest(Absorbed(Fields(domain, b))) ==>
      Absorbed(Fields(domain, a)) == Absorbed(Fields(domain, b))
    ensures digest(Absorbed(Fields(domain, a))) == digest(Absorbed(Fields(domain, b))) <==> a == b
  {
    FieldsBounded(domain, a);
    FieldsBounded(domain, b);
    if digest(Absorbed(Fields(domain, a))) == digest(Absorbed(Fields(domain, b))) {
      FramingInjective(Fields(domain, a), Fields(domain, b));
      FieldsInjective(domain, a, b);
    }
  }
}
