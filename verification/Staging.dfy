/** Staging identities: the prefixes a cleanup may touch, the text they are
    stored as, and the retry delay (src/archive_staging.rs:24-147, 317-419;
    src/generation.rs:1617-1663). */
module Staging {
  import opened Json
  import opened Limits
  import opened Text

  /** A UUID as its 32 hexadecimal digits. */
  type Uuid = s: seq<nat> | |s| == 32 && forall i | 0 <= i < 32 :: s[i] < 16
    witness seq(32, _ => 0)

  function Pow16(n: nat): nat
  {
    if n == 0 then 1 else 16 * Pow16(n - 1)
  }

  /** A number in so many hexadecimal digits. */
  function Nibbles(n: nat, width: nat): (s: seq<nat>)
    ensures |s| == width && forall i | 0 <= i < width :: s[i] < 16
  {
    if width == 0 then [] else Nibbles(n / 16, width - 1) + [n % 16]
  }

  lemma {:induction false} NibblesInjective(m: nat, n: nat, width: nat)
    requires m < Pow16(width) && n < Pow16(width)
    requires Nibbles(m, width) == Nibbles(n, width)
    ensures m == n
  {
    if width > 0 {
      var a, b := Nibbles(m, width), Nibbles(n, width);
      assert a[..width - 1] == Nibbles(m / 16, width - 1) && b[..width - 1] == Nibbles(n / 16, width - 1);
      assert a[width - 1] == m % 16 && b[width - 1] == n % 16;
      NibblesInjective(m / 16, n / 16, width - 1);
    }
  }

  function Numbered(n: nat): Uuid
  {
    Nibbles(n, 32)
  }

  function HexDigit(n: nat): char
    requires n < 16
  {
    "0123456789abcdef"[n]
  }

  function Hex(s: seq<nat>): (r: string)
    requires forall i | 0 <= i < |s| :: s[i] < 16
    ensures |r| == |s|
  {
    seq(|s|, i requires 0 <= i < |s| => HexDigit(s[i]))
  }

  /** `Uuid::to_string`: 8-4-4-4-12 lower-case digits. */
  function Format(u: Uuid): (r: string)
    ensures |r| == 36
  {
    Hex(u[..8]) + "-" + Hex(u[8..12]) + "-" + Hex(u[12..16]) + "-" + Hex(u[16..20]) + "-" + Hex(u[20..])
  }

  lemma {:induction false} HexInjective(a: seq<nat>, b: seq<nat>)
    requires forall i | 0 <= i < |a| :: a[i] < 16
    requires forall i | 0 <= i < |b| :: b[i] < 16
    ensures Hex(a) == Hex(b) <==> a == b
  {
    if Hex(a) == Hex(b) {
      forall i | 0 <= i < |a| ensures a[i] == b[i] {
        assert Hex(a)[i] == Hex(b)[i];
      }
    }
  }

  lemma {:induction false} FormatPieces(u: Uuid)
    ensures var x := Format(u);
            && x[..8] == Hex(u[..8]) && x[9..13] == Hex(u[8..12]) && x[14..18] == Hex(u[12..16])
            && x[19..23] == Hex(u[16..20]) && x[24..] == Hex(u[20..])
    ensures u == u[..8] + u[8..12] + u[12..16] + u[16..20] + u[20..]
  {
  }

  lemma {:induction false} FormatInjective(a: Uuid, b: Uuid)
    ensures Format(a) == Format(b) <==> a == b
  {
    FormatPieces(a);
    FormatPieces(b);
    HexInjective(a[..8], b[..8]);
    HexInjective(a[8..12], b[8..12]);
    HexInjective(a[12..16], b[12..16]);
    HexInjective(a[16..20], b[16..20]);
    HexInjective(a[20..], b[20..]);
  }

  // --------------------------------------------------------------------- keys

  datatype Owner = ProxyRequest(id: Uuid) | SynchronousRequest(id: Uuid) | GenerationJob(id: Uuid)

  datatype Purpose = Request | Response | ResultBody | Assets | Media

  datatype Key = Key(owner: Owner, purpose: Purpose, attemptId: Uuid)

  function Kind(o: Owner): string
  {
    match o
    case ProxyRequest(_) => "proxy_request"
    case SynchronousRequest(_) => "synchronous_request"
    case GenerationJob(_) => "generation_job"
  }

  function PathKind(o: Owner): string
  {
    match o
    case ProxyRequest(_) => "proxy"
    case SynchronousRequest(_) => "synchronous"
    case GenerationJob(_) => "generation"
  }

  function PurposeText(p: Purpose): string
  {
    match p
    case Request => "request"
    case Response => "response"
    case ResultBody => "result"
    case Assets => "assets"
    case Media => "media"
  }

  predicate ValidOwnerPurpose(o: Owner, p: Purpose)
  {
    match o
    case ProxyRequest(_) => p.Request? || p.Response? || p.Media?
    case SynchronousRequest(_) => p.Request? || p.ResultBody? || p.Media?
    case GenerationJob(_) => p.Request? || p.Assets?
  }

  function NewKey(o: Owner, p: Purpose, attemptId: Uuid): Option<Key>
  {
    if ValidOwnerPurpose(o, p) then Some(Key(o, p, attemptId)) else None
  }

  function CanonicalPrefix(k: Key): string
  {
    var below := PurposeText(k.purpose) + "/" + Format(k.attemptId);
    "staging" + "/" + (PathKind(k.owner) + "/" + (Format(k.owner.id) + "/" + below))
  }

  predicate LocatorMatches(locator: string, prefix: string)
  {
    locator == prefix || (prefix <= locator && |locator| > |prefix| && locator[|prefix|] == '/')
  }

  // ----------------------------------------------------------------- ownership

  lemma {:induction false} HexSafe(s: seq<nat>)
    requires forall i | 0 <= i < |s| :: s[i] < 16
    ensures Safe(Hex(s))
  {
    forall c | c in Hex(s) ensures SafeChar(c) {
      var i :| 0 <= i < |s| && Hex(s)[i] == c;
      assert c in "0123456789abcdef";
    }
  }

  predicate SafeChar(c: char)
  {
    ('a' <= c <= 'z') || ('0' <= c <= '9') || c == '-' || c == '_'
  }

  predicate Safe(s: string)
  {
    forall c | c in s :: SafeChar(c)
  }

  lemma {:induction false} FormatSafe(u: Uuid)
    ensures Safe(Format(u))
  {
    HexSafe(u[..8]);
    HexSafe(u[8..12]);
    HexSafe(u[12..16]);
    HexSafe(u[16..20]);
    HexSafe(u[20..]);
  }

  function Segments(k: Key): seq<string>
  {
    ["staging", PathKind(k.owner), Format(k.owner.id), PurposeText(k.purpose), Format(k.attemptId)]
  }

  lemma {:induction false} SegmentsSafe(k: Key)
    ensures forall s | s in Segments(k) :: Safe(s) && s != ""
  {
    FormatSafe(k.owner.id);
    FormatSafe(k.attemptId);
  }

  lemma {:induction false} SegmentsInjective(a: Key, b: Key)
    ensures Segments(a) == Segments(b) <==> a == b
  {
    FormatInjective(a.owner.id, b.owner.id);
    FormatInjective(a.attemptId, b.attemptId);
    assert PathKind(a.owner)[0] == PathKind(b.owner)[0] <==> PathKind(a.owner) == PathKind(b.owner);
    if Segments(a) == Segments(b) {
      assert Segments(a)[1] == Segments(b)[1] && Segments(a)[2] == Segments(b)[2];
      assert Segments(a)[3] == Segments(b)[3] && Segments(a)[4] == Segments(b)[4];
      PurposeTextInjective(a.purpose, b.purpose);
    }
  }

  lemma {:induction false} PurposeTextInjective(a: Purpose, b: Purpose)
    ensures PurposeText(a) == PurposeText(b) <==> a == b
  {
    // The texts differ in length, or within one length in their first letter.
    var x, y := PurposeText(a), PurposeText(b);
    assert a == b || |x| != |y| || x[0] != y[0];
  }

  /** A path below a prefix splits into the prefix's five segments and the rest. */
  lemma {:induction false} SplitBelow(k: Key, rest: string)
    ensures Split(CanonicalPrefix(k)) == Segments(k)
    ensures Split(CanonicalPrefix(k) + "/" + rest) == Segments(k) + Split(rest)
  {
    SegmentsSafe(k);
    var s := Segments(k);
    assert s[0] in s && s[1] in s && s[2] in s && s[3] in s && s[4] in s;
    SplitFive(s[0], s[1], s[2], s[3], s[4], rest);
  }

  lemma {:induction false} SplitStep(a: string, t: string, segments: seq<string>, rest: string)
    requires '/' !in a
    requires Split(t) == segments && Split(t + "/" + rest) == segments + Split(rest)
    ensures Split(a + "/" + t) == [a] + segments
    ensures Split(a + "/" + t + "/" + rest) == [a] + segments + Split(rest)
  {
    SplitSegment(a, t);
    SplitSegment(a, t + "/" + rest);
    JoinedPath(a, t, rest);
  }

  lemma {:induction false} SplitFive(a: string, b: string, c: string, d: string, e: string, rest: string)
    requires '/' !in a && '/' !in b && '/' !in c && '/' !in d && '/' !in e
    ensures Split(a + "/" + (b + "/" + (c + "/" + (d + "/" + e)))) == [a, b, c, d, e]
    ensures Split(a + "/" + (b + "/" + (c + "/" + (d + "/" + e))) + "/" + rest) == [a, b, c, d, e] + Split(rest)
  {
    SplitSegment(e, rest);
    SplitStep(d, e, [e], rest);
    SplitStep(c, d + "/" + e, [d] + [e], rest);
    SplitStep(b, c + "/" + (d + "/" + e), [c] + ([d] + [e]), rest);
    SplitStep(a, b + "/" + (c + "/" + (d + "/" + e)), [b] + ([c] + ([d] + [e])), rest);
  }

  lemma {:induction false} MatchedSegments(locator: string, k: Key)
    requires LocatorMatches(locator, CanonicalPrefix(k))
    ensures Segments(k) <= Split(locator)
  {
    var p := CanonicalPrefix(k);
    SplitBelow(k, "");
    if locator != p {
      var rest := locator[|p| + 1..];
      SplitBelow(k, rest);
      assert locator == p + "/" + rest;
    }
  }

  /** No object lies under the prefixes of two staging keys, so a cleanup of one
      attempt cannot reach another's objects. */
  lemma {:induction false} OneOwner(locator: string, a: Key, b: Key)
    requires LocatorMatches(locator, CanonicalPrefix(a)) && LocatorMatches(locator, CanonicalPrefix(b))
    ensures a == b
  {
    MatchedSegments(locator, a);
    MatchedSegments(locator, b);
    assert Segments(a) == Split(locator)[..5] == Segments(b);
    SegmentsInjective(a, b);
  }

  // ------------------------------------------------------------------ database

  /** The library reads back what it prints; other spellings may also parse. */
  ghost predicate ReadsCanonical(parse: string -> Option<Uuid>)
  {
    forall u: Uuid :: parse(Format(u)) == Some(u)
  }

  function ParseCanonicalUuid(text: string, parse: string -> Option<Uuid>): Option<Uuid>
  {
    var parsed := parse(text);
    if parsed.Some? && Format(parsed.value) == text then parsed else None
  }

  function ParseOwner(kind: string, id: string, parse: string -> Option<Uuid>): Option<Owner>
  {
    var uuid := ParseCanonicalUuid(id, parse);
    if uuid.None? then None
    else if kind == "proxy_request" then Some(ProxyRequest(uuid.value))
    else if kind == "synchronous_request" then Some(SynchronousRequest(uuid.value))
    else if kind == "generation_job" then Some(GenerationJob(uuid.value))
    else None
  }

  function ParsePurpose(text: string): Option<Purpose>
  {
    if text == "request" then Some(Request)
    else if text == "response" then Some(Response)
    else if text == "result" then Some(ResultBody)
    else if text == "assets" then Some(Assets)
    else if text == "media" then Some(Media)
    else None
  }

  function FromDatabase(kind: string, ownerId: string, purpose: string, attemptId: string,
                        parse: string -> Option<Uuid>)
    : Option<Key>
  {
    var owner, parsed := ParseOwner(kind, ownerId, parse), ParsePurpose(purpose);
    var attempt := ParseCanonicalUuid(attemptId, parse);
    if owner.None? || parsed.None? || attempt.None? then None else NewKey(owner.value, parsed.value, attempt.value)
  }

  lemma {:induction false} ParseOwnerInverts(o: Owner, kind: string, id: string, parse: string -> Option<Uuid>)
    requires ReadsCanonical(parse)
    ensures ParseOwner(kind, id, parse) == Some(o) <==> kind == Kind(o) && id == Format(o.id)
  {
    assert parse(Format(o.id)) == Some(o.id);
    assert |"proxy_request"| == 13 && |"synchronous_request"| == 19 && |"generation_job"| == 14;
  }

  lemma {:induction false} ParsePurposeInverts(p: Purpose, text: string)
    ensures ParsePurpose(text) == Some(p) <==> text == PurposeText(p)
  {
    PurposeTextInjective(Request, Response);
    assert |"request"| == 7 && |"response"| == 8 && |"result"| == 6 && |"assets"| == 6 && |"media"| == 5;
    assert "result"[0] != "assets"[0];
  }

  /** Four columns load as a key exactly when they are that key's own text and
      its owner may have that purpose. */
  lemma {:induction false} DatabaseRoundTrip(k: Key, kind: string, ownerId: string, purpose: string, attemptId: string,
                                             parse: string -> Option<Uuid>)
    requires ReadsCanonical(parse)
    ensures FromDatabase(kind, ownerId, purpose, attemptId, parse) == Some(k) <==>
      && ValidOwnerPurpose(k.owner, k.purpose)
      && (kind, ownerId, purpose, attemptId)
         == (Kind(k.owner), Format(k.owner.id), PurposeText(k.purpose), Format(k.attemptId))
  {
    ParseOwnerInverts(k.owner, kind, ownerId, parse);
    ParsePurposeInverts(k.purpose, purpose);
    assert parse(Format(k.attemptId)) == Some(k.attemptId);
  }

  // ------------------------------------------------------------------ locators

  function Lower(c: char): char
  {
    if 'A' <= c <= 'Z' then (c as int + 32) as char else c
  }

  predicate HasEncodedDot(s: string)
  {
    exists i | 0 <= i < |s| - 2 :: s[i] == '%' && s[i + 1] == '2' && Lower(s[i + 2]) == 'e'
  }

  predicate Control(c: char)
  {
    c < ' ' || c == '\U{7f}'
  }

  predicate GoodSegment(s: string)
  {
    s != "" && s != "." && s != ".." && !HasEncodedDot(s)
  }

  predicate ValidObjectLocator(s: string)
  {
    && s != "" && ByteLength(s) <= 1_024
    && s[0] != '/' && s[|s| - 1] != '/' && '\\' !in s
    && (forall c | c in s :: !Control(c))
    && forall x | x in Split(s) :: GoodSegment(x)
  }

  predicate ValidBoundLocator(k: Key, locator: string)
  {
    ValidObjectLocator(locator) && LocatorMatches(locator, CanonicalPrefix(k))
  }

  predicate ValidBlake3Hex(s: string)
  {
    |s| == 64 && forall c | c in s :: ('0' <= c <= '9') || ('a' <= c <= 'f')
  }

  /** `conversation_media_locator`. */
  function MediaLocator(k: Key, blake3: string): Option<string>
  {
    if !k.purpose.Media? || !ValidBlake3Hex(blake3) then None
    else
      var locator := CanonicalPrefix(k) + "/" + blake3;
      if ValidBoundLocator(k, locator) then Some(locator) else None
  }

  lemma {:induction false} ByteLengthConcat(a: string, b: string)
    ensures ByteLength(a + b) == ByteLength(a) + ByteLength(b)
  {
    if a == "" {
      assert a + b == b;
    } else {
      ByteLengthConcat(a[1..], b);
      assert (a + b)[1..] == a[1..] + b;
    }
  }

  lemma {:induction false} AsciiLength(s: string)
    requires forall c | c in s :: c < '\U{80}'
    ensures ByteLength(s) == |s|
  {
    if s != "" {
      assert s[0] in s;
      assert forall c | c in s[1..] :: c in s;
      AsciiLength(s[1..]);
    }
  }

  lemma {:induction false} SafeSegment(s: string)
    requires Safe(s) && s != ""
    ensures GoodSegment(s)
  {
    assert s[0] in s;
    forall i | 0 <= i < |s| ensures s[i] != '%' { assert s[i] in s; }
  }

  predicate PathChar(c: char)
  {
    SafeChar(c) || c == '/'
  }

  lemma {:induction false} PrefixChars(k: Key)
    ensures forall c | c in CanonicalPrefix(k) :: PathChar(c)
    ensures |CanonicalPrefix(k)| <= 512 && CanonicalPrefix(k)[0] == 's'
  {
    SegmentsSafe(k);
    var s := Segments(k);
    assert s[0] in s && s[1] in s && s[2] in s && s[3] in s && s[4] in s;
    var d := s[3] + "/" + s[4];
    assert forall c | c in d :: PathChar(c);
    var e := s[2] + "/" + d;
    assert forall c | c in e :: PathChar(c);
    var f := s[1] + "/" + e;
    assert forall c | c in f :: PathChar(c);
    assert CanonicalPrefix(k) == s[0] + "/" + f;
    assert |s[1]| <= 11 && |s[3]| <= 8;
  }

  lemma {:induction false} PathBytes(p: string, name: string)
    requires forall c | c in p :: PathChar(c)
    requires Safe(name)
    ensures var locator := p + "/" + name;
            && ByteLength(locator) == |locator| && '\\' !in locator
            && forall c | c in locator :: !Control(c)
  {
    var locator := p + "/" + name;
    assert forall c | c in locator :: PathChar(c);
    AsciiLength(locator);
  }

  lemma {:induction false} BelowSegments(k: Key, name: string)
    requires Safe(name) && name != ""
    ensures forall x | x in Split(CanonicalPrefix(k) + "/" + name) :: GoodSegment(x)
  {
    SplitBelow(k, name);
    SegmentsSafe(k);
    assert '/' !in name;
    SplitSegment(name, "");
    forall x | x in Split(CanonicalPrefix(k) + "/" + name) ensures GoodSegment(x) {
      assert x in Segments(k) || x == name;
      SafeSegment(x);
    }
  }

  /** One safe name below a prefix is always a valid locator of that key. */
  lemma {:induction false} BelowPrefixIsValid(k: Key, name: string)
    requires Safe(name) && name != "" && |name| <= 500
    ensures ValidBoundLocator(k, CanonicalPrefix(k) + "/" + name)
    ensures forall other :: LocatorMatches(CanonicalPrefix(k) + "/" + name, CanonicalPrefix(other)) <==> other == k
  {
    var p := CanonicalPrefix(k);
    var locator := p + "/" + name;
    PrefixChars(k);
    PathBytes(p, name);
    BelowSegments(k, name);
    assert locator[|locator| - 1] == name[|name| - 1] && name[|name| - 1] in name;
    assert locator[0] == p[0] && locator[..|p|] == p;
    assert LocatorMatches(locator, p);
    forall other | LocatorMatches(locator, CanonicalPrefix(other)) ensures other == k {
      OneOwner(locator, other, k);
    }
  }

  /** The final check of `conversation_media_locator` never fails, and the object
      it names belongs to that key alone. */
  lemma {:induction false} MediaLocatorNeverRefused(k: Key, blake3: string)
    requires k.purpose.Media? && ValidBlake3Hex(blake3)
    ensures MediaLocator(k, blake3) == Some(CanonicalPrefix(k) + "/" + blake3)
    ensures forall other :: LocatorMatches(CanonicalPrefix(k) + "/" + blake3, CanonicalPrefix(other)) ==> other == k
  {
    BelowPrefixIsValid(k, blake3);
  }

  // ------------------------------------------------------------------ manifest

  datatype StagedAsset = StagedAsset(index: int, objectLocator: string, mimeType: string, sizeBytes: int)

  datatype Manifest = Manifest(attemptNonce: Uuid, billedUnits: int, assets: seq<StagedAsset>)

  const MAX_ASSET_BODY := 512 * 1024 * 1024

  /** The checked fold over sizes: negative or overflowing sums are refused. */
  function TotalSize(assets: seq<StagedAsset>): Option<int>
  {
    if assets == [] then Some(0)
    else
      var n := |assets| - 1;
      var before := TotalSize(assets[..n]);
      if before.None? || assets[n].sizeBytes < 0 || before.value + assets[n].sizeBytes >= U64_LIMIT then None
      else Some(before.value + assets[n].sizeBytes)
  }

  predicate AssetCountFits(driver: string, assets: seq<StagedAsset>)
  {
    if driver == "volcengine-seedance" || driver == "http-json" then |assets| == 1 && "video/" <= assets[0].mimeType
    else driver == "comfyui" && 1 <= |assets| <= MAX_COMFY_ASSETS
  }

  function StagingPrefix(jobId: Uuid, nonce: Uuid): string
  {
    "staging/generation/" + Format(jobId) + "/assets/" + Format(nonce)
  }

  /** `generation_staged_manifest_is_well_formed`. */
  predicate ManifestWellFormed(jobId: Uuid, driver: string, estimatedUnits: int, m: Manifest)
  {
    && 0 < m.billedUnits <= estimatedUnits
    && m.assets != [] && AssetCountFits(driver, m.assets)
    && TotalSize(m.assets).Some? && TotalSize(m.assets).value <= MAX_ASSET_BODY
    && forall i | 0 <= i < |m.assets| ::
         && m.assets[i].index == i
         && m.assets[i].sizeBytes > 0
         && m.assets[i].objectLocator == StagingPrefix(jobId, m.attemptNonce) + "/asset-" + Decimal(i)
  }

  lemma {:induction false} StagingPrefixIsCanonical(jobId: Uuid, nonce: Uuid)
    ensures StagingPrefix(jobId, nonce) == CanonicalPrefix(Key(GenerationJob(jobId), Assets, nonce))
  {
    assert "staging/generation/" == "staging" + "/" + "generation" + "/";
    assert "/assets/" == "/" + "assets" + "/";
  }

  lemma {:induction false} AssetNames(i: nat, j: nat)
    requires i < MAX_COMFY_ASSETS
    ensures Safe("asset-" + Decimal(i)) && |Decimal(i)| <= 2
    ensures "asset-" + Decimal(i) == "asset-" + Decimal(j) <==> i == j
  {
    DecimalReads(i);
    DecimalReads(j);
    assert Pow10(2) == 100;
    DecimalLength(i, 2);
    assert ("asset-" + Decimal(i))[6..] == Decimal(i) && ("asset-" + Decimal(j))[6..] == Decimal(j);
  }

  /** A well-formed manifest's objects are pairwise distinct, valid, and under no
      staging key but this job's and attempt's. */
  lemma {:induction false} ManifestObjects(jobId: Uuid, driver: string, estimatedUnits: int, m: Manifest)
    requires ManifestWellFormed(jobId, driver, estimatedUnits, m)
    ensures var key := Key(GenerationJob(jobId), Assets, m.attemptNonce);
            && NewKey(key.owner, key.purpose, key.attemptId) == Some(key)
            && (forall i, j | 0 <= i < |m.assets| && 0 <= j < |m.assets| ::
                  m.assets[i].objectLocator == m.assets[j].objectLocator <==> i == j)
            && (forall i | 0 <= i < |m.assets| :: ValidBoundLocator(key, m.assets[i].objectLocator))
            && (forall i, other | 0 <= i < |m.assets| ::
                  LocatorMatches(m.assets[i].objectLocator, CanonicalPrefix(other)) <==> other == key)
  {
    var key := Key(GenerationJob(jobId), Assets, m.attemptNonce);
    var p := CanonicalPrefix(key);
    StagingPrefixIsCanonical(jobId, m.attemptNonce);
    forall i | 0 <= i < |m.assets|
      ensures m.assets[i].objectLocator == p + "/" + ("asset-" + Decimal(i))
      ensures ValidBoundLocator(key, m.assets[i].objectLocator)
      ensures forall other :: LocatorMatches(m.assets[i].objectLocator, CanonicalPrefix(other)) <==> other == key
    {
      AssetNames(i, i);
      assert m.assets[i].objectLocator == p + "/" + ("asset-" + Decimal(i));
      BelowPrefixIsValid(key, "asset-" + Decimal(i));
    }
    forall i, j | 0 <= i < |m.assets| && 0 <= j < |m.assets|
      ensures m.assets[i].objectLocator == m.assets[j].objectLocator <==> i == j
    {
      AssetNames(i, j);
      var x, y := m.assets[i].objectLocator, m.assets[j].objectLocator;
      assert x[|p| + 1..] == "asset-" + Decimal(i) && y[|p| + 1..] == "asset-" + Decimal(j);
    }
  }

  // ------------------------------------------------------------------- backoff

  const BACKOFF_BASE := 5_000
  const BACKOFF_MAX := 6 * 60 * 60 * 1_000

  function Pow2(n: nat): (r: int)
    ensures r >= 1
  {
    if n == 0 then 1 else 2 * Pow2(n - 1)
  }

  /** `cleanup_backoff_millis`. The shift stops at 20, so nothing overflows. */
  function CleanupBackoff(failures: nat): int
  {
    var shift := if failures == 0 then 0 else if failures - 1 < 20 then failures - 1 else 20;
    var scaled := BACKOFF_BASE * Pow2(shift);
    if scaled < BACKOFF_MAX then scaled else BACKOFF_MAX
  }

  function CleanupBackoffWithJitter(sample: nat, failures: nat): int
  {
    var base := CleanupBackoff(failures);
    var bound := if base / 4 < 1 then 1 else if base / 4 > 60_000 then 60_000 else base / 4;
    var jittered := base + sample % bound;
    if jittered < BACKOFF_MAX then jittered else BACKOFF_MAX
  }

  lemma {:induction false} Pow2Above(n: nat)
    requires n >= 13
    ensures Pow2(n) >= 8192
  {
    if n > 13 { Pow2Above(n - 1); } else { assert Pow2(13) == 8 * Pow2(10) && Pow2(10) == 32 * Pow2(5); }
  }

  /** The delay starts at five seconds and doubles with each failure up to six
      hours; jitter only lengthens it, by less than a minute, and keeps the cap. */
  lemma {:induction false} BackoffDoubles(failures: nat, sample: nat)
    ensures CleanupBackoff(0) == CleanupBackoff(1) == BACKOFF_BASE
    ensures failures >= 1 ==>
      CleanupBackoff(failures + 1) ==
        if 2 * CleanupBackoff(failures) < BACKOFF_MAX then 2 * CleanupBackoff(failures) else BACKOFF_MAX
    ensures BACKOFF_BASE <= CleanupBackoff(failures) <= CleanupBackoffWithJitter(sample, failures) <= BACKOFF_MAX
    ensures CleanupBackoffWithJitter(sample, failures) < CleanupBackoff(failures) + 60_000
  {
    if failures > 13 {
      Pow2Above(if failures - 1 < 20 then failures - 1 else 20);
    }
    if failures >= 13 {
      Pow2Above(if failures < 20 then failures else 20);
    }
  }
}
