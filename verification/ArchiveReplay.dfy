/** Which prefix nodes two archived conversations share, media included: a part's
    locator takes part in its turn's content hash, and a later pass takes over the
    locator its tenant already has for the bytes (src/conversation.rs:1469-1539;
    src/db/archive_staging.rs:77-121). */
module ArchiveReplay {
  import opened Json
  import opened SessionBody
  import opened ConversationArchive
  import opened MediaReuse
  import opened MediaLibrary
  import Canonical
  import Prefix
  import Staging

  predicate NoMedia(parts: seq<Part>)
  {
    forall p | 0 <= p < |parts| :: parts[p].mediaBytes.None?
  }

  /** Role and parts are equal in everything that is stored before there are locators:
      for media its type, length and hash. */
  predicate SameTurn(x: Turn, y: Turn)
  {
    x.role == y.role && ClearParts(x.parts) == ClearParts(y.parts)
  }

  /** Both maps have one locator for each media of these parts. */
  ghost predicate SameLocators(parts: seq<Part>, u: map<string, string>, v: map<string, string>, codec: Codec)
  {
    forall p | 0 <= p < |parts| && parts[p].mediaBytes.Some? ::
      var hash := codec.hash(parts[p].mediaBytes.value);
      hash in u && hash in v && u[hash] == v[hash]
  }

  // --------------------------------------------------------------- stored turns

  lemma {:induction false} StoredPartsAgree(a: seq<Turn>, b: seq<Turn>, u: map<string, string>, v: map<string, string>,
                                            codec: Codec, t: nat, p: nat)
    requires FreshTurns(a, codec) && Covered(a, u, codec) && FreshTurns(b, codec) && Covered(b, v, codec)
    requires t < |a| && t < |b| && p < |a[t].parts| && p < |b[t].parts|
    ensures var x, y := a[t].parts[p], b[t].parts[p];
            StoredTurns(a, u, codec)[t].parts[p] == StoredTurns(b, v, codec)[t].parts[p] <==>
              && x.(mediaBytes := None) == y.(mediaBytes := None)
              && (x.mediaBytes.Some? ==>
                    var hash := codec.hash(x.mediaBytes.value);
                    hash in u && hash in v && u[hash] == v[hash])
  {
    StoredPart(a, u, codec, t, p);
    StoredPart(b, v, codec, t, p);
  }

  lemma {:induction false} StoredTurnsAgree(a: seq<Turn>, b: seq<Turn>, u: map<string, string>, v: map<string, string>,
                                            codec: Codec, t: nat)
    requires FreshTurns(a, codec) && Covered(a, u, codec) && FreshTurns(b, codec) && Covered(b, v, codec)
    requires t < |a| && t < |b|
    ensures ClearParts(StoredTurns(a, u, codec)[t].parts) == ClearParts(StoredTurns(b, v, codec)[t].parts) <==>
      ClearParts(a[t].parts) == ClearParts(b[t].parts) && SameLocators(a[t].parts, u, v, codec)
  {
    var x, y := StoredTurns(a, u, codec)[t].parts, StoredTurns(b, v, codec)[t].parts;
    var m, n := a[t].parts, b[t].parts;
    assert |x| == |m| == |ClearParts(x)| == |ClearParts(m)| && |y| == |n| == |ClearParts(y)| == |ClearParts(n)|;
    if |m| == |n| {
      forall p | 0 <= p < |m|
        ensures ClearParts(x)[p] == ClearParts(y)[p] <==>
          ClearParts(m)[p] == ClearParts(n)[p] && SameLocators([m[p]], u, v, codec)
      {
        StoredPartsAgree(a, b, u, v, codec, t, p);
        StoredPart(a, u, codec, t, p);
        StoredPart(b, v, codec, t, p);
        assert ClearParts(x)[p] == x[p] && ClearParts(y)[p] == y[p];
        assert [m[p]][0] == m[p];
      }
      AllLocators(m, u, v, codec);
      if ClearParts(x) == ClearParts(y) {
        forall p | 0 <= p < |m| ensures ClearParts(m)[p] == ClearParts(n)[p] && SameLocators([m[p]], u, v, codec) {
          assert ClearParts(x)[p] == ClearParts(y)[p];
        }
      } else if ClearParts(m) == ClearParts(n) {
        var p :| 0 <= p < |m| && ClearParts(x)[p] != ClearParts(y)[p];
        assert ClearParts(m)[p] == ClearParts(n)[p];
      }
    }
  }

  lemma {:induction false} AllLocators(parts: seq<Part>, u: map<string, string>, v: map<string, string>, codec: Codec)
    ensures SameLocators(parts, u, v, codec) <==>
      forall p | 0 <= p < |parts| :: SameLocators([parts[p]], u, v, codec)
  {
    forall p | 0 <= p < |parts|
      ensures SameLocators([parts[p]], u, v, codec) <==>
        (parts[p].mediaBytes.Some? ==>
           var hash := codec.hash(parts[p].mediaBytes.value);
           hash in u && hash in v && u[hash] == v[hash])
    {
      assert [parts[p]][0] == parts[p];
    }
  }

  // --------------------------------------------------------------- shared nodes

  lemma {:induction false} TakesAgree(x: seq<string>, y: seq<string>, shared: seq<bool>, n: nat)
    requires n <= |x| && n <= |y| && n <= |shared| && forall k | 0 <= k < n :: x[k] == y[k] <==> shared[k]
    ensures x[..n] == y[..n] <==> forall k | 0 <= k < n :: shared[k]
  {
    if x[..n] == y[..n] {
      forall k | 0 <= k < n ensures shared[k] { assert x[..n][k] == y[..n][k]; }
    }
  }

  lemma {:induction false} SharedAt(x: seq<string>, y: seq<string>, shared: seq<bool>, hash: Hash, i: nat, j: nat)
    requires i < |x| == |shared| && j < |y| && forall k | 0 <= k <= i && k < |y| :: x[k] == y[k] <==> shared[k]
    requires Prefix.HexDigest(hash) && Prefix.NoCollision(hash, x, y)
    ensures Prefix.NodeAt(hash, x, i) == Prefix.NodeAt(hash, y, j) <==> i == j && forall k | 0 <= k <= i :: shared[k]
  {
    Prefix.NodesAgree(hash, x, y, i, j);
    if i == j { TakesAgree(x, y, shared, i + 1); }
  }

  /** No collision among the values and the texts that are hashed. */
  ghost predicate NoCollision(a: seq<Turn>, u: map<string, string>, b: seq<Turn>, v: map<string, string>, codec: Codec,
                              digest: Value -> string, hash: Hash)
  {
    && Prefix.HexDigest(hash)
    && Prefix.NoCollision(hash, TurnHashes(a, u, codec, digest), TurnHashes(b, v, codec, digest))
    && forall k | 0 <= k < |a| && k < |b| ::
         Canonical.NoCollision(digest, Identity(StoredTurns(a, u, codec)[k]), Identity(StoredTurns(b, v, codec)[k]))
  }

  lemma {:induction false} HashesAgree(a: seq<Turn>, u: map<string, string>, b: seq<Turn>, v: map<string, string>,
                                       codec: Codec, digest: Value -> string, hash: Hash, k: nat)
    requires FreshTurns(a, codec) && Covered(a, u, codec) && FreshTurns(b, codec) && Covered(b, v, codec)
    requires NoCollision(a, u, b, v, codec, digest, hash) && k < |a| && k < |b|
    ensures TurnHashes(a, u, codec, digest)[k] == TurnHashes(b, v, codec, digest)[k] <==>
      SameTurn(a[k], b[k]) && SameLocators(a[k].parts, u, v, codec)
  {
    TurnIdentity(StoredTurns(a, u, codec)[k], StoredTurns(b, v, codec)[k], digest);
    StoredTurnsAgree(a, b, u, v, codec, k);
  }

  /** Whatever the locators: a node is shared exactly when it stands at one depth and the
      turns up to it agree, the locators of their media included. */
  lemma {:induction false} SharedNodes(a: seq<Turn>, u: map<string, string>, b: seq<Turn>, v: map<string, string>,
                                       codec: Codec, digest: Value -> string, hash: Hash, shared: seq<bool>, i: nat,
                                       j: nat)
    requires FreshTurns(a, codec) && Covered(a, u, codec) && FreshTurns(b, codec) && Covered(b, v, codec)
    requires NoCollision(a, u, b, v, codec, digest, hash) && i < |a| == |shared| && j < |b|
    requires forall k | 0 <= k < |a| && k < |b| ::
      shared[k] <==> SameTurn(a[k], b[k]) && SameLocators(a[k].parts, u, v, codec)
    ensures Prefix.NodeAt(hash, TurnHashes(a, u, codec, digest), i)
            == Prefix.NodeAt(hash, TurnHashes(b, v, codec, digest), j)
            <==> i == j && forall k | 0 <= k <= i :: shared[k]
  {
    forall k | 0 <= k <= i && k < |b|
      ensures TurnHashes(a, u, codec, digest)[k] == TurnHashes(b, v, codec, digest)[k] <==> shared[k]
    {
      HashesAgree(a, u, b, v, codec, digest, hash, k);
    }
    SharedAt(TurnHashes(a, u, codec, digest), TurnHashes(b, v, codec, digest), shared, hash, i, j);
  }

  // ------------------------------------------------------------ two passes in a run

  /** The second pass commits some time after the first. */
  datatype Replay = Replay(w: World, s: State, a: Pass, events: seq<Event>, b: Pass)
  {
    ghost predicate Happens()
    {
      && Inv(s) && Enabled(w, s, Commit(a)) && CanRun(w, Next(w, s, Commit(a)), events)
      && Enabled(w, Later(), Commit(b))
    }

    /** The library when the second pass commits. */
    ghost function Later(): State
      requires Enabled(w, s, Commit(a)) && CanRun(w, Next(w, s, Commit(a)), events)
    {
      Run(w, Next(w, s, Commit(a)), events)
    }

    /** The locators the two passes store. */
    ghost function FirstLocators(): map<string, string>
    {
      Locators(s.rows, a)
    }

    ghost function SecondLocators(): map<string, string>
      requires Happens()
    {
      Locators(Later().rows, b)
    }

    ghost function First(): (hashes: seq<string>)
      ensures |hashes| == |a.turns|
    {
      TurnHashes(a.turns, FirstLocators(), w.codec, w.digest)
    }

    ghost function Second(): (hashes: seq<string>)
      requires Happens()
      ensures |hashes| == |b.turns|
    {
      TurnHashes(b.turns, SecondLocators(), w.codec, w.digest)
    }

    ghost predicate Distinct(hash: Hash)
      requires Happens()
    {
      NoCollision(a.turns, FirstLocators(), b.turns, SecondLocators(), w.codec, w.digest, hash)
    }

    /** The second tenant's rows still name the first pass's locator of these bytes. */
    ghost predicate Names(bytes: seq<byte>)
      requires Happens()
    {
      var h := w.codec.hash(bytes);
      h in a.uploaded && Existing(Later().rows, b.tenant, h) == Some(FirstLocators()[h])
    }

    ghost predicate StillNamed(parts: seq<Part>)
      requires Happens()
    {
      forall p | 0 <= p < |parts| && parts[p].mediaBytes.Some? :: Names(parts[p].mediaBytes.value)
    }

    ghost predicate SharesTurn(k: nat)
      requires Happens() && k < |a.turns|
    {
      k < |b.turns| && SameTurn(a.turns[k], b.turns[k]) && StillNamed(a.turns[k].parts)
    }
  }

  lemma {:induction false} NamedPart(r: Replay, k: nat, p: nat)
    requires r.Happens() && k < |r.a.turns| && k < |r.b.turns|
    requires p < |r.a.turns[k].parts| && p < |r.b.turns[k].parts| && r.a.turns[k].parts[p].mediaBytes.Some?
    requires r.a.turns[k].parts[p].(mediaBytes := None) == r.b.turns[k].parts[p].(mediaBytes := None)
    ensures var h := r.w.codec.hash(r.a.turns[k].parts[p].mediaBytes.value);
            && h in r.FirstLocators() && h in r.SecondLocators()
            && (r.FirstLocators()[h] == r.SecondLocators()[h] <==> r.Names(r.a.turns[k].parts[p].mediaBytes.value))
  {
    StoredPart(r.a.turns, r.a.uploaded, r.w.codec, k, p);
    StoredPart(r.b.turns, r.b.uploaded, r.w.codec, k, p);
    SameLocatorIff(r.w, r.s, r.a, r.events, r.b, r.w.codec.hash(r.a.turns[k].parts[p].mediaBytes.value));
  }

  lemma {:induction false} NamedLocators(r: Replay, k: nat)
    requires r.Happens() && k < |r.a.turns| && k < |r.b.turns|
    ensures r.SharesTurn(k) <==>
      && SameTurn(r.a.turns[k], r.b.turns[k])
      && SameLocators(r.a.turns[k].parts, r.FirstLocators(), r.SecondLocators(), r.w.codec)
  {
    if SameTurn(r.a.turns[k], r.b.turns[k]) {
      var x, y := r.a.turns[k].parts, r.b.turns[k].parts;
      assert |x| == |ClearParts(x)| == |ClearParts(y)| == |y|;
      forall p | 0 <= p < |x| && x[p].mediaBytes.Some?
        ensures var h := r.w.codec.hash(x[p].mediaBytes.value);
                && h in r.FirstLocators() && h in r.SecondLocators()
                && (r.FirstLocators()[h] == r.SecondLocators()[h] <==> r.Names(x[p].mediaBytes.value))
      {
        assert ClearParts(x)[p] == ClearParts(y)[p];
        NamedPart(r, k, p);
      }
    }
  }

  ghost function Shared(r: Replay): (shared: seq<bool>)
    requires r.Happens()
    ensures |shared| == |r.a.turns| && forall k | 0 <= k < |shared| :: shared[k] <==> r.SharesTurn(k)
  {
    seq(|r.a.turns|, k requires 0 <= k < |r.a.turns| && r.Happens() => r.SharesTurn(k))
  }

  /** Two archived conversations share a prefix node exactly when it stands at one depth,
      the turns up to it agree, and for each media in them the second tenant's rows
      still name the locator that the first pass stored. */
  lemma {:induction false} ReplayShares(r: Replay, hash: Hash, i: nat, j: nat)
    requires r.Happens() && r.Distinct(hash) && i < |r.a.turns| && j < |r.b.turns|
    ensures Prefix.NodeAt(hash, r.First(), i) == Prefix.NodeAt(hash, r.Second(), j) <==>
      i == j && forall k | 0 <= k <= i :: r.SharesTurn(k)
  {
    var shared := Shared(r);
    forall k | 0 <= k < |r.a.turns| && k < |r.b.turns|
      ensures shared[k] <==>
        && SameTurn(r.a.turns[k], r.b.turns[k])
        && SameLocators(r.a.turns[k].parts, r.FirstLocators(), r.SecondLocators(), r.w.codec)
    {
      NamedLocators(r, k);
    }
    LocatorsCover(r);
    SharedNodes(r.a.turns, r.FirstLocators(), r.b.turns, r.SecondLocators(), r.w.codec, r.w.digest, hash, shared, i, j);
  }

  lemma {:induction false} LocatorsCover(r: Replay)
    requires r.Happens()
    ensures FreshTurns(r.a.turns, r.w.codec) && Covered(r.a.turns, r.FirstLocators(), r.w.codec)
    ensures FreshTurns(r.b.turns, r.w.codec) && Covered(r.b.turns, r.SecondLocators(), r.w.codec)
  {
  }

  /** The tenant keeps a row of each hash of the first pass until the second commits. */
  ghost predicate KeepsRows(r: Replay)
    requires r.Happens()
  {
    r.a.tenant == r.b.tenant && forall h | h in r.a.uploaded ::
      RowKept(r.w, Next(r.w, r.s, Commit(r.a)), r.events, r.a.tenant, h)
  }

  lemma {:induction false} KeptNamed(r: Replay, k: nat)
    requires r.Happens() && k < |r.a.turns| && KeepsRows(r)
    ensures r.StillNamed(r.a.turns[k].parts)
  {
    var parts := r.a.turns[k].parts;
    forall p | 0 <= p < |parts| && parts[p].mediaBytes.Some? ensures r.Names(parts[p].mediaBytes.value) {
      StoredPart(r.a.turns, r.a.uploaded, r.w.codec, k, p);
      KeptLocator(r.w, r.s, r.a, r.events, r.w.codec.hash(parts[p].mediaBytes.value));
    }
  }

  /** In one tenant that keeps its rows media makes no difference: a node is shared
      exactly when the turns up to it agree, the hash of each media included. */
  lemma {:induction false} KeptRowsShare(r: Replay, hash: Hash, i: nat, j: nat)
    requires r.Happens() && r.Distinct(hash) && i < |r.a.turns| && j < |r.b.turns| && KeepsRows(r)
    ensures Prefix.NodeAt(hash, r.First(), i) == Prefix.NodeAt(hash, r.Second(), j) <==>
      i == j && forall k | 0 <= k <= i :: SameTurn(r.a.turns[k], r.b.turns[k])
  {
    ReplayShares(r, hash, i, j);
    if i == j {
      forall k | 0 <= k <= i ensures r.SharesTurn(k) <==> SameTurn(r.a.turns[k], r.b.turns[k]) {
        KeptNamed(r, k);
      }
    }
  }

  /** So a body that is archived again gets the same hashes, whatever attempts it was
      uploaded under. */
  lemma {:induction false} ReplayOfOneBody(r: Replay)
    requires r.Happens() && KeepsRows(r) && r.a.turns == r.b.turns && r.a.uploaded.Keys == r.b.uploaded.Keys
    ensures r.First() == r.Second()
  {
    forall h | h in r.a.uploaded ensures r.FirstLocators()[h] == r.SecondLocators()[h] {
      KeptLocator(r.w, r.s, r.a, r.events, h);
    }
    assert r.FirstLocators() == r.SecondLocators();
  }

  /** Where the second tenant has no row of the first pass's media, as another tenant
      has none at first, the chains part at the first media. */
  lemma {:induction false} NoRowsShareText(r: Replay, hash: Hash, i: nat, j: nat)
    requires r.Happens() && r.Distinct(hash) && i < |r.a.turns| && j < |r.b.turns|
    requires forall h | h in r.a.uploaded :: Existing(r.Later().rows, r.b.tenant, h).None?
    ensures Prefix.NodeAt(hash, r.First(), i) == Prefix.NodeAt(hash, r.Second(), j) <==>
      i == j && forall k | 0 <= k <= i :: SameTurn(r.a.turns[k], r.b.turns[k]) && NoMedia(r.a.turns[k].parts)
  {
    ReplayShares(r, hash, i, j);
    if i == j {
      forall k | 0 <= k <= i
        ensures r.SharesTurn(k) <==> SameTurn(r.a.turns[k], r.b.turns[k]) && NoMedia(r.a.turns[k].parts)
      {
        NotNamed(r, k);
      }
    }
  }

  lemma {:induction false} NotNamed(r: Replay, k: nat)
    requires r.Happens() && k < |r.a.turns|
    requires forall h | h in r.a.uploaded :: Existing(r.Later().rows, r.b.tenant, h).None?
    ensures r.StillNamed(r.a.turns[k].parts) <==> NoMedia(r.a.turns[k].parts)
  {
    var parts := r.a.turns[k].parts;
    forall p | 0 <= p < |parts| && parts[p].mediaBytes.Some? ensures !r.Names(parts[p].mediaBytes.value) {
      StoredPart(r.a.turns, r.a.uploaded, r.w.codec, k, p);
    }
  }

  // ---------------------------------------------------- one image, archived twice

  function ImagePass(w: World, tenant: string, turns: seq<Turn>, m: Pending, key: Staging.Key): Pass
  {
    var h := w.codec.hash(m.2);
    Pass(tenant, turns, map[h := GetOr(Staging.MediaLocator(key, h), "")], [key])
  }

  /** Turns with one media part, and what their pass is asked for. */
  ghost predicate OneImage(w: World, turns: seq<Turn>, m: Pending)
  {
    && FreshTurns(turns, w.codec) && PendingOf(turns) == [m] && Archivable(turns, m)
    && Staging.ValidBlake3Hex(w.codec.hash(m.2)) && forall v :: w.digest(v) != ""
  }

  lemma {:induction false} ImageReady(w: World, s: State, tenant: string, turns: seq<Turn>, m: Pending,
                                      key: Staging.Key)
    requires OneImage(w, turns, m) && key.purpose.Media? && key in s.phases && s.phases[key] == Writing
    requires Staging.MediaLocator(key, w.codec.hash(m.2)).Some? ==>
      Staging.MediaLocator(key, w.codec.hash(m.2)).value in s.objects
    ensures Ready(w, s, ImagePass(w, tenant, turns, m, key))
  {
    var h := w.codec.hash(m.2);
    Staging.MediaLocatorNeverRefused(key, h);
    assert [key][0] == key;
    assert Staged([key], h, Staging.MediaLocator(key, h).value);
  }

  lemma {:induction false} ImageRow(w: World, tenant: string, turns: seq<Turn>, m: Pending, key: Staging.Key)
    returns (row: MediaRow)
    requires OneImage(w, turns, m) && key.purpose.Media?
    ensures PassRows(w, map[], ImagePass(w, tenant, turns, m, key)) == [row]
    ensures Insertable(row) && row.contentBlake3 == w.codec.hash(m.2)
  {
    var pass := ImagePass(w, tenant, turns, m, key);
    var h, locators := w.codec.hash(m.2), Locators(map[], pass);
    var hashes := TurnHashes(turns, locators, w.codec, w.digest);
    assert m in PendingOf(turns);
    NoneExist(tenant, h);
    RowsMatchMedia(turns, hashes, locators, w.codec);
    row := PassRows(w, map[], pass)[0];
    assert RowFor(row, turns, hashes, m, locators, w.codec);
    RowInsertable(row, key, h);
    HashNotEmpty(turns, locators, w, m.0);
  }

  lemma {:induction false} RowInserted(tenant: string, row: MediaRow)
    requires Insertable(row)
    ensures Existing(InsertAll(map[], tenant, [row]), tenant, row.contentBlake3).Some?
  {
    var key := RowKey(tenant, row.turnId, row.partIndex);
    assert [row][..0] == [];
    assert InsertAll(map[], tenant, [row]) == InsertRow(InsertAll(map[], tenant, []), tenant, row) == map[key := row];
    assert HasHash(map[key := row], key, tenant, row.contentBlake3);
    assert row.objectLocator in LocatorsOf(map[key := row], tenant, row.contentBlake3);
  }

  lemma {:induction false} NoneExist(tenant: string, hash: string)
    ensures Existing(map[], tenant, hash).None?
  {
  }

  lemma {:induction false} HashNotEmpty(turns: seq<Turn>, locators: map<string, string>, w: World, t: nat)
    requires t < |turns| && forall v :: w.digest(v) != ""
    ensures TurnHashes(turns, locators, w.codec, w.digest)[t] != ""
  {
    IdentityFields(StoredTurns(turns, locators, w.codec)[t], w.digest);
  }

  lemma {:induction false} RowInsertable(row: MediaRow, key: Staging.Key, hash: string)
    requires key.purpose.Media? && Staging.ValidBlake3Hex(hash) && row.contentBlake3 == hash
    requires row.objectLocator == GetOr(Staging.MediaLocator(key, hash), "") && ValidType(row.mediaType)
    ensures row.turnId != "" ==> Insertable(row)
  {
    Staging.MediaLocatorNeverRefused(key, hash);
    Staging.AsciiLength(hash);
  }

  /** A second attempt for the same bytes begins and uploads them. */
  lemma {:induction false} SecondUpload(w: World, s: State, tenant: string, key: Staging.Key, h: string)
    returns (events: seq<Event>)
    requires key !in s.phases && Staging.MediaLocator(key, h).Some? && Existing(s.rows, tenant, h).Some?
    ensures CanRun(w, s, events) && RowKept(w, s, events, tenant, h)
    ensures Run(w, s, events)
            == s.(phases := s.phases[key := Writing], objects := s.objects + {Staging.MediaLocator(key, h).value})
  {
    events := [Begin(key), Upload(key, h)];
    var s1 := Next(w, s, Begin(key));
    var s2 := Next(w, s1, Upload(key, h));
    assert events[1..] == [Upload(key, h)] && events[1..][1..] == [];
    assert CanRun(w, s2, []) && CanRun(w, s1, events[1..]);
    assert Run(w, s1, events[1..]) == s2;
    assert RowKept(w, s2, [], tenant, h) && RowKept(w, s1, events[1..], tenant, h);
  }

  /** The first upload, ready to be committed and leaving a row. */
  lemma {:induction false} FirstPass(w: World, tenant: string, turns: seq<Turn>, m: Pending, key: Staging.Key)
    returns (s: State)
    requires OneImage(w, turns, m) && key.purpose.Media?
    ensures var a := ImagePass(w, tenant, turns, m, key);
            && Inv(s) && Enabled(w, s, Commit(a)) && s.phases == map[key := Writing]
            && Existing(Next(w, s, Commit(a)).rows, tenant, w.codec.hash(m.2)).Some?
  {
    Staging.MediaLocatorNeverRefused(key, w.codec.hash(m.2));
    s := State(map[], map[key := Writing], {}, {Staging.MediaLocator(key, w.codec.hash(m.2)).value});
    ImageReady(w, s, tenant, turns, m, key);
    var row := ImageRow(w, tenant, turns, m, key);
    RowInserted(tenant, row);
  }

  /** The premises can be met: one tenant archives a conversation with an image twice,
      under two attempts, and the row of the image is kept. */
  lemma {:induction false} ReplayedImage(w: World, tenant: string, turns: seq<Turn>, m: Pending, first: Staging.Key,
                                         second: Staging.Key) returns (r: Replay)
    requires OneImage(w, turns, m) && first.purpose.Media? && second.purpose.Media? && first != second
    ensures r.Happens() && KeepsRows(r) && r.a.turns == r.b.turns == turns
    ensures r.a.keys == [first] && r.b.keys == [second] && r.a.uploaded.Keys == r.b.uploaded.Keys
  {
    var s := FirstPass(w, tenant, turns, m, first);
    r := SecondPass(w, s, ImagePass(w, tenant, turns, m, first), turns, m, second);
  }

  lemma {:induction false} SecondPass(w: World, s: State, a: Pass, turns: seq<Turn>, m: Pending, key: Staging.Key)
    returns (r: Replay)
    requires OneImage(w, turns, m) && key.purpose.Media? && key !in s.phases && Inv(s) && Enabled(w, s, Commit(a))
    requires a.uploaded.Keys == {w.codec.hash(m.2)}
    requires Existing(Next(w, s, Commit(a)).rows, a.tenant, w.codec.hash(m.2)).Some?
    ensures r.Happens() && KeepsRows(r) && r.w == w && r.s == s && r.a == a
    ensures r.b == ImagePass(w, a.tenant, turns, m, key)
  {
    var h := w.codec.hash(m.2);
    Staging.MediaLocatorNeverRefused(key, h);
    var committed := Next(w, s, Commit(a));
    assert key !in committed.phases;
    var events := SecondUpload(w, committed, a.tenant, key, h);
    ImageReady(w, Run(w, committed, events), a.tenant, turns, m, key);
    r := Replay(w, s, a, events, ImagePass(w, a.tenant, turns, m, key));
    KeepsOne(r, h);
  }

  lemma {:induction false} KeepsOne(r: Replay, h: string)
    requires Inv(r.s) && Enabled(r.w, r.s, Commit(r.a)) && CanRun(r.w, Next(r.w, r.s, Commit(r.a)), r.events)
    requires Enabled(r.w, Run(r.w, Next(r.w, r.s, Commit(r.a)), r.events), Commit(r.b))
    requires r.a.tenant == r.b.tenant && r.a.uploaded.Keys == {h}
    requires RowKept(r.w, Next(r.w, r.s, Commit(r.a)), r.events, r.a.tenant, h)
    ensures r.Happens() && KeepsRows(r)
  {
  }

  /** Then the chains are the same to the last node. */
  lemma {:induction false} ReplayedImageShares(w: World, tenant: string, turns: seq<Turn>, m: Pending,
                                               first: Staging.Key, second: Staging.Key, hash: Hash) returns (r: Replay)
    requires OneImage(w, turns, m) && first.purpose.Media? && second.purpose.Media? && first != second
    ensures r.Happens() && r.a.turns == r.b.turns == turns && r.a.keys == [first] && r.b.keys == [second]
    ensures r.First() == r.Second()
  {
    r := ReplayedImage(w, tenant, turns, m, first, second);
    ReplayOfOneBody(r);
  }
}
