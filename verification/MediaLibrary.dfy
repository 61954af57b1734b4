/** The media rows of all tenants and the objects they name, while archive passes,
    expired writers and the reaper run beside each other
    (src/db/archive_staging.rs:28-150, 329-360, 466-560, 930-955;
    src/db/requests/conversations.rs:776-812; src/archive_reaper.rs:117-175). */
module MediaLibrary {
  import opened Json
  import opened Limits
  import opened SessionBody
  import opened ConversationArchive
  import opened MediaReuse
  import Canonical
  import Staging
  import Text

  datatype RowKey = RowKey(tenant: string, turnId: string, partIndex: nat)

  type Rows = map<RowKey, MediaRow>

  const MAX_LOCATOR_BYTES := 1_024

  /** A row that the insertion loop does not skip. */
  predicate Insertable(row: MediaRow)
  {
    && ValidType(row.mediaType) && Text.ByteLength(row.contentBlake3) == 64
    && row.objectLocator != "" && Text.ByteLength(row.objectLocator) <= MAX_LOCATOR_BYTES && row.turnId != ""
  }

  /** `ON CONFLICT … DO NOTHING`. */
  function InsertRow(rows: Rows, tenant: string, row: MediaRow): Rows
  {
    var key := RowKey(tenant, row.turnId, row.partIndex);
    if !Insertable(row) || key in rows then rows else rows[key := row]
  }

  function InsertAll(rows: Rows, tenant: string, media: seq<MediaRow>): Rows
  {
    if media == [] then rows
    else InsertRow(InsertAll(rows, tenant, media[..|media| - 1]), tenant, media[|media| - 1])
  }

  // -------------------------------------------------------------------- look-ups

  predicate HasHash(rows: Rows, key: RowKey, tenant: string, hash: string)
  {
    key in rows && key.tenant == tenant && rows[key].contentBlake3 == hash
  }

  ghost function LocatorsOf(rows: Rows, tenant: string, hash: string): set<string>
  {
    set key | key in rows && HasHash(rows, key, tenant, hash) :: rows[key].objectLocator
  }

  lemma {:induction false} LeastExists(s: set<string>)
    requires s != {}
    ensures exists x :: x in s && forall y | y in s :: Text.Le(x, y)
  {
    var x :| x in s;
    var rest := s - {x};
    var least := x;
    Text.LeTotal(x, x);
    if rest != {} {
      LeastExists(rest);
      var z :| z in rest && forall y | y in rest :: Text.Le(z, y);
      Text.LeTotal(x, z);
      if !Text.Le(x, z) { least := z; }
      forall y | y in rest && Text.Le(x, z) ensures Text.Le(x, y) { Text.LeTransitive(x, z, y); }
    }
    assert forall y | y in s :: y == x || y in rest;
  }

  ghost function Least(s: set<string>): (x: string)
    requires s != {}
    ensures x in s && forall y | y in s :: Text.Le(x, y)
  {
    LeastExists(s);
    var x :| x in s && forall y | y in s :: Text.Le(x, y);
    x
  }

  /** `SELECT object_locator … ORDER BY object_locator LIMIT 1`. */
  ghost function Existing(rows: Rows, tenant: string, hash: string): Option<string>
  {
    if LocatorsOf(rows, tenant, hash) == {} then None else Some(Least(LocatorsOf(rows, tenant, hash)))
  }

  // ----------------------------------------------------------------- the machine

  datatype Phase = Writing | CleanupPending

  /** A proof that nothing refers to an attempt stays with the reaper that made it; the
      deletion it allows may come at any later time. */
  datatype State = State(rows: Rows, phases: map<Staging.Key, Phase>, proven: set<Staging.Key>, objects: set<string>)

  const Empty := State(map[], map[], {}, {})

  /** A body whose media is uploaded, ready for its last transaction. */
  datatype Pass = Pass(tenant: string, turns: seq<Turn>, uploaded: map<string, string>, keys: seq<Staging.Key>)

  datatype World = World(codec: Codec, digest: Value -> string)

  datatype Event =
    | Begin(key: Staging.Key)
    | Upload(key: Staging.Key, hash: string)
    | Commit(pass: Pass)
    | Expire(key: Staging.Key)        // the writer ran out of time, or gave up
    | Prove(key: Staging.Key)
    | Delete(key: Staging.Key)
    | DropRows(gone: set<RowKey>)

  ghost predicate Ready(w: World, s: State, pass: Pass)
  {
    && FreshTurns(pass.turns, w.codec) && Covered(pass.turns, pass.uploaded, w.codec)
    && (forall m | m in PendingOf(pass.turns) :: Archivable(pass.turns, m))
    && OwnLocators(pass.uploaded, pass.keys)
    && (forall key | key in pass.keys :: key in s.phases && s.phases[key] == Writing)
    && (forall hash | hash in pass.uploaded :: pass.uploaded[hash] in s.objects)
  }

  predicate Refers(row: MediaRow, key: Staging.Key)
  {
    Staging.LocatorMatches(row.objectLocator, Staging.CanonicalPrefix(key))
  }

  ghost predicate Enabled(w: World, s: State, e: Event)
  {
    match e
    case Begin(key) => key !in s.phases
    case Upload(key, hash) => key in s.phases && Staging.MediaLocator(key, hash).Some?
    case Commit(pass) => Ready(w, s, pass)
    case Expire(key) => key in s.phases && s.phases[key] == Writing
    case Prove(key) =>
      key in s.phases && s.phases[key] == CleanupPending && forall k | k in s.rows :: !Refers(s.rows[k], key)
    case Delete(key) => key in s.proven
    case DropRows(_) => true
  }

  /** The locators a pass stores. */
  ghost function Locators(rows: Rows, pass: Pass): map<string, string>
  {
    FinalLocators(pass.uploaded, hash => Existing(rows, pass.tenant, hash))
  }

  ghost function PassRows(w: World, rows: Rows, pass: Pass): seq<MediaRow>
  {
    var locators := Locators(rows, pass);
    RowsOf(StoredTurns(pass.turns, locators, w.codec), TurnHashes(pass.turns, locators, w.codec, w.digest))
  }

  ghost function Next(w: World, s: State, e: Event): State
    requires Enabled(w, s, e)
  {
    match e
    case Begin(key) => s.(phases := s.phases[key := Writing])
    case Upload(key, hash) => s.(objects := s.objects + {Staging.MediaLocator(key, hash).value})
    case Commit(pass) =>
      s.(rows := InsertAll(s.rows, pass.tenant, PassRows(w, s.rows, pass)), phases := Released(s.phases, pass.keys))
    case Expire(key) => s.(phases := s.phases[key := CleanupPending])
    case Prove(key) => s.(proven := s.proven + {key})
    case Delete(key) =>
      s.(objects := set l | l in s.objects && !Staging.LocatorMatches(l, Staging.CanonicalPrefix(key)))
    case DropRows(gone) => s.(rows := s.rows - gone)
  }

  function Released(phases: map<Staging.Key, Phase>, keys: seq<Staging.Key>): map<Staging.Key, Phase>
  {
    map key | key in phases :: if key in keys then CleanupPending else phases[key]
  }

  ghost predicate CanRun(w: World, s: State, events: seq<Event>)
    decreases |events|
  {
    events == [] || (Enabled(w, s, events[0]) && CanRun(w, Next(w, s, events[0]), events[1..]))
  }

  ghost function Run(w: World, s: State, events: seq<Event>): State
    requires CanRun(w, s, events)
    decreases |events|
  {
    if events == [] then s else Run(w, Next(w, s, events[0]), events[1..])
  }

  // ------------------------------------------------------------------- invariant

  /** Within a tenant there is one locator per hash. */
  ghost predicate OnePerHash(rows: Rows)
  {
    forall k, l | k in rows && l in rows && k.tenant == l.tenant && rows[k].contentBlake3 == rows[l].contentBlake3 ::
      rows[k].objectLocator == rows[l].objectLocator
  }

  /** The object is there, and its attempt is out of the writer's hands and of every
      reaper's. */
  ghost predicate Safe(s: State, locator: string)
  {
    && locator in s.objects
    && exists key :: key in s.phases && s.phases[key] == CleanupPending && key !in s.proven
                     && Staging.LocatorMatches(locator, Staging.CanonicalPrefix(key))
  }

  ghost predicate Inv(s: State)
  {
    && OnePerHash(s.rows)
    && (forall k | k in s.rows :: Safe(s, s.rows[k].objectLocator))
    && (forall key | key in s.proven :: key in s.phases && s.phases[key] == CleanupPending)
  }

  lemma {:induction false} ExistingIs(rows: Rows, key: RowKey, hash: string)
    requires OnePerHash(rows) && HasHash(rows, key, key.tenant, hash)
    ensures Existing(rows, key.tenant, hash) == Some(rows[key].objectLocator)
  {
    assert rows[key].objectLocator in LocatorsOf(rows, key.tenant, hash);
  }

  lemma {:induction false} ExistingHasRow(rows: Rows, tenant: string, hash: string) returns (key: RowKey)
    requires Existing(rows, tenant, hash).Some?
    ensures HasHash(rows, key, tenant, hash) && rows[key].objectLocator == Existing(rows, tenant, hash).value
  {
    assert Existing(rows, tenant, hash).value in LocatorsOf(rows, tenant, hash);
    key :| key in rows && HasHash(rows, key, tenant, hash)
           && rows[key].objectLocator == Existing(rows, tenant, hash).value;
  }

  /** What an insertion leaves: the old rows, and some of the new ones. */
  lemma {:induction false} InsertAllKeeps(rows: Rows, tenant: string, media: seq<MediaRow>)
    ensures var after := InsertAll(rows, tenant, media);
            && (forall k | k in rows :: k in after && after[k] == rows[k])
            && (forall k | k in after && k !in rows :: k.tenant == tenant && after[k] in media)
  {
    if media != [] {
      var n := |media| - 1;
      InsertAllKeeps(rows, tenant, media[..n]);
      assert media == media[..n] + [media[n]];
    }
  }

  /** What the table takes. */
  predicate Acceptable(row: MediaRow)
  {
    && 1 <= Text.ByteLength(row.mediaType) <= 128 && Text.ByteLength(row.contentBlake3) == 64
    && 1 <= Text.ByteLength(row.objectLocator) <= 1_024 && row.turnId != ""
  }

  lemma {:induction false} InsertAllHas(rows: Rows, tenant: string, media: seq<MediaRow>)
    ensures forall row | row in media && Acceptable(row) ::
      RowKey(tenant, row.turnId, row.partIndex) in InsertAll(rows, tenant, media)
    ensures forall k | k in InsertAll(rows, tenant, media) && k !in rows ::
      Acceptable(InsertAll(rows, tenant, media)[k])
  {
    if media != [] {
      var n := |media| - 1;
      InsertAllHas(rows, tenant, media[..n]);
      AcceptableIs(media[n]);
      assert media == media[..n] + [media[n]];
    }
  }

  lemma {:induction false} AcceptableIs(row: MediaRow)
    ensures Insertable(row) <==> Acceptable(row)
  {
    assert row.mediaType != "" ==> Text.ByteLength(row.mediaType) >= Text.Width(row.mediaType[0]);
    assert row.objectLocator != "" ==> Text.ByteLength(row.objectLocator) >= Text.Width(row.objectLocator[0]);
  }

  /** A commit adds rows of its own alone, every acceptable one whose place is free, changes
      none that is there, and hands its own attempts, and no other's, to the reaper. */
  lemma {:induction false} CommitExactly(w: World, s: State, pass: Pass)
    requires Enabled(w, s, Commit(pass))
    ensures var t := Next(w, s, Commit(pass));
            && (forall k | k in s.rows :: k in t.rows && t.rows[k] == s.rows[k])
            && (forall k | k in t.rows && k !in s.rows ::
                  k.tenant == pass.tenant && t.rows[k] in PassRows(w, s.rows, pass) && Acceptable(t.rows[k]))
            && (forall row | row in PassRows(w, s.rows, pass) && Acceptable(row) ::
                  RowKey(pass.tenant, row.turnId, row.partIndex) in t.rows)
            && t.phases.Keys == s.phases.Keys && t.objects == s.objects && t.proven == s.proven
            && forall key | key in s.phases ::
                 t.phases[key] == if key in pass.keys then CleanupPending else s.phases[key]
  {
    InsertAllKeeps(s.rows, pass.tenant, PassRows(w, s.rows, pass));
    InsertAllHas(s.rows, pass.tenant, PassRows(w, s.rows, pass));
  }

  /** Every row of these turns has the locator of its hash. */
  lemma {:induction false} RowsHaveLocators(turns: seq<Turn>, hashes: seq<string>, locators: map<string, string>,
                                            codec: Codec)
    requires |turns| == |hashes| && FreshTurns(turns, codec) && Covered(turns, locators, codec)
    requires forall m | m in PendingOf(turns) :: Archivable(turns, m)
    ensures forall row | row in RowsOf(StoredTurns(turns, locators, codec), hashes) ::
      row.contentBlake3 in locators && row.objectLocator == locators[row.contentBlake3]
  {
    forall m | m in PendingOf(turns) ensures |m.2| <= MAX_I64 { assert Archivable(turns, m); }
    RowsMatchMedia(turns, hashes, locators, codec);
    var rows, pending := RowsOf(StoredTurns(turns, locators, codec), hashes), PendingOf(turns);
    forall row | row in rows ensures row.contentBlake3 in locators && row.objectLocator == locators[row.contentBlake3] {
      var i :| 0 <= i < |rows| && rows[i] == row;
      assert RowFor(rows[i], turns, hashes, pending[i], locators, codec);
    }
  }

  lemma {:induction false} PassRowsAre(w: World, s: State, pass: Pass)
    requires Ready(w, s, pass)
    ensures forall row | row in PassRows(w, s.rows, pass) ::
      row.contentBlake3 in pass.uploaded && row.objectLocator == Locators(s.rows, pass)[row.contentBlake3]
  {
    var locators := Locators(s.rows, pass);
    RowsHaveLocators(pass.turns, TurnHashes(pass.turns, locators, w.codec, w.digest), locators, w.codec);
  }

  lemma {:induction false} SafeStays(s: State, t: State, locator: string)
    requires Safe(s, locator) && s.objects <= t.objects && t.proven == s.proven
    requires forall key | key in s.phases && s.phases[key] == CleanupPending ::
      key in t.phases && t.phases[key] == CleanupPending
    ensures Safe(t, locator)
  {
    var key :| key in s.phases && s.phases[key] == CleanupPending && key !in s.proven
               && Staging.LocatorMatches(locator, Staging.CanonicalPrefix(key));
    assert key in t.phases && t.phases[key] == CleanupPending;
  }

  /** The locator a pass stores is safe once it has committed. */
  lemma {:induction false} LocatorSafe(w: World, s: State, pass: Pass, hash: string)
    requires Inv(s) && Ready(w, s, pass) && hash in pass.uploaded
    ensures Safe(Next(w, s, Commit(pass)), Locators(s.rows, pass)[hash])
  {
    var t := Next(w, s, Commit(pass));
    if Existing(s.rows, pass.tenant, hash).Some? {
      var k := ExistingHasRow(s.rows, pass.tenant, hash);
      SafeStays(s, t, s.rows[k].objectLocator);
    } else {
      var key := OwnKey(pass, hash);
      assert key in s.phases && s.phases[key] == Writing && key !in s.proven;
      assert key in t.phases && t.phases[key] == CleanupPending;
    }
  }

  /** The attempt an uploaded hash lies under. */
  lemma {:induction false} OwnKey(pass: Pass, hash: string) returns (key: Staging.Key)
    requires OwnLocators(pass.uploaded, pass.keys) && hash in pass.uploaded
    ensures key in pass.keys && Staging.LocatorMatches(pass.uploaded[hash], Staging.CanonicalPrefix(key))
  {
    assert Staged(pass.keys, hash, pass.uploaded[hash]);
    var i :| 0 <= i < |pass.keys| && Staging.MediaLocator(pass.keys[i], hash) == Some(pass.uploaded[hash]);
    key := pass.keys[i];
  }

  lemma {:induction false} CommitKeeps(w: World, s: State, pass: Pass)
    requires Inv(s) && Enabled(w, s, Commit(pass))
    ensures Inv(Next(w, s, Commit(pass)))
  {
    var t := Next(w, s, Commit(pass));
    var media := PassRows(w, s.rows, pass);
    InsertAllKeeps(s.rows, pass.tenant, media);
    PassRowsAre(w, s, pass);
    forall k | k in t.rows ensures Safe(t, t.rows[k].objectLocator) {
      if k in s.rows {
        SafeStays(s, t, s.rows[k].objectLocator);
      } else {
        assert t.rows[k] in media;
        LocatorSafe(w, s, pass, t.rows[k].contentBlake3);
      }
    }
    CommitKeepsOne(w, s, pass);
  }

  lemma {:induction false} CommitKeepsOne(w: World, s: State, pass: Pass)
    requires Inv(s) && Enabled(w, s, Commit(pass))
    ensures OnePerHash(Next(w, s, Commit(pass)).rows)
  {
    var t := Next(w, s, Commit(pass));
    InsertAllKeeps(s.rows, pass.tenant, PassRows(w, s.rows, pass));
    PassRowsAre(w, s, pass);
    forall k, l | k in t.rows && l in t.rows && k.tenant == l.tenant
                  && t.rows[k].contentBlake3 == t.rows[l].contentBlake3
      ensures t.rows[k].objectLocator == t.rows[l].objectLocator
    {
      if k !in s.rows || l !in s.rows {
        assert k.tenant == pass.tenant && t.rows[k].contentBlake3 in pass.uploaded;
        RowAfterCommit(w, s, pass, k);
        RowAfterCommit(w, s, pass, l);
      }
    }
  }

  /** After a pass all rows of one of its hashes have the locator it stored. */
  lemma {:induction false} RowAfterCommit(w: World, s: State, pass: Pass, k: RowKey)
    requires Inv(s) && Enabled(w, s, Commit(pass)) && k in Next(w, s, Commit(pass)).rows
    requires k.tenant == pass.tenant && Next(w, s, Commit(pass)).rows[k].contentBlake3 in pass.uploaded
    ensures var row := Next(w, s, Commit(pass)).rows[k];
            row.objectLocator == Locators(s.rows, pass)[row.contentBlake3]
  {
    InsertAllKeeps(s.rows, pass.tenant, PassRows(w, s.rows, pass));
    PassRowsAre(w, s, pass);
    if k in s.rows { ExistingIs(s.rows, k, s.rows[k].contentBlake3); }
  }

  /** An upload of bytes whose hash the tenant already had can be reclaimed at once. */
  lemma {:induction false} DuplicateCanGo(w: World, s: State, pass: Pass, key: Staging.Key)
    requires Inv(s) && Enabled(w, s, Commit(pass)) && key in pass.keys
    requires forall hash | hash in pass.uploaded
                           && Staging.LocatorMatches(pass.uploaded[hash], Staging.CanonicalPrefix(key)) ::
      Existing(s.rows, pass.tenant, hash).Some?
    ensures Enabled(w, Next(w, s, Commit(pass)), Prove(key))
  {
    var t := Next(w, s, Commit(pass));
    InsertAllKeeps(s.rows, pass.tenant, PassRows(w, s.rows, pass));
    PassRowsAre(w, s, pass);
    forall k | k in t.rows ensures !Refers(t.rows[k], key) {
      if k in s.rows {
        NotTheWriters(s, s.rows[k].objectLocator, key);
      } else {
        var hash := t.rows[k].contentBlake3;
        if Existing(s.rows, pass.tenant, hash).Some? {
          var l := ExistingHasRow(s.rows, pass.tenant, hash);
          NotTheWriters(s, s.rows[l].objectLocator, key);
        }
      }
    }
  }

  /** A safe object is not one of an attempt that is still being written. */
  lemma {:induction false} NotTheWriters(s: State, locator: string, key: Staging.Key)
    requires Safe(s, locator) && key in s.phases && s.phases[key] == Writing
    ensures !Staging.LocatorMatches(locator, Staging.CanonicalPrefix(key))
  {
    var owner :| owner in s.phases && s.phases[owner] == CleanupPending && owner !in s.proven
                 && Staging.LocatorMatches(locator, Staging.CanonicalPrefix(owner));
    if Staging.LocatorMatches(locator, Staging.CanonicalPrefix(key)) { Staging.OneOwner(locator, owner, key); }
  }

  lemma {:induction false} ProveKeeps(w: World, s: State, key: Staging.Key)
    requires Inv(s) && Enabled(w, s, Prove(key))
    ensures Inv(Next(w, s, Prove(key)))
  {
    var t := Next(w, s, Prove(key));
    forall k | k in t.rows ensures Safe(t, t.rows[k].objectLocator) {
      assert Safe(s, s.rows[k].objectLocator) && !Refers(s.rows[k], key);
    }
  }

  /** Two attempts have no object in common, so a proven one can go. */
  lemma {:induction false} DeleteKeeps(w: World, s: State, key: Staging.Key)
    requires Inv(s) && Enabled(w, s, Delete(key))
    ensures Inv(Next(w, s, Delete(key)))
  {
    var t := Next(w, s, Delete(key));
    forall k | k in t.rows ensures Safe(t, t.rows[k].objectLocator) {
      var locator := s.rows[k].objectLocator;
      var owner :| owner in s.phases && s.phases[owner] == CleanupPending && owner !in s.proven
                   && Staging.LocatorMatches(locator, Staging.CanonicalPrefix(owner));
      if Staging.LocatorMatches(locator, Staging.CanonicalPrefix(key)) { Staging.OneOwner(locator, owner, key); }
    }
  }

  /** Rows stay safe while objects are only added and no attempt goes back to writing. */
  lemma {:induction false} FrameKeeps(s: State, t: State)
    requires Inv(s) && t.rows == s.rows && t.proven == s.proven && s.objects <= t.objects
    requires forall key | key in s.phases && s.phases[key] == CleanupPending ::
      key in t.phases && t.phases[key] == CleanupPending
    ensures Inv(t)
  {
    forall k | k in t.rows ensures Safe(t, t.rows[k].objectLocator) {
      SafeStays(s, t, s.rows[k].objectLocator);
    }
  }

  lemma {:induction false} OtherStepKeeps(w: World, s: State, e: Event)
    requires Inv(s) && Enabled(w, s, e) && (e.Begin? || e.Upload? || e.Expire?)
    ensures Inv(Next(w, s, e))
  {
    FrameKeeps(s, Next(w, s, e));
  }

  lemma {:induction false} DropKeeps(w: World, s: State, gone: set<RowKey>)
    requires Inv(s)
    ensures Inv(Next(w, s, DropRows(gone)))
  {
    var t := Next(w, s, DropRows(gone));
    forall k | k in t.rows ensures Safe(t, t.rows[k].objectLocator) {
      SafeStays(s, t, s.rows[k].objectLocator);
    }
  }

  lemma {:induction false} StepKeeps(w: World, s: State, e: Event)
    requires Inv(s) && Enabled(w, s, e)
    ensures Inv(Next(w, s, e))
  {
    match e
    case Commit(pass) => CommitKeeps(w, s, pass);
    case Prove(key) => ProveKeeps(w, s, key);
    case Delete(key) => DeleteKeeps(w, s, key);
    case DropRows(gone) => DropKeeps(w, s, gone);
    case _ => OtherStepKeeps(w, s, e);
  }

  /** Over every run a tenant's rows hold one locator per hash, and every row names an
      object that is there. */
  lemma {:induction false} RunKeeps(w: World, s: State, events: seq<Event>)
    requires Inv(s) && CanRun(w, s, events)
    ensures Inv(Run(w, s, events))
    decreases |events|
  {
    if events != [] {
      StepKeeps(w, s, events[0]);
      RunKeeps(w, Next(w, s, events[0]), events[1..]);
    }
  }

  /** From the empty library: no interleaving of passes, expiries, dropped rows, proofs
      and late deletions leaves a row whose object is gone. */
  lemma {:induction false} NoDanglingRow(w: World, events: seq<Event>, k: RowKey)
    requires CanRun(w, Empty, events) && k in Run(w, Empty, events).rows
    ensures Run(w, Empty, events).rows[k].objectLocator in Run(w, Empty, events).objects
    ensures forall l | l in Run(w, Empty, events).rows && l.tenant == k.tenant ::
      Run(w, Empty, events).rows[l].contentBlake3 == Run(w, Empty, events).rows[k].contentBlake3 ==>
        Run(w, Empty, events).rows[l].objectLocator == Run(w, Empty, events).rows[k].objectLocator
  {
    RunKeeps(w, Empty, events);
  }

  // -------------------------------------------------------------- the worker's pass

  /** What `ArchiveConversation` archives under the tenant's locators is what the pass
      commits. */
  lemma {:induction false} ConversationIsPass(w: World, s: State, pass: Pass, attempts: Attempts,
                                              puts: seq<(string, seq<byte>)>, archive: Archive, hash: Hash)
    requires HexHashes(w.codec) && FreshTurns(pass.turns, w.codec) && Covered(pass.turns, pass.uploaded, w.codec)
    requires Uploads(puts, pass.uploaded, w.codec, attempts.Locator) && |puts| <= |attempts.ids|
    requires pass.keys == seq(|puts|, i requires 0 <= i < |puts| && |puts| <= |attempts.ids| => attempts.KeyOf(i))
    requires ArchiveOf(archive, pass.turns, Locators(s.rows, pass), w.codec, w.digest, hash)
    ensures OwnLocators(pass.uploaded, pass.keys) && archive.media == PassRows(w, s.rows, pass)
    ensures HashesOf(archive.atoms) == TurnHashes(pass.turns, Locators(s.rows, pass), w.codec, w.digest)
  {
    UploadsAreOwn(puts, pass.uploaded, w.codec, attempts, pass.keys);
    var stored := StoredTurns(pass.turns, Locators(s.rows, pass), w.codec);
    assert archive.atoms == MapAtoms(stored, w.digest);
  }

  // ------------------------------------------------------- locators between passes

  /** At no time between is the tenant without a row of the hash. */
  ghost predicate RowKept(w: World, s: State, events: seq<Event>, tenant: string, hash: string)
    requires CanRun(w, s, events)
    decreases |events|
  {
    && Existing(s.rows, tenant, hash).Some?
    && (events == [] || RowKept(w, Next(w, s, events[0]), events[1..], tenant, hash))
  }

  lemma {:induction false} LocatorStep(w: World, s: State, e: Event, tenant: string, hash: string)
    requires Inv(s) && Enabled(w, s, e)
    requires Existing(s.rows, tenant, hash).Some? && Existing(Next(w, s, e).rows, tenant, hash).Some?
    ensures Existing(Next(w, s, e).rows, tenant, hash) == Existing(s.rows, tenant, hash)
  {
    var t := Next(w, s, e);
    StepKeeps(w, s, e);
    if e.Commit? {
      var k := ExistingHasRow(s.rows, tenant, hash);
      InsertAllKeeps(s.rows, e.pass.tenant, PassRows(w, s.rows, e.pass));
      ExistingIs(t.rows, k, hash);
    } else {
      var k := ExistingHasRow(t.rows, tenant, hash);
      ExistingIs(s.rows, k, hash);
    }
  }

  lemma {:induction false} LocatorStays(w: World, s: State, events: seq<Event>, tenant: string, hash: string)
    requires Inv(s) && CanRun(w, s, events) && RowKept(w, s, events, tenant, hash)
    ensures Existing(Run(w, s, events).rows, tenant, hash) == Existing(s.rows, tenant, hash)
    decreases |events|
  {
    if events != [] {
      StepKeeps(w, s, events[0]);
      LocatorStep(w, s, events[0], tenant, hash);
      LocatorStays(w, Next(w, s, events[0]), events[1..], tenant, hash);
    }
  }

  /** What a pass stores for a hash is what its tenant's later passes find, as long as
      a row of the hash is kept. */
  lemma {:induction false} KeptLocator(w: World, s: State, a: Pass, events: seq<Event>, hash: string)
    requires Inv(s) && Enabled(w, s, Commit(a)) && CanRun(w, Next(w, s, Commit(a)), events) && hash in a.uploaded
    requires RowKept(w, Next(w, s, Commit(a)), events, a.tenant, hash)
    ensures Existing(Run(w, Next(w, s, Commit(a)), events).rows, a.tenant, hash) == Some(Locators(s.rows, a)[hash])
  {
    var t := Next(w, s, Commit(a));
    StepKeeps(w, s, Commit(a));
    LocatorStays(w, t, events, a.tenant, hash);
    var k := ExistingHasRow(t.rows, a.tenant, hash);
    RowAfterCommit(w, s, a, k);
  }

  lemma {:induction false} PhaseStays(w: World, s: State, events: seq<Event>, key: Staging.Key)
    requires CanRun(w, s, events) && key in s.phases && s.phases[key] == CleanupPending
    ensures key in Run(w, s, events).phases && Run(w, s, events).phases[key] == CleanupPending
    decreases |events|
  {
    if events != [] { PhaseStays(w, Next(w, s, events[0]), events[1..], key); }
  }

  /** A later pass, of any tenant, stores the same locator for a hash exactly when its
      tenant's rows still name it. */
  lemma {:induction false} SameLocatorIff(w: World, s: State, a: Pass, events: seq<Event>, b: Pass, hash: string)
    requires Inv(s) && Enabled(w, s, Commit(a)) && CanRun(w, Next(w, s, Commit(a)), events)
    requires Enabled(w, Run(w, Next(w, s, Commit(a)), events), Commit(b)) && hash in a.uploaded && hash in b.uploaded
    ensures var t := Run(w, Next(w, s, Commit(a)), events);
            Locators(t.rows, b)[hash] == Locators(s.rows, a)[hash]
            <==> Existing(t.rows, b.tenant, hash) == Some(Locators(s.rows, a)[hash])
  {
    var mid := Next(w, s, Commit(a));
    var t := Run(w, mid, events);
    if Existing(t.rows, b.tenant, hash).None? {
      LocatorSafe(w, s, a, hash);
      var locator := Locators(s.rows, a)[hash];
      var first :| first in mid.phases && mid.phases[first] == CleanupPending && first !in mid.proven
                   && Staging.LocatorMatches(locator, Staging.CanonicalPrefix(first));
      PhaseStays(w, mid, events, first);
      var second := OwnKey(b, hash);
      assert first != second;
      if b.uploaded[hash] == locator { Staging.OneOwner(locator, first, second); }
    }
  }
}
