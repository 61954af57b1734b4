/** The end of the worker's pass: each media part gets the locator its tenant already
    has for the bytes, and the body is archived
    (src/db/archive_staging.rs:28-150; src/worker.rs:1243-1295). */
module MediaReuse {
  import opened Json
  import opened Limits
  import opened SessionBody
  import opened OwnedSessionBody
  import opened ConversationArchive
  import Canonical
  import Prefix
  import Staging
  import Text

  const MAX_MEDIA_TYPE_BYTES := 128

  datatype Refusal = InvalidReference | LocatorMismatch

  /** What `conversation_media_parts` holds for the tenant: the least locator of a hash. */
  type Lookup = string -> Option<string>

  /** The hash and the locator of a part that has both. */
  function Reference(part: Part): Option<(string, string)>
  {
    if part.contentBlake3.Some? && part.objectLocator.Some?
    then Some((part.contentBlake3.value, part.objectLocator.value)) else None
  }

  predicate ValidType(mediaType: string)
  {
    mediaType != "" && Text.ByteLength(mediaType) <= MAX_MEDIA_TYPE_BYTES
  }

  predicate Staged(keys: seq<Staging.Key>, hash: string, locator: string)
  {
    exists i | 0 <= i < |keys| :: Staging.MediaLocator(keys[i], hash) == Some(locator)
  }

  /** Why a part is refused, if it is. */
  function Fault(part: Part, keys: seq<Staging.Key>): Option<Refusal>
  {
    var reference := Reference(part);
    if reference.None? then None
    else if part.mediaType.Some? && !ValidType(part.mediaType.value) then Some(InvalidReference)
    else if part.byteLength.None? || part.byteLength.value > MAX_I64 then Some(InvalidReference)
    else if !Staged(keys, reference.value.0, reference.value.1) then Some(LocatorMismatch)
    else None
  }

  function FaultIn(parts: seq<Part>, keys: seq<Staging.Key>): Option<Refusal>
  {
    if parts == [] then None else OrElse(FaultIn(parts[..|parts| - 1], keys), Fault(parts[|parts| - 1], keys))
  }

  /** The first refusal in the order of the parts. */
  function FaultInTurns(turns: seq<Turn>, keys: seq<Staging.Key>): Option<Refusal>
  {
    if turns == [] then None
    else OrElse(FaultInTurns(turns[..|turns| - 1], keys), FaultIn(turns[|turns| - 1].parts, keys))
  }

  /** The locator of a part with this hash. */
  function OwnLocator(part: Part, hash: string): Option<string>
  {
    if Reference(part).Some? && Reference(part).value.0 == hash then Some(Reference(part).value.1) else None
  }

  function FirstIn(parts: seq<Part>, hash: string): Option<string>
  {
    if parts == [] then None else OrElse(FirstIn(parts[..|parts| - 1], hash), OwnLocator(parts[|parts| - 1], hash))
  }

  /** The locator of the first part with this hash. */
  function FirstInTurns(turns: seq<Turn>, hash: string): Option<string>
  {
    if turns == [] then None
    else OrElse(FirstInTurns(turns[..|turns| - 1], hash), FirstIn(turns[|turns| - 1].parts, hash))
  }

  function Reused(part: Part, all: seq<Turn>, existing: Lookup): Part
  {
    var reference := Reference(part);
    if reference.None? then part
    else
      var hash := reference.value.0;
      part.(objectLocator := Some(GetOr(existing(hash), GetOr(FirstInTurns(all, hash), ""))))
  }

  function ReusedParts(parts: seq<Part>, all: seq<Turn>, existing: Lookup): seq<Part>
  {
    seq(|parts|, p requires 0 <= p < |parts| => Reused(parts[p], all, existing))
  }

  /** Every part of one hash with one locator: the tenant's, or else that of the first
      of these parts. */
  function ReusedTurns(turns: seq<Turn>, existing: Lookup): seq<Turn>
  {
    seq(|turns|, t requires 0 <= t < |turns| => turns[t].(parts := ReusedParts(turns[t].parts, turns, existing)))
  }

  // ------------------------------------------------------------------- the loops

  /** The locators chosen so far: one per hash seen. */
  ghost predicate ChosenAre(chosen: map<string, string>, first: string -> Option<string>, existing: Lookup)
  {
    forall hash ::
      && (hash in chosen <==> first(hash).Some?)
      && (hash in chosen ==> chosen[hash] == GetOr(existing(hash), first(hash).value))
  }

  function WithChosen(part: Part, chosen: map<string, string>): Part
  {
    var reference := Reference(part);
    if reference.Some? && reference.value.0 in chosen
    then part.(objectLocator := Some(chosen[reference.value.0])) else part
  }

  ghost predicate Grown(before: map<string, string>, after: map<string, string>)
  {
    forall hash | hash in before :: hash in after && after[hash] == before[hash]
  }

  /** What these parts add to the choice. */
  ghost predicate ChosenFrom(before: map<string, string>, after: map<string, string>, parts: seq<Part>,
                             existing: Lookup)
  {
    && Grown(before, after)
    && forall hash ::
         && (hash in after <==> hash in before || FirstIn(parts, hash).Some?)
         && (hash in after && hash !in before ==> after[hash] == GetOr(existing(hash), FirstIn(parts, hash).value))
  }

  ghost predicate PartsChosen(out: seq<Part>, parts: seq<Part>, chosen: map<string, string>)
  {
    |out| == |parts| && forall p | 0 <= p < |parts| ::
      Resolved(parts[p], chosen) && out[p] == WithChosen(parts[p], chosen)
  }

  /** The hash is looked up once; later parts with it take what was chosen. */
  method ChooseLocator(part: Part, keys: seq<Staging.Key>, existing: Lookup, chosen: map<string, string>)
    returns (fault: Option<Refusal>, out: Part, after: map<string, string>)
    ensures fault == Fault(part, keys)
    ensures fault.None? ==> PartsChosen([out], [part], after) && ChosenFrom(chosen, after, [part], existing)
  {
    fault, out, after := Fault(part, keys), part, chosen;
    var reference := Reference(part);
    assert [part][..0] == [];
    assert forall hash :: FirstIn([part], hash) == OrElse(FirstIn([], hash), OwnLocator(part, hash));
    if fault.None? && reference.Some? {
      var (hash, locator) := reference.value;
      if hash !in chosen { after := chosen[hash := GetOr(existing(hash), locator)]; }
      out := part.(objectLocator := Some(after[hash]));
    }
  }

  lemma {:induction false} ChosenOn(before: map<string, string>, mid: map<string, string>, after: map<string, string>,
                                    parts: seq<Part>, n: nat, out: seq<Part>, part: Part, existing: Lookup)
    requires n < |parts| && ChosenFrom(before, mid, parts[..n], existing) && PartsChosen(out, parts[..n], mid)
    requires ChosenFrom(mid, after, [parts[n]], existing) && PartsChosen([part], [parts[n]], after)
    ensures ChosenFrom(before, after, parts[..n + 1], existing) && PartsChosen(out + [part], parts[..n + 1], after)
  {
    assert parts[..n + 1][..n] == parts[..n] && parts[..n + 1] == parts[..n] + [parts[n]];
    assert [parts[n]][..0] == [];
    forall hash
      ensures FirstIn(parts[..n + 1], hash) == OrElse(FirstIn(parts[..n], hash), FirstIn([parts[n]], hash))
    {
      assert FirstIn([parts[n]], hash) == OrElse(FirstIn([], hash), OwnLocator(parts[n], hash));
    }
    assert [part][0] == part && [parts[n]][0] == parts[n];
  }

  /** The parts of one turn, with what was chosen in the turns before it. */
  method ReuseInParts(parts: seq<Part>, keys: seq<Staging.Key>, existing: Lookup, chosen: map<string, string>)
    returns (fault: Option<Refusal>, out: seq<Part>, after: map<string, string>)
    ensures fault == FaultIn(parts, keys)
    ensures fault.None? ==> PartsChosen(out, parts, after) && ChosenFrom(chosen, after, parts, existing)
  {
    fault, out, after := None, [], chosen;
    for p := 0 to |parts|
      invariant FaultIn(parts[..p], keys).None?
      invariant PartsChosen(out, parts[..p], after) && ChosenFrom(chosen, after, parts[..p], existing)
    {
      assert parts[..p + 1][..p] == parts[..p];
      var one, part, more := ChooseLocator(parts[p], keys, existing, after);
      if one.Some? {
        FaultStays(parts, keys, p + 1);
        return one, out, after;
      }
      ChosenOn(chosen, after, more, parts, p, out, part, existing);
      out, after := out + [part], more;
    }
    assert parts[..|parts|] == parts;
  }

  predicate Resolved(part: Part, chosen: map<string, string>)
  {
    Reference(part).Some? ==> Reference(part).value.0 in chosen
  }

  lemma {:induction false} FaultStays(parts: seq<Part>, keys: seq<Staging.Key>, n: nat)
    requires n <= |parts| && FaultIn(parts[..n], keys).Some?
    ensures FaultIn(parts, keys) == FaultIn(parts[..n], keys)
    decreases |parts|
  {
    if n < |parts| {
      assert parts[..|parts| - 1][..n] == parts[..n];
      FaultStays(parts[..|parts| - 1], keys, n);
    } else {
      assert parts[..n] == parts;
    }
  }

  lemma {:induction false} TurnFaultStays(turns: seq<Turn>, keys: seq<Staging.Key>, n: nat)
    requires n <= |turns| && FaultInTurns(turns[..n], keys).Some?
    ensures FaultInTurns(turns, keys) == FaultInTurns(turns[..n], keys)
    decreases |turns|
  {
    if n < |turns| {
      assert turns[..|turns| - 1][..n] == turns[..n];
      TurnFaultStays(turns[..|turns| - 1], keys, n);
    } else {
      assert turns[..n] == turns;
    }
  }

  /** The substitution of the tenant's locators, or the first refusal. */
  method ReuseInTurns(turns: seq<Turn>, keys: seq<Staging.Key>, existing: Lookup)
    returns (fault: Option<Refusal>, out: seq<Turn>)
    ensures fault == FaultInTurns(turns, keys)
    ensures fault.None? ==> out == ReusedTurns(turns, existing)
  {
    fault, out := None, [];
    var chosen: map<string, string> := map[];
    for t := 0 to |turns|
      invariant FaultInTurns(turns[..t], keys).None? && |out| == t
      invariant forall u | 0 <= u < t :: ChosenIn(out[u], turns[u], chosen)
      invariant ChosenAre(chosen, hash => FirstInTurns(turns[..t], hash), existing)
    {
      assert turns[..t + 1][..t] == turns[..t];
      var one, parts, more := ReuseInParts(turns[t].parts, keys, existing, chosen);
      if one.Some? {
        TurnFaultStays(turns, keys, t + 1);
        return one, out;
      }
      forall u | 0 <= u < t ensures ChosenIn(out[u], turns[u], more) {
        assert ChosenIn(out[u], turns[u], chosen);
      }
      ChosenGrow(turns, t, chosen, more, existing);
      out, chosen := out + [turns[t].(parts := parts)], more;
    }
    assert turns[..|turns|] == turns;
    ChosenIsReused(turns, out, chosen, existing);
  }

  /** A turn whose references all have the locators chosen for their hashes. */
  ghost predicate ChosenIn(out: Turn, turn: Turn, chosen: map<string, string>)
  {
    out == turn.(parts := out.parts) && PartsChosen(out.parts, turn.parts, chosen)
  }

  lemma {:induction false} ChosenGrow(turns: seq<Turn>, t: nat, chosen: map<string, string>, more: map<string, string>,
                                      existing: Lookup)
    requires t < |turns| && ChosenAre(chosen, hash => FirstInTurns(turns[..t], hash), existing)
    requires ChosenFrom(chosen, more, turns[t].parts, existing)
    ensures ChosenAre(more, hash => FirstInTurns(turns[..t + 1], hash), existing)
  {
    assert turns[..t + 1][..t] == turns[..t];
    forall hash
      ensures FirstInTurns(turns[..t + 1], hash)
              == OrElse(FirstInTurns(turns[..t], hash), FirstIn(turns[t].parts, hash))
    {
    }
  }

  lemma {:induction false} ChosenIsReused(turns: seq<Turn>, out: seq<Turn>, chosen: map<string, string>,
                                          existing: Lookup)
    requires |out| == |turns| && forall u | 0 <= u < |turns| :: ChosenIn(out[u], turns[u], chosen)
    requires ChosenAre(chosen, hash => FirstInTurns(turns, hash), existing)
    ensures out == ReusedTurns(turns, existing)
  {
    forall t | 0 <= t < |turns| ensures out[t].parts == ReusedParts(turns[t].parts, turns, existing) {
      forall p | 0 <= p < |turns[t].parts|
        ensures out[t].parts[p] == Reused(turns[t].parts[p], turns, existing)
      {
        assert Resolved(turns[t].parts[p], chosen);
      }
    }
  }

  // ---------------------------------------------------- on what the upload loop left

  /** The locator each uploaded hash ends up with. */
  function FinalLocators(uploaded: map<string, string>, existing: Lookup): map<string, string>
  {
    map hash | hash in uploaded :: GetOr(existing(hash), uploaded[hash])
  }

  /** The turns that are hashed and stored. */
  function StoredTurns(turns: seq<Turn>, locators: map<string, string>, codec: Codec): (stored: seq<Turn>)
    ensures |stored| == |turns|
  {
    StoreTurns(turns, PendingOf(turns), locators, codec)
  }

  /** The content hashes of turns that are stored with these locators. */
  function TurnHashes(turns: seq<Turn>, locators: map<string, string>, codec: Codec, digest: Value -> string)
    : (hashes: seq<string>)
    ensures |hashes| == |turns|
  {
    HashesOf(MapAtoms(StoredTurns(turns, locators, codec), digest))
  }

  ghost predicate Covered(turns: seq<Turn>, locators: map<string, string>, codec: Codec)
  {
    forall m | m in PendingOf(turns) :: codec.hash(m.2) in locators
  }

  ghost predicate FreshTurns(turns: seq<Turn>, codec: Codec)
  {
    forall t | t in turns :: Fresh(t.parts, codec)
  }

  /** A stored part is the part itself without its bytes, and where bytes were it has
      the locator of their hash. */
  lemma {:induction false} StoredPart(turns: seq<Turn>, locators: map<string, string>, codec: Codec, t: nat, p: nat)
    requires FreshTurns(turns, codec) && Covered(turns, locators, codec)
    requires t < |turns| && p < |turns[t].parts|
    ensures var part, stored := turns[t].parts[p], StoredTurns(turns, locators, codec)[t].parts[p];
            if part.mediaBytes.None? then
              && stored == part && stored.objectLocator.None? && stored.contentBlake3.None?
            else
              var hash := codec.hash(part.mediaBytes.value);
              && hash in locators && part.objectLocator.None? && part.contentBlake3 == Some(hash)
              && stored == part.(mediaBytes := None, objectLocator := Some(locators[hash]))
  {
    var part := turns[t].parts[p];
    assert turns[t] in turns;
    assert FreshMedia(part, codec);
    if part.mediaBytes.Some? { PendingAre(turns, (t, p, part.mediaBytes.value)); }
  }

  ghost predicate OneLocator(parts: seq<Part>, locators: map<string, string>)
  {
    forall p | 0 <= p < |parts| && Reference(parts[p]).Some? ::
      Reference(parts[p]).value.0 in locators && Reference(parts[p]).value.1 == locators[Reference(parts[p]).value.0]
  }

  lemma {:induction false} FirstIsTheOne(parts: seq<Part>, locators: map<string, string>, hash: string)
    requires OneLocator(parts, locators)
    ensures FirstIn(parts, hash).Some? ==> hash in locators && FirstIn(parts, hash) == Some(locators[hash])
    ensures (exists p :: 0 <= p < |parts| && OwnLocator(parts[p], hash).Some?) ==> FirstIn(parts, hash).Some?
  {
    if parts != [] {
      var n := |parts| - 1;
      FirstIsTheOne(parts[..n], locators, hash);
      if p :| 0 <= p < n && OwnLocator(parts[p], hash).Some? {
        assert parts[..n][p] == parts[p];
      }
    }
  }

  lemma {:induction false} FirstInTurnsIsTheOne(turns: seq<Turn>, locators: map<string, string>, hash: string)
    requires forall t | 0 <= t < |turns| :: OneLocator(turns[t].parts, locators)
    ensures FirstInTurns(turns, hash).Some? ==> hash in locators && FirstInTurns(turns, hash) == Some(locators[hash])
    ensures (exists t :: 0 <= t < |turns| && FirstIn(turns[t].parts, hash).Some?) ==> FirstInTurns(turns, hash).Some?
  {
    if turns != [] {
      var n := |turns| - 1;
      FirstInTurnsIsTheOne(turns[..n], locators, hash);
      FirstIsTheOne(turns[n].parts, locators, hash);
      if t :| 0 <= t < n && FirstIn(turns[t].parts, hash).Some? {
        assert turns[..n][t] == turns[t];
      }
    }
  }

  lemma {:induction false} StoredHaveOne(turns: seq<Turn>, locators: map<string, string>, codec: Codec, t: nat)
    requires FreshTurns(turns, codec) && Covered(turns, locators, codec) && t < |turns|
    ensures OneLocator(StoredTurns(turns, locators, codec)[t].parts, locators)
  {
    var parts := StoredTurns(turns, locators, codec)[t].parts;
    assert |parts| == |turns[t].parts|;
    forall p | 0 <= p < |parts| && Reference(parts[p]).Some?
      ensures Reference(parts[p]).value.0 in locators
      ensures Reference(parts[p]).value.1 == locators[Reference(parts[p]).value.0]
    {
      StoredPart(turns, locators, codec, t, p);
    }
  }

  lemma {:induction false} ReusedPart(turns: seq<Turn>, uploaded: map<string, string>, codec: Codec, existing: Lookup,
                                      t: nat, p: nat)
    requires FreshTurns(turns, codec) && Covered(turns, uploaded, codec)
    requires t < |turns| && p < |turns[t].parts|
    ensures Reused(StoredTurns(turns, uploaded, codec)[t].parts[p], StoredTurns(turns, uploaded, codec), existing)
            == StoredTurns(turns, FinalLocators(uploaded, existing), codec)[t].parts[p]
  {
    var stored := StoredTurns(turns, uploaded, codec);
    StoredPart(turns, uploaded, codec, t, p);
    StoredPart(turns, FinalLocators(uploaded, existing), codec, t, p);
    if turns[t].parts[p].mediaBytes.Some? {
      var hash := codec.hash(turns[t].parts[p].mediaBytes.value);
      forall u | 0 <= u < |stored| ensures OneLocator(stored[u].parts, uploaded) {
        StoredHaveOne(turns, uploaded, codec, u);
      }
      assert OwnLocator(stored[t].parts[p], hash).Some?;
      FirstIsTheOne(stored[t].parts, uploaded, hash);
      FirstInTurnsIsTheOne(stored, uploaded, hash);
    }
  }

  /** On an uploaded body the substitution only changes the locator of each hash. */
  lemma {:induction false} ReuseStored(turns: seq<Turn>, uploaded: map<string, string>, codec: Codec, existing: Lookup)
    requires FreshTurns(turns, codec) && Covered(turns, uploaded, codec)
    ensures ReusedTurns(StoredTurns(turns, uploaded, codec), existing)
            == StoredTurns(turns, FinalLocators(uploaded, existing), codec)
  {
    var x := ReusedTurns(StoredTurns(turns, uploaded, codec), existing);
    var y := StoredTurns(turns, FinalLocators(uploaded, existing), codec);
    forall t | 0 <= t < |turns| ensures x[t] == y[t] {
      assert |x[t].parts| == |y[t].parts|;
      forall p | 0 <= p < |turns[t].parts| ensures x[t].parts[p] == y[t].parts[p] {
        ReusedPart(turns, uploaded, codec, existing, t, p);
      }
    }
  }

  // -------------------------------------------------------------------- refusals

  /** Media the archive takes. */
  predicate Archivable(turns: seq<Turn>, m: Pending)
  {
    && m.0 < |turns| && m.1 < |turns[m.0].parts|
    && var mediaType := turns[m.0].parts[m.1].mediaType;
       mediaType.Some? && ValidType(mediaType.value) && |m.2| <= MAX_I64
  }

  /** Each uploaded hash lies under one of these attempts. */
  ghost predicate OwnLocators(uploaded: map<string, string>, keys: seq<Staging.Key>)
  {
    forall hash | hash in uploaded :: Staged(keys, hash, uploaded[hash])
  }

  lemma {:induction false} StoredFault(turns: seq<Turn>, uploaded: map<string, string>, codec: Codec,
                                       keys: seq<Staging.Key>, t: nat, p: nat)
    requires FreshTurns(turns, codec) && Covered(turns, uploaded, codec) && OwnLocators(uploaded, keys)
    requires t < |turns| && p < |turns[t].parts|
    ensures var part := turns[t].parts[p];
            Fault(StoredTurns(turns, uploaded, codec)[t].parts[p], keys)
            == if part.mediaBytes.Some? && !Archivable(turns, (t, p, part.mediaBytes.value)) then Some(InvalidReference)
               else None
  {
    StoredPart(turns, uploaded, codec, t, p);
    assert turns[t] in turns;
    assert FreshMedia(turns[t].parts[p], codec);
  }

  lemma {:induction false} FaultInIs(parts: seq<Part>, keys: seq<Staging.Key>)
    requires forall p | 0 <= p < |parts| :: Fault(parts[p], keys) in {None, Some(InvalidReference)}
    ensures FaultIn(parts, keys) in {None, Some(InvalidReference)}
    ensures FaultIn(parts, keys).None? <==> forall p | 0 <= p < |parts| :: Fault(parts[p], keys).None?
  {
    if parts != [] {
      var n := |parts| - 1;
      assert forall p | 0 <= p < n :: parts[..n][p] == parts[p];
      FaultInIs(parts[..n], keys);
    }
  }

  lemma {:induction false} FaultInTurnsIs(turns: seq<Turn>, keys: seq<Staging.Key>)
    requires forall t | 0 <= t < |turns| :: FaultIn(turns[t].parts, keys) in {None, Some(InvalidReference)}
    ensures FaultInTurns(turns, keys) in {None, Some(InvalidReference)}
    ensures FaultInTurns(turns, keys).None? <==> forall t | 0 <= t < |turns| :: FaultIn(turns[t].parts, keys).None?
  {
    if turns != [] {
      var n := |turns| - 1;
      assert forall t | 0 <= t < n :: turns[..n][t] == turns[t];
      FaultInTurnsIs(turns[..n], keys);
    }
  }

  /** An uploaded body is refused exactly when some media has no usable type or is too
      long. */
  lemma {:induction false} RefusedExactly(turns: seq<Turn>, uploaded: map<string, string>, codec: Codec,
                                          keys: seq<Staging.Key>)
    requires FreshTurns(turns, codec) && Covered(turns, uploaded, codec) && OwnLocators(uploaded, keys)
    ensures var fault := FaultInTurns(StoredTurns(turns, uploaded, codec), keys);
            && fault in {None, Some(InvalidReference)}
            && (fault.None? <==> forall m | m in PendingOf(turns) :: Archivable(turns, m))
  {
    var stored := StoredTurns(turns, uploaded, codec);
    forall t | 0 <= t < |turns|
      ensures FaultIn(stored[t].parts, keys) in {None, Some(InvalidReference)}
      ensures FaultIn(stored[t].parts, keys).None? <==> MediaArchivable(turns, t)
    {
      assert |stored[t].parts| == |turns[t].parts|;
      forall p | 0 <= p < |turns[t].parts|
        ensures Fault(stored[t].parts[p], keys) in {None, Some(InvalidReference)}
        ensures Fault(stored[t].parts[p], keys).None? <==>
          (turns[t].parts[p].mediaBytes.Some? ==> Archivable(turns, (t, p, turns[t].parts[p].mediaBytes.value)))
      {
        StoredFault(turns, uploaded, codec, keys, t, p);
      }
      FaultInIs(stored[t].parts, keys);
    }
    FaultInTurnsIs(stored, keys);
    MediaOfTurns(turns);
  }

  ghost predicate MediaArchivable(turns: seq<Turn>, t: nat)
    requires t < |turns|
  {
    forall p | 0 <= p < |turns[t].parts| && turns[t].parts[p].mediaBytes.Some? ::
      Archivable(turns, (t, p, turns[t].parts[p].mediaBytes.value))
  }

  lemma {:induction false} MediaOfTurns(turns: seq<Turn>)
    ensures (forall m | m in PendingOf(turns) :: Archivable(turns, m)) <==>
      forall t | 0 <= t < |turns| :: MediaArchivable(turns, t)
  {
    forall m ensures m in PendingOf(turns) <==> HasBytes(turns, m) { PendingAre(turns, m); }
    if forall m | m in PendingOf(turns) :: Archivable(turns, m) {
      forall t, p | 0 <= t < |turns| && 0 <= p < |turns[t].parts| && turns[t].parts[p].mediaBytes.Some?
        ensures Archivable(turns, (t, p, turns[t].parts[p].mediaBytes.value))
      {
        assert HasBytes(turns, (t, p, turns[t].parts[p].mediaBytes.value));
      }
    }
    if forall t | 0 <= t < |turns| :: MediaArchivable(turns, t) {
      forall m | m in PendingOf(turns) ensures Archivable(turns, m) {
        assert HasBytes(turns, m) && MediaArchivable(turns, m.0);
      }
    }
  }

  // -------------------------------------------------------------- the whole pass

  datatype Archive = Archive(atoms: seq<Canonical.SemanticAtom>, nodes: seq<Prefix.PrefixNode>, media: seq<MediaRow>)

  datatype Outcome = Archived(archive: Archive) | Refused(why: Refusal)

  /** Atoms, chain and media rows of these turns with these locators. */
  ghost predicate ArchiveOf(a: Archive, turns: seq<Turn>, locators: map<string, string>, codec: Codec,
                            digest: Value -> string, hash: Hash)
  {
    var pending := PendingOf(turns);
    && AtomsOf(a.atoms, StoredTurns(turns, locators, codec), digest)
    && Prefix.ChainOver(a.nodes, HashesOf(a.atoms), hash)
    && a.media == RowsOf(StoredTurns(turns, locators, codec), HashesOf(a.atoms))
    && |a.media| == |pending|
    && forall i :: 0 <= i < |pending| ==> RowFor(a.media[i], turns, HashesOf(a.atoms), pending[i], locators, codec)
  }

  lemma {:induction false} UploadsAreOwn(puts: seq<(string, seq<byte>)>, uploaded: map<string, string>, codec: Codec,
                                         attempts: Attempts, keys: seq<Staging.Key>)
    requires Uploads(puts, uploaded, codec, attempts.Locator) && HexHashes(codec)
    requires |puts| == |keys| <= |attempts.ids| && forall i | 0 <= i < |keys| :: keys[i] == attempts.KeyOf(i)
    ensures OwnLocators(uploaded, keys)
  {
    forall hash | hash in uploaded ensures Staged(keys, hash, uploaded[hash]) {
      var i :| 0 <= i < |puts| && codec.hash(puts[i].1) == hash;
      assert Staging.ValidBlake3Hex(codec.hash(puts[i].1));
      Staging.MediaLocatorNeverRefused(keys[i], hash);
    }
  }

  /** The worker's whole pass: consume both documents, upload the media, take over the
      tenant's locators, archive. */
  method ArchiveConversation(request: Value, document: Value, codec: Codec, attempts: Attempts, existing: Lookup,
                             digest: Value -> string, hash: Hash)
    returns (outcome: Outcome, uploaded: map<string, string>, puts: seq<(string, seq<byte>)>)
    requires HexHashes(codec) && attempts.New(|PendingOf(BodyOf(request, document, codec))|)
    ensures var turns := BodyOf(request, document, codec);
            && Covered(turns, uploaded, codec)
            && Uploads(puts, uploaded, codec, attempts.Locator) && FreshLocators(puts, uploaded, attempts)
            && if forall m | m in PendingOf(turns) :: Archivable(turns, m)
               then outcome.Archived?
                    && ArchiveOf(outcome.archive, turns, FinalLocators(uploaded, existing), codec, digest, hash)
               else outcome == Refused(InvalidReference)
  {
    var body := new Body.FromRequestDocument(request, codec);
    body.AppendReturnDocument(document, codec);
    ghost var turns := body.turns;
    BodyFresh(request, document, codec);
    uploaded, puts := StoreMedia(body, codec, attempts);
    var keys := seq(|puts|, i requires 0 <= i < |puts| => attempts.KeyOf(i));
    UploadsAreOwn(puts, uploaded, codec, attempts, keys);
    RefusedExactly(turns, uploaded, codec, keys);
    ReuseStored(turns, uploaded, codec, existing);
    if keys != [] {
      var refused := ReuseLocators(body, keys, existing);
      if refused.Some? { return Refused(refused.value), uploaded, puts; }
    } else {
      assert FinalLocators(uploaded, existing) == uploaded == map[];
    }
    var atoms, nodes, media := body.IntoArchiveParts(digest, hash);
    forall m | m in PendingOf(turns) ensures |m.2| <= MAX_I64 { assert Archivable(turns, m); }
    RowsMatchMedia(turns, HashesOf(atoms), FinalLocators(uploaded, existing), codec);
    outcome := Archived(Archive(atoms, nodes, media));
  }

  /** The substitution in the body. */
  method ReuseLocators(body: Body, keys: seq<Staging.Key>, existing: Lookup) returns (refused: Option<Refusal>)
    modifies body
    ensures refused == FaultInTurns(old(body.turns), keys)
    ensures refused.None? ==> body.turns == ReusedTurns(old(body.turns), existing)
  {
    var turns;
    refused, turns := ReuseInTurns(body.turns, keys, existing);
    if refused.None? { body.turns := turns; }
  }
}
