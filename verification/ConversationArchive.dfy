/** The session body as the worker archives it: media bytes out, locators in,
    then atoms, prefix nodes and media rows
    (src/conversation.rs:775-852, 1469-1539; src/worker.rs:1243-1285). */
module ConversationArchive {
  import opened Json
  import opened Limits
  import opened SessionBody
  import opened OwnedSessionBody
  import Canonical
  import Prefix
  import Staging
  import opened StableSort

  type Hash = string -> string

  datatype MediaRow = MediaRow(
    turnId: string, partIndex: nat, mediaType: string, byteLength: nat,
    contentBlake3: string, objectLocator: string)

  /** A map built by inserting, under distinct keys, the entries that are there. */
  function Present(entries: seq<(string, Option<Value>)>): Fields
  {
    if entries == [] then []
    else (if entries[0].1.Some? then [(entries[0].0, entries[0].1.value)] else []) + Present(entries[1..])
  }

  function Text(text: Option<string>): Option<Value>
  {
    if text.Some? then Some(String(text.value)) else None
  }

  function PartEntries(part: Part, text: Option<string>): seq<(string, Option<Value>)>
  {
    [ ("part_index", Some(Number(part.partIndex))),
      ("kind", Some(String(part.kind))),
      ("text", Text(text)),
      ("media_type", Text(part.mediaType)),
      ("byte_length", if part.byteLength.Some? then Some(Number(part.byteLength.value)) else None),
      ("content_blake3", Text(part.contentBlake3)),
      ("object_locator", Text(part.objectLocator)),
      ("call_id", Text(part.callId)),
      ("tool_call_id", Text(part.toolCallId)) ]
  }

  /** `part_value`; media bytes never reach the stored JSON. */
  function PartValue(part: Part, text: Option<string>): Value
  {
    Object(Present(PartEntries(part, text)))
  }

  function PartValues(parts: seq<Part>): seq<Value>
  {
    seq(|parts|, i requires 0 <= i < |parts| => PartValue(parts[i], parts[i].text))
  }

  function Remove(fields: Fields, key: string): Fields
  {
    if fields == [] then []
    else if fields[0].0 == key then fields[1..]
    else [fields[0]] + Remove(fields[1..], key)
  }

  /** `atom_from_turn_content`: the origin is out while the hash is taken. */
  function AtomFromTurnContent(role: string, fields: Fields, digest: Value -> string): Canonical.SemanticAtom
  {
    var origin := Find(fields, "origin");
    var identity := Remove(fields, "origin");
    var hash := digest(Object(identity));
    var content := if origin.Some? then Insert(identity, "origin", origin.value) else identity;
    Canonical.SemanticAtom(role, "turn", Object(content), hash, hash)
  }

  function TurnFields(role: string, origin: string, parts: seq<Value>): Fields
  {
    [("role", String(role)), ("origin", String(origin)), ("parts", Array(parts))]
  }

  function AtomFromTurn(turn: Turn, digest: Value -> string): Canonical.SemanticAtom
  {
    AtomFromTurnContent(turn.role, TurnFields(turn.role, turn.origin, PartValues(turn.parts)), digest)
  }

  ghost predicate Mapped<T, U>(ys: seq<U>, xs: seq<T>, f: T -> U)
  {
    |ys| == |xs| && forall i :: 0 <= i < |xs| ==> ys[i] == f(xs[i])
  }

  lemma {:induction false} MappedSnoc<T, U>(ys: seq<U>, xs: seq<T>, n: nat, f: T -> U)
    requires n < |xs| && Mapped(ys, xs[..n], f)
    ensures Mapped(ys + [f(xs[n])], xs[..n + 1], f)
  {
  }

  function Atomizer(digest: Value -> string): Turn -> Canonical.SemanticAtom
  {
    (turn: Turn) => AtomFromTurn(turn, digest)
  }

  /** Turn by turn, the atom of each. */
  ghost predicate AtomsOf(atoms: seq<Canonical.SemanticAtom>, turns: seq<Turn>, digest: Value -> string)
  {
    Mapped(atoms, turns, Atomizer(digest))
  }

  function MapAtoms(turns: seq<Turn>, digest: Value -> string): (atoms: seq<Canonical.SemanticAtom>)
    ensures AtomsOf(atoms, turns, digest)
  {
    seq(|turns|, i requires 0 <= i < |turns| => AtomFromTurn(turns[i], digest))
  }

  function HashesOf(atoms: seq<Canonical.SemanticAtom>): seq<string>
  {
    seq(|atoms|, i requires 0 <= i < |atoms| => atoms[i].contentHash)
  }

  // -------------------------------------------------------------- media rows

  /** One row per part that has both a hash and a locator. */
  function RowOf(turnId: string, part: Part): Option<MediaRow>
  {
    if part.contentBlake3.None? || part.objectLocator.None? || GetOr(part.byteLength, 0) > MAX_I64 then None
    else Some(MediaRow(turnId, part.partIndex, GetOr(part.mediaType, "application/octet-stream"),
                       GetOr(part.byteLength, 0), part.contentBlake3.value, part.objectLocator.value))
  }

  function RowsOfParts(turnId: string, parts: seq<Part>): seq<MediaRow>
  {
    if parts == [] then []
    else
      var row := RowOf(turnId, parts[|parts| - 1]);
      RowsOfParts(turnId, parts[..|parts| - 1]) + if row.Some? then [row.value] else []
  }

  /** `media_locators`: turns zipped with their atoms. */
  function RowsOf(turns: seq<Turn>, hashes: seq<string>): seq<MediaRow>
    requires |turns| == |hashes|
  {
    if turns == [] then []
    else
      var n := |turns| - 1;
      RowsOf(turns[..n], hashes[..n]) + RowsOfParts(hashes[n], turns[n].parts)
  }

  // ----------------------------------------------------------- pending bytes

  type Pending = (nat, nat, seq<byte>)

  function PendingOfParts(t: nat, parts: seq<Part>): seq<Pending>
  {
    if parts == [] then []
    else
      var n := |parts| - 1;
      PendingOfParts(t, parts[..n])
      + if parts[n].mediaBytes.Some? then [(t, n, parts[n].mediaBytes.value)] else []
  }

  function PendingOf(turns: seq<Turn>): seq<Pending>
  {
    if turns == [] then []
    else PendingOf(turns[..|turns| - 1]) + PendingOfParts(|turns| - 1, turns[|turns| - 1].parts)
  }

  function ClearParts(parts: seq<Part>): seq<Part>
  {
    seq(|parts|, i requires 0 <= i < |parts| => parts[i].(mediaBytes := None))
  }

  function ClearMedia(turns: seq<Turn>): seq<Turn>
  {
    seq(|turns|, i requires 0 <= i < |turns| => turns[i].(parts := ClearParts(turns[i].parts)))
  }

  function WithLocator(turns: seq<Turn>, t: nat, p: nat, locator: string): seq<Turn>
  {
    if t < |turns| && p < |turns[t].parts| then
      turns[t := turns[t].(parts := turns[t].parts[p := turns[t].parts[p].(objectLocator := Some(locator))])]
    else turns
  }

  /** The inner loop of `take_media_bytes`. */
  method TakePartBytes(t: nat, parts: seq<Part>) returns (pending: seq<Pending>, cleared: seq<Part>)
    ensures pending == PendingOfParts(t, parts)
    ensures cleared == ClearParts(parts)
  {
    pending, cleared := [], parts;
    for p := 0 to |parts|
      invariant pending == PendingOfParts(t, parts[..p])
      invariant |cleared| == |parts|
      invariant forall j :: 0 <= j < p ==> cleared[j] == parts[j].(mediaBytes := None)
      invariant forall j :: p <= j < |parts| ==> cleared[j] == parts[j]
    {
      assert parts[..p + 1][..p] == parts[..p];
      if cleared[p].mediaBytes.Some? {
        pending := pending + [(t, p, cleared[p].mediaBytes.value)];
      }
      cleared := cleared[p := cleared[p].(mediaBytes := None)];
    }
    assert parts[..|parts|] == parts;
  }

  /** The inner loop of `into_archive_parts`: the text is taken before the part
      is printed, and handed to the printer. */
  method TakeTexts(parts: seq<Part>) returns (rest: seq<Part>, values: seq<Value>)
    ensures rest == DropText(parts)
    ensures values == PartValues(parts)
  {
    rest, values := parts, [];
    for p := 0 to |parts|
      invariant |rest| == |parts| && |values| == p
      invariant forall j :: 0 <= j < p ==> values[j] == PartValue(parts[j], parts[j].text)
      invariant forall j :: 0 <= j < p ==> rest[j] == BarePart(parts[j])
      invariant forall j :: p <= j < |parts| ==> rest[j] == parts[j]
    {
      var text := rest[p].text;
      rest := rest[p := rest[p].(text := None)];
      values := values + [PartValue(rest[p], text)];
    }
  }

  /** One turn of `into_archive_parts`: its atom, and what is left of it. */
  method TakeAtom(turn: Turn, digest: Value -> string) returns (atom: Canonical.SemanticAtom, bare: Turn)
    ensures atom == Atomizer(digest)(turn)
    ensures bare == BareTurn(turn)
  {
    var parts, values := TakeTexts(turn.parts);
    AtomReadsValues(turn, values, digest);
    atom := AtomFromTurnContent(turn.role, TurnFields(turn.role, turn.origin, values), digest);
    bare := turn.(parts := parts);
  }

  /** The outer loop of `into_archive_parts`. */
  method TakeAtoms(turns: seq<Turn>, digest: Value -> string)
    returns (rest: seq<Turn>, atoms: seq<Canonical.SemanticAtom>)
    ensures rest == WithoutText(turns)
    ensures AtomsOf(atoms, turns, digest)
  {
    rest, atoms := turns, [];
    for t := 0 to |turns|
      invariant |rest| == |turns|
      invariant Mapped(atoms, turns[..t], Atomizer(digest))
      invariant forall i :: 0 <= i < t ==> rest[i] == BareTurn(turns[i])
      invariant forall i :: t <= i < |turns| ==> rest[i] == turns[i]
    {
      var atom, bare := TakeAtom(rest[t], digest);
      MappedSnoc(atoms, turns, t, Atomizer(digest));
      atoms := atoms + [atom];
      rest := rest[t := bare];
    }
    assert turns[..|turns|] == turns;
  }

  class Body {
    var turns: seq<Turn>

    /** `from_request_document`. */
    constructor FromRequestDocument(request: Value, codec: Codec)
      ensures turns == RequestTurns(request, codec)
    {
      var built := OwnedSessionBody.FromRequestDocument(request, codec);
      turns := built;
    }

    method AppendReturnDocument(document: Value, codec: Codec)
      modifies this
      ensures turns == old(turns) + ReturnTurns(document, codec)
    {
      turns := OwnedSessionBody.AppendReturnDocument(turns, document, codec);
    }

    /** `take_media_bytes`: moves the bytes out, remembering where they were. */
    method TakeMediaBytes() returns (pending: seq<Pending>)
      modifies this
      ensures pending == PendingOf(old(turns))
      ensures turns == ClearMedia(old(turns))
    {
      pending := [];
      ghost var was := turns;
      for t := 0 to |turns|
        invariant |turns| == |was|
        invariant pending == PendingOf(was[..t])
        invariant forall j :: 0 <= j < t ==> turns[j] == was[j].(parts := ClearParts(was[j].parts))
        invariant forall j :: t <= j < |was| ==> turns[j] == was[j]
      {
        assert was[..t + 1][..t] == was[..t];
        var found, parts := TakePartBytes(t, turns[t].parts);
        pending := pending + found;
        turns := turns[t := turns[t].(parts := parts)];
      }
      assert was[..|was|] == was;
    }

    method SetMediaLocator(t: nat, p: nat, locator: string)
      modifies this
      ensures turns == WithLocator(old(turns), t, p, locator)
      ensures !(t < |old(turns)| && p < |old(turns)[t].parts|) ==> turns == old(turns)
      ensures |turns| == |old(turns)|
      ensures forall i | 0 <= i < |turns| ::
        && turns[i].role == old(turns)[i].role && turns[i].origin == old(turns)[i].origin
        && |turns[i].parts| == |old(turns)[i].parts|
        && forall j | 0 <= j < |turns[i].parts| ::
             turns[i].parts[j]
             == var was := old(turns)[i].parts[j];
                if i == t && j == p then was.(objectLocator := Some(locator)) else was
    {
      if t < |turns| && p < |turns[t].parts| {
        var parts := turns[t].parts[p := turns[t].parts[p].(objectLocator := Some(locator))];
        turns := turns[t := turns[t].(parts := parts)];
      }
    }

    /** `into_prefix` and `media_locators`, which only read the body. */
    method IntoPrefix(digest: Value -> string, hash: Hash)
      returns (atoms: seq<Canonical.SemanticAtom>, nodes: seq<Prefix.PrefixNode>, media: seq<MediaRow>)
      ensures AtomsOf(atoms, turns, digest)
      ensures Prefix.ChainOver(nodes, HashesOf(atoms), hash)
      ensures media == RowsOf(turns, HashesOf(atoms))
    {
      atoms := MapAtoms(turns, digest);
      nodes := Prefix.BuildPrefix(HashesOf(atoms), hash);
      media := RowsOf(turns, HashesOf(atoms));
    }

    /** `into_archive_parts`: moves each text out of its part on the way, and
        reads the media rows from what is left. */
    method IntoArchiveParts(digest: Value -> string, hash: Hash)
      returns (atoms: seq<Canonical.SemanticAtom>, nodes: seq<Prefix.PrefixNode>, media: seq<MediaRow>)
      modifies this
      ensures AtomsOf(atoms, old(turns), digest)
      ensures Prefix.ChainOver(nodes, HashesOf(atoms), hash)
      ensures media == RowsOf(old(turns), HashesOf(atoms))
      ensures turns == WithoutText(old(turns))
    {
      ghost var was := turns;
      turns, atoms := TakeAtoms(turns, digest);
      RowsIgnoreText(was, HashesOf(atoms));
      media := RowsOf(turns, HashesOf(atoms));
      nodes := Prefix.BuildPrefix(HashesOf(atoms), hash);
    }
  }

  lemma {:induction false} AtomReadsValues(turn: Turn, values: seq<Value>, digest: Value -> string)
    requires values == PartValues(turn.parts)
    ensures AtomFromTurnContent(turn.role, TurnFields(turn.role, turn.origin, values), digest)
            == AtomFromTurn(turn, digest)
  {
  }

  function BarePart(part: Part): Part
  {
    part.(text := None)
  }

  function DropText(parts: seq<Part>): seq<Part>
  {
    seq(|parts|, i requires 0 <= i < |parts| => BarePart(parts[i]))
  }

  function BareTurn(turn: Turn): Turn
  {
    turn.(parts := DropText(turn.parts))
  }

  function WithoutText(turns: seq<Turn>): seq<Turn>
  {
    seq(|turns|, i requires 0 <= i < |turns| => BareTurn(turns[i]))
  }

  lemma {:induction false} PartRowsIgnoreText(turnId: string, parts: seq<Part>)
    ensures RowsOfParts(turnId, DropText(parts)) == RowsOfParts(turnId, parts)
  {
    if parts != [] {
      var n := |parts| - 1;
      PartRowsIgnoreText(turnId, parts[..n]);
      assert DropText(parts)[..n] == DropText(parts[..n]);
    }
  }

  lemma {:induction false} RowsIgnoreText(turns: seq<Turn>, hashes: seq<string>)
    requires |turns| == |hashes|
    ensures RowsOf(WithoutText(turns), hashes) == RowsOf(turns, hashes)
  {
    if turns != [] {
      var n := |turns| - 1;
      RowsIgnoreText(turns[..n], hashes[..n]);
      assert WithoutText(turns)[..n] == WithoutText(turns[..n]);
      PartRowsIgnoreText(hashes[n], turns[n].parts);
    }
  }

  // --------------------------------------------------------- storing the media

  function StorePart(part: Part, t: nat, p: nat, done: seq<Pending>, uploaded: map<string, string>, codec: Codec): Part
  {
    var cleared := part.(mediaBytes := None);
    if part.mediaBytes.Some? && (t, p, part.mediaBytes.value) in done && codec.hash(part.mediaBytes.value) in uploaded
    then cleared.(objectLocator := Some(uploaded[codec.hash(part.mediaBytes.value)]))
    else cleared
  }

  function StoreParts(parts: seq<Part>, t: nat, done: seq<Pending>, uploaded: map<string, string>,
                      codec: Codec): seq<Part>
  {
    seq(|parts|, p requires 0 <= p < |parts| => StorePart(parts[p], t, p, done, uploaded, codec))
  }

  /** The turns once the bytes are out and the listed parts have locators. */
  function StoreTurns(turns: seq<Turn>, done: seq<Pending>, uploaded: map<string, string>, codec: Codec): seq<Turn>
  {
    seq(|turns|, t requires 0 <= t < |turns| =>
      turns[t].(parts := StoreParts(turns[t].parts, t, done, uploaded, codec)))
  }

  ghost predicate HasBytes(turns: seq<Turn>, m: Pending)
  {
    m.0 < |turns| && m.1 < |turns[m.0].parts| && turns[m.0].parts[m.1].mediaBytes == Some(m.2)
  }

  lemma {:induction false} PendingPartsAre(t: nat, parts: seq<Part>, m: Pending)
    ensures m in PendingOfParts(t, parts) <==> m.0 == t && m.1 < |parts| && parts[m.1].mediaBytes == Some(m.2)
  {
    if parts != [] { PendingPartsAre(t, parts[..|parts| - 1], m); }
  }

  /** What was taken is exactly what was there, with its position. */
  lemma {:induction false} PendingAre(turns: seq<Turn>, m: Pending)
    ensures m in PendingOf(turns) <==> HasBytes(turns, m)
  {
    if turns != [] {
      PendingAre(turns[..|turns| - 1], m);
      PendingPartsAre(|turns| - 1, turns[|turns| - 1].parts, m);
    }
  }

  lemma {:induction false} StoreOne(turns: seq<Turn>, done: seq<Pending>, m: Pending,
                                    before: map<string, string>, after: map<string, string>, codec: Codec)
    requires HasBytes(turns, m)
    requires forall d | d in done :: codec.hash(d.2) in before
    requires forall h | h in before :: h in after && after[h] == before[h]
    requires codec.hash(m.2) in after
    ensures WithLocator(StoreTurns(turns, done, before, codec), m.0, m.1, after[codec.hash(m.2)])
            == StoreTurns(turns, done + [m], after, codec)
  {
    var x := WithLocator(StoreTurns(turns, done, before, codec), m.0, m.1, after[codec.hash(m.2)]);
    var y := StoreTurns(turns, done + [m], after, codec);
    forall t | 0 <= t < |turns| ensures x[t] == y[t] {
      assert |x[t].parts| == |y[t].parts|;
      forall p | 0 <= p < |turns[t].parts| ensures x[t].parts[p] == y[t].parts[p] {
        assert y[t].parts[p] == StorePart(turns[t].parts[p], t, p, done + [m], after, codec);
      }
    }
  }

  lemma {:induction false} NothingStored(turns: seq<Turn>, codec: Codec)
    ensures ClearMedia(turns) == StoreTurns(turns, [], map[], codec)
  {
    forall t | 0 <= t < |turns| ensures ClearParts(turns[t].parts) == StoreParts(turns[t].parts, t, [], map[], codec) {
    }
  }

  /** The staging attempts of one request: its id, and the attempt ids that are drawn
      for its uploads, one after the other. */
  datatype Attempts = Attempts(requestId: Staging.Uuid, ids: seq<Staging.Uuid>)
  {
    function KeyOf(i: nat): Staging.Key
      requires i < |ids|
    {
      Staging.Key(Staging.ProxyRequest(requestId), Staging.Media, ids[i])
    }

    /** `conversation_media_locator`, which never refuses a digest. */
    function Locator(i: nat, hash: string): string
    {
      if i < |ids| then GetOr(Staging.MediaLocator(KeyOf(i), hash), "") else ""
    }

    /** Up to `n` uploads each get an id of their own. */
    ghost predicate New(n: nat)
    {
      n <= |ids| && NoDup(ids)
    }
  }

  /** There are ids for any body with up to 2^128 media parts. */
  lemma {:induction false} EnoughAttempts(requestId: Staging.Uuid, n: nat) returns (attempts: Attempts)
    requires n <= Staging.Pow16(32)
    ensures attempts.requestId == requestId && attempts.New(n)
  {
    var ids := seq(n, i requires 0 <= i < n => Staging.Numbered(i));
    forall i, j | 0 <= i < j < n ensures ids[i] != ids[j] {
      if ids[i] == ids[j] { Staging.NibblesInjective(i, j, 32); }
    }
    attempts := Attempts(requestId, ids);
  }

  ghost predicate HexHashes(codec: Codec)
  {
    forall bytes :: Staging.ValidBlake3Hex(codec.hash(bytes))
  }

  /** One upload per distinct hash, each under the locator of its own attempt. */
  ghost predicate Uploads(puts: seq<(string, seq<byte>)>, uploaded: map<string, string>, codec: Codec,
                          locators: (nat, string) -> string)
  {
    && (forall i | 0 <= i < |puts| ::
          && puts[i].0 == locators(i, codec.hash(puts[i].1))
          && codec.hash(puts[i].1) in uploaded && uploaded[codec.hash(puts[i].1)] == puts[i].0)
    && (forall h | h in uploaded :: exists i :: 0 <= i < |puts| && codec.hash(puts[i].1) == h)
    && (forall i, j | 0 <= i < j < |puts| :: codec.hash(puts[i].1) != codec.hash(puts[j].1))
  }

  /** Different hashes got different locators, and each lies below the staging key of
      its own attempt and of no other. */
  ghost predicate FreshLocators(puts: seq<(string, seq<byte>)>, uploaded: map<string, string>, attempts: Attempts)
  {
    && |puts| <= |attempts.ids|
    && (forall g, h | g in uploaded && h in uploaded && uploaded[g] == uploaded[h] :: g == h)
    && (forall i, key: Staging.Key | 0 <= i < |puts| ::
          Staging.LocatorMatches(puts[i].0, Staging.CanonicalPrefix(key)) <==> key == attempts.KeyOf(i))
  }

  lemma {:induction false} PutBelow(puts: seq<(string, seq<byte>)>, uploaded: map<string, string>, codec: Codec,
                                    attempts: Attempts, i: nat)
    requires Uploads(puts, uploaded, codec, attempts.Locator) && HexHashes(codec)
    requires i < |puts| <= |attempts.ids|
    ensures forall key: Staging.Key ::
      Staging.LocatorMatches(puts[i].0, Staging.CanonicalPrefix(key)) <==> key == attempts.KeyOf(i)
  {
    var hash := codec.hash(puts[i].1);
    assert Staging.ValidBlake3Hex(hash);
    Staging.MediaLocatorNeverRefused(attempts.KeyOf(i), hash);
    assert puts[i].0 == attempts.Locator(i, hash) == Staging.MediaLocator(attempts.KeyOf(i), hash).value;
  }

  lemma {:induction false} PutsDiffer(puts: seq<(string, seq<byte>)>, uploaded: map<string, string>, codec: Codec,
                                      attempts: Attempts, i: nat, j: nat)
    requires Uploads(puts, uploaded, codec, attempts.Locator) && HexHashes(codec) && attempts.New(|puts|)
    requires i < |puts| && j < |puts| && puts[i].0 == puts[j].0
    ensures i == j
  {
    PutBelow(puts, uploaded, codec, attempts, i);
    PutBelow(puts, uploaded, codec, attempts, j);
    var key := attempts.KeyOf(i);
    assert Staging.LocatorMatches(puts[i].0, Staging.CanonicalPrefix(key));
    assert key == attempts.KeyOf(j);
  }

  lemma {:induction false} UploadsAreFresh(puts: seq<(string, seq<byte>)>, uploaded: map<string, string>, codec: Codec,
                                           attempts: Attempts)
    requires Uploads(puts, uploaded, codec, attempts.Locator) && HexHashes(codec) && attempts.New(|puts|)
    ensures FreshLocators(puts, uploaded, attempts)
  {
    forall g, h | g in uploaded && h in uploaded && uploaded[g] == uploaded[h] ensures g == h {
      var i :| 0 <= i < |puts| && codec.hash(puts[i].1) == g;
      var j :| 0 <= j < |puts| && codec.hash(puts[j].1) == h;
      PutsDiffer(puts, uploaded, codec, attempts, i, j);
    }
    forall i, key: Staging.Key | 0 <= i < |puts|
      ensures Staging.LocatorMatches(puts[i].0, Staging.CanonicalPrefix(key)) <==> key == attempts.KeyOf(i)
    {
      PutBelow(puts, uploaded, codec, attempts, i);
    }
  }

  lemma {:induction false} UploadsGrow(puts: seq<(string, seq<byte>)>, uploaded: map<string, string>, codec: Codec,
                                       locators: (nat, string) -> string, bytes: seq<byte>)
    requires Uploads(puts, uploaded, codec, locators) && codec.hash(bytes) !in uploaded
    ensures var locator := locators(|puts|, codec.hash(bytes));
            Uploads(puts + [(locator, bytes)], uploaded[codec.hash(bytes) := locator], codec, locators)
  {
    var locator := locators(|puts|, codec.hash(bytes));
    var more, after := puts + [(locator, bytes)], uploaded[codec.hash(bytes) := locator];
    forall h | h in after ensures exists i :: 0 <= i < |more| && codec.hash(more[i].1) == h {
      if h in uploaded {
        var i :| 0 <= i < |puts| && codec.hash(puts[i].1) == h;
        assert more[i] == puts[i];
      } else {
        assert more[|puts|].1 == bytes;
      }
    }
  }

  /** The worker's loop: each distinct hash is uploaded once, and every part with that
      hash is given its locator. */
  method UploadEach(body: Body, codec: Codec, locators: (nat, string) -> string)
    returns (uploaded: map<string, string>, puts: seq<(string, seq<byte>)>)
    modifies body
    ensures body.turns == StoreTurns(old(body.turns), PendingOf(old(body.turns)), uploaded, codec)
    ensures forall m | m in PendingOf(old(body.turns)) :: codec.hash(m.2) in uploaded
    ensures Uploads(puts, uploaded, codec, locators) && |puts| <= |PendingOf(old(body.turns))|
  {
    ghost var was := body.turns;
    var pending := body.TakeMediaBytes();
    uploaded, puts := map[], [];
    NothingStored(was, codec);
    for i := 0 to |pending|
      invariant body.turns == StoreTurns(was, pending[..i], uploaded, codec)
      invariant forall m | m in pending[..i] :: codec.hash(m.2) in uploaded
      invariant Uploads(puts, uploaded, codec, locators) && |puts| <= i
    {
      var (t, p, bytes) := pending[i];
      ghost var before := uploaded;
      var hash := codec.hash(bytes);
      if hash !in uploaded {
        UploadsGrow(puts, uploaded, codec, locators, bytes);
        var locator := locators(|puts|, hash);
        puts := puts + [(locator, bytes)];
        uploaded := uploaded[hash := locator];
      }
      PendingAre(was, pending[i]);
      StoreOne(was, pending[..i], pending[i], before, uploaded, codec);
      assert pending[..i + 1] == pending[..i] + [pending[i]];
      body.SetMediaLocator(t, p, uploaded[hash]);
    }
    assert pending[..|pending|] == pending;
  }

  /** The loop when each upload draws a new attempt id: the locators are fresh. */
  method StoreMedia(body: Body, codec: Codec, attempts: Attempts)
    returns (uploaded: map<string, string>, puts: seq<(string, seq<byte>)>)
    requires HexHashes(codec) && attempts.New(|PendingOf(body.turns)|)
    modifies body
    ensures body.turns == StoreTurns(old(body.turns), PendingOf(old(body.turns)), uploaded, codec)
    ensures forall m | m in PendingOf(old(body.turns)) :: codec.hash(m.2) in uploaded
    ensures Uploads(puts, uploaded, codec, attempts.Locator) && FreshLocators(puts, uploaded, attempts)
  {
    uploaded, puts := UploadEach(body, codec, attempts.Locator);
    UploadsAreFresh(puts, uploaded, codec, attempts);
  }

  // ------------------------------------------------------- rows and media parts

  /** The row of a stored media part: its turn, index, type, length and hash,
      and the locator of that hash. */
  ghost predicate RowFor(row: MediaRow, turns: seq<Turn>, hashes: seq<string>, m: Pending,
                         uploaded: map<string, string>, codec: Codec)
  {
    && HasBytes(turns, m) && m.0 < |hashes| && codec.hash(m.2) in uploaded
    && row == MediaRow(hashes[m.0], m.1 % 0x1_0000_0000, GetOr(turns[m.0].parts[m.1].mediaType, ""), |m.2|,
                       codec.hash(m.2), uploaded[codec.hash(m.2)])
  }

  lemma {:induction false} StoredPartRows(turns: seq<Turn>, hashes: seq<string>, t: nat, n: nat, done: seq<Pending>,
                                          uploaded: map<string, string>, codec: Codec)
    requires t < |turns| == |hashes| && n <= |turns[t].parts| && Fresh(turns[t].parts, codec)
    requires forall m | HasBytes(turns, m) :: m in done && codec.hash(m.2) in uploaded && |m.2| <= MAX_I64
    ensures var rows := RowsOfParts(hashes[t], StoreParts(turns[t].parts, t, done, uploaded, codec)[..n]);
            var pending := PendingOfParts(t, turns[t].parts[..n]);
            && |rows| == |pending|
            && forall i :: 0 <= i < |rows| ==> RowFor(rows[i], turns, hashes, pending[i], uploaded, codec)
  {
    if n > 0 {
      var parts := turns[t].parts;
      StoredPartRows(turns, hashes, t, n - 1, done, uploaded, codec);
      var stored := StoreParts(parts, t, done, uploaded, codec);
      assert stored[..n][..n - 1] == stored[..n - 1] && parts[..n][..n - 1] == parts[..n - 1];
      assert FreshMedia(parts[n - 1], codec);
      if parts[n - 1].mediaBytes.Some? { assert HasBytes(turns, (t, n - 1, parts[n - 1].mediaBytes.value)); }
    }
  }

  ghost predicate RowsFor(rows: seq<MediaRow>, turns: seq<Turn>, hashes: seq<string>, pending: seq<Pending>,
                          uploaded: map<string, string>, codec: Codec)
  {
    |rows| == |pending| && forall i :: 0 <= i < |rows| ==> RowFor(rows[i], turns, hashes, pending[i], uploaded, codec)
  }

  lemma {:induction false} RowsForConcat(r: seq<MediaRow>, s: seq<MediaRow>, turns: seq<Turn>, hashes: seq<string>,
                                         p: seq<Pending>,
                                         q: seq<Pending>, uploaded: map<string, string>, codec: Codec)
    requires RowsFor(r, turns, hashes, p, uploaded, codec) && RowsFor(s, turns, hashes, q, uploaded, codec)
    ensures RowsFor(r + s, turns, hashes, p + q, uploaded, codec)
  {
  }

  lemma {:induction false} RowsMatchPrefix(turns: seq<Turn>, hashes: seq<string>, n: nat, done: seq<Pending>,
                                           uploaded: map<string, string>, codec: Codec)
    requires n <= |turns| == |hashes|
    requires forall t | t in turns :: Fresh(t.parts, codec)
    requires forall m | HasBytes(turns, m) :: m in done && codec.hash(m.2) in uploaded && |m.2| <= MAX_I64
    ensures RowsFor(RowsOf(StoreTurns(turns, done, uploaded, codec)[..n], hashes[..n]), turns, hashes,
                    PendingOf(turns[..n]), uploaded, codec)
  {
    if n > 0 {
      var t := n - 1;
      RowsMatchPrefix(turns, hashes, t, done, uploaded, codec);
      var stored := StoreTurns(turns, done, uploaded, codec);
      assert stored[..n][..t] == stored[..t] && turns[..n][..t] == turns[..t] && hashes[..n][..t] == hashes[..t];
      StoredPartRows(turns, hashes, t, |turns[t].parts|, done, uploaded, codec);
      assert turns[t].parts[..|turns[t].parts|] == turns[t].parts;
      assert stored[t].parts[..|stored[t].parts|] == stored[t].parts;
      RowsForConcat(RowsOf(stored[..t], hashes[..t]), RowsOfParts(hashes[t], stored[t].parts), turns, hashes,
                    PendingOf(turns[..t]), PendingOfParts(t, turns[t].parts), uploaded, codec);
    }
  }

  /** Once a fresh body's media is stored, its rows and its media parts match
      one to one and in order, and no bytes are left behind. */
  lemma {:induction false} RowsMatchMedia(turns: seq<Turn>, hashes: seq<string>, uploaded: map<string, string>,
                                          codec: Codec)
    requires |turns| == |hashes|
    requires forall t | t in turns :: Fresh(t.parts, codec)
    requires forall m | m in PendingOf(turns) :: codec.hash(m.2) in uploaded && |m.2| <= MAX_I64
    ensures var stored, pending := StoreTurns(turns, PendingOf(turns), uploaded, codec), PendingOf(turns);
            var rows := RowsOf(stored, hashes);
            && (forall m :: !HasBytes(stored, m))
            && |rows| == |pending|
            && forall i :: 0 <= i < |rows| ==> RowFor(rows[i], turns, hashes, pending[i], uploaded, codec)
  {
    forall m ensures m in PendingOf(turns) <==> HasBytes(turns, m) { PendingAre(turns, m); }
    RowsMatchPrefix(turns, hashes, |turns|, PendingOf(turns), uploaded, codec);
    var stored := StoreTurns(turns, PendingOf(turns), uploaded, codec);
    assert stored[..|turns|] == stored && turns[..|turns|] == turns && hashes[..|turns|] == hashes;
  }

  // ------------------------------------------------------------ turn identity

  lemma {:induction false} PresentHead(x: seq<(string, Option<Value>)>)
    requires x != [] && forall i | 0 < i < |x| :: x[i].0 != x[0].0
    ensures x[0].1.None? ==> Present(x) == Present(x[1..])
    ensures x[0].1.Some? ==>
      Present(x) != [] && Present(x)[0] == (x[0].0, x[0].1.value) && Present(x)[1..] == Present(x[1..])
    ensures forall f | f in Present(x[1..]) :: f.0 != x[0].0
  {
    PresentKeys(x[1..]);
    forall f | f in Present(x[1..]) ensures f.0 != x[0].0 {
      var i :| 0 <= i < |x| - 1 && x[1..][i].0 == f.0;
      assert x[1..][i] == x[i + 1];
    }
  }

  lemma {:induction false} PresentInjective(x: seq<(string, Option<Value>)>, y: seq<(string, Option<Value>)>)
    requires |x| == |y|
    requires forall i | 0 <= i < |x| :: x[i].0 == y[i].0
    requires forall i, j | 0 <= i < j < |x| :: x[i].0 != x[j].0
    ensures Present(x) == Present(y) ==> x == y
  {
    if x != [] && Present(x) == Present(y) {
      PresentHead(x);
      PresentHead(y);
      SameHead(x, y);
      PresentInjective(x[1..], y[1..]);
      assert x == [x[0]] + x[1..] && y == [y[0]] + y[1..];
    }
  }

  /** Equal maps agree on the first entry: only it has that key. */
  lemma {:induction false} SameHead(x: seq<(string, Option<Value>)>, y: seq<(string, Option<Value>)>)
    requires x != [] && y != [] && x[0].0 == y[0].0 && Present(x) == Present(y)
    requires x[0].1.None? ==> Present(x) == Present(x[1..])
    requires y[0].1.None? ==> Present(y) == Present(y[1..])
    requires x[0].1.Some? ==>
      Present(x) != [] && Present(x)[0] == (x[0].0, x[0].1.value) && Present(x)[1..] == Present(x[1..])
    requires y[0].1.Some? ==>
      Present(y) != [] && Present(y)[0] == (y[0].0, y[0].1.value) && Present(y)[1..] == Present(y[1..])
    requires forall f | f in Present(x[1..]) :: f.0 != x[0].0
    requires forall f | f in Present(y[1..]) :: f.0 != y[0].0
    ensures x[0] == y[0] && Present(x[1..]) == Present(y[1..])
  {
    assert x[0].1.Some? ==> Present(x)[0] in Present(x);
    assert y[0].1.Some? ==> Present(y)[0] in Present(y);
  }

  lemma {:induction false} PresentKeys(x: seq<(string, Option<Value>)>)
    ensures forall f | f in Present(x) :: exists i :: 0 <= i < |x| && x[i].0 == f.0
  {
    if x != [] { PresentKeys(x[1..]); }
  }

  /** Two turns get one content hash exactly when they have one role and equal
      parts; where a turn came from and its raw media bytes play no part. */
  lemma {:induction false} TurnIdentity(a: Turn, b: Turn, digest: Value -> string)
    ensures var x, y := AtomFromTurn(a, digest).contentHash, AtomFromTurn(b, digest).contentHash;
            && (a.role == b.role && ClearParts(a.parts) == ClearParts(b.parts) ==> x == y)
            && (x == y && Canonical.NoCollision(digest, Identity(a), Identity(b))
                ==> a.role == b.role && ClearParts(a.parts) == ClearParts(b.parts))
  {
    IdentityFields(a, digest);
    IdentityFields(b, digest);
    PartValuesInjective(a.parts, b.parts);
  }

  /** The value that is hashed for a turn. */
  function Identity(turn: Turn): Value
  {
    Object([("role", String(turn.role)), ("parts", Array(PartValues(turn.parts)))])
  }

  lemma {:induction false} IdentityFields(turn: Turn, digest: Value -> string)
    ensures AtomFromTurn(turn, digest).contentHash == digest(Identity(turn))
    ensures Get(AtomFromTurn(turn, digest).content, "origin") == Some(String(turn.origin))
  {
    var fields := TurnFields(turn.role, turn.origin, PartValues(turn.parts));
    assert fields[1..][0].0 == "origin" && fields[1..][1..] == [fields[2]];
    assert Remove(fields, "origin") == Identity(turn).fields;
    assert Find(fields, "origin") == Some(String(turn.origin));
  }

  lemma {:induction false} PartValuesInjective(a: seq<Part>, b: seq<Part>)
    ensures PartValues(a) == PartValues(b) <==> ClearParts(a) == ClearParts(b)
  {
    if |a| == |b| {
      forall i | 0 <= i < |a|
        ensures PartValues(a)[i] == PartValues(b)[i] <==> ClearParts(a)[i] == ClearParts(b)[i]
      {
        PartValueInjective(a[i], b[i]);
      }
      if PartValues(a) == PartValues(b) {
        forall i | 0 <= i < |a| ensures ClearParts(a)[i] == ClearParts(b)[i] {
          assert PartValues(a)[i] == PartValues(b)[i];
        }
      }
      if ClearParts(a) == ClearParts(b) {
        forall i | 0 <= i < |a| ensures PartValues(a)[i] == PartValues(b)[i] {
          assert ClearParts(a)[i] == ClearParts(b)[i];
        }
      }
    } else {
      assert |PartValues(a)| == |a| && |PartValues(b)| == |b| && |ClearParts(a)| == |a| && |ClearParts(b)| == |b|;
    }
  }

  lemma {:induction false} PartValueInjective(a: Part, b: Part)
    ensures PartValue(a, a.text) == PartValue(b, b.text) <==> a.(mediaBytes := None) == b.(mediaBytes := None)
  {
    var x, y := PartEntries(a, a.text), PartEntries(b, b.text);
    PresentInjective(x, y);
    assert x == y <==> forall i | 0 <= i < 9 :: x[i] == y[i];
    assert x[0] == y[0] <==> a.partIndex == b.partIndex;
    assert x[1] == y[1] <==> a.kind == b.kind;
    assert x[2] == y[2] <==> a.text == b.text;
    assert x[3] == y[3] <==> a.mediaType == b.mediaType;
    assert x[4] == y[4] <==> a.byteLength == b.byteLength;
    assert x[5] == y[5] <==> a.contentBlake3 == b.contentBlake3;
    assert x[6] == y[6] <==> a.objectLocator == b.objectLocator;
    assert x[7] == y[7] <==> a.callId == b.callId;
    assert x[8] == y[8] <==> a.toolCallId == b.toolCallId;
  }

  // ------------------------------------------------------------ what is stored

  predicate Says(v: Value, key: string, text: Option<string>)
  {
    Get(v, key) == if text.Some? then Some(String(text.value)) else None
  }

  /** A stored part says what the part is, under these names; its bytes are not told. */
  predicate PartSays(v: Value, part: Part)
  {
    && Get(v, "part_index") == Some(Number(part.partIndex)) && Get(v, "kind") == Some(String(part.kind))
    && Says(v, "text", part.text) && Says(v, "media_type", part.mediaType)
    && Get(v, "byte_length") == (if part.byteLength.Some? then Some(Number(part.byteLength.value)) else None)
    && Says(v, "content_blake3", part.contentBlake3) && Says(v, "object_locator", part.objectLocator)
    && Says(v, "call_id", part.callId) && Says(v, "tool_call_id", part.toolCallId)
  }

  lemma {:induction false} PresentReads(x: seq<(string, Option<Value>)>, i: nat)
    requires i < |x| && forall j, k | 0 <= j < k < |x| :: x[j].0 != x[k].0
    ensures Find(Present(x), x[i].0) == x[i].1
  {
    PresentHead(x);
    var rest := x[1..];
    if i == 0 {
      if x[0].1.None? { NotFound(Present(rest), x[0].0); }
    } else {
      assert rest[i - 1] == x[i];
      PresentReads(rest, i - 1);
    }
  }

  lemma {:induction false} NotFound(fields: Fields, key: string)
    requires forall f | f in fields :: f.0 != key
    ensures Find(fields, key).None?
  {
    if fields != [] { NotFound(fields[1..], key); }
  }

  lemma {:induction false} StoredPartSays(part: Part)
    ensures PartSays(PartValue(part, part.text), part)
  {
    var x := PartEntries(part, part.text);
    forall i: nat | i < 9 ensures Find(Present(x), x[i].0) == x[i].1 { PresentReads(x, i); }
    assert x[0].0 == "part_index" && x[1].0 == "kind" && x[2].0 == "text";
    assert x[3].0 == "media_type" && x[4].0 == "byte_length" && x[5].0 == "content_blake3";
    assert x[6].0 == "object_locator" && x[7].0 == "call_id" && x[8].0 == "tool_call_id";
  }

  /** The value says whose turn it is, and each of its parts in order. */
  predicate TurnSays(v: Value, turn: Turn)
  {
    && Get(v, "role") == Some(String(turn.role))
    && match Get(v, "parts")
       case Some(Array(parts)) =>
         |parts| == |turn.parts| && forall i | 0 <= i < |parts| :: PartSays(parts[i], turn.parts[i])
       case _ => false
  }

  /** The atom of a turn: the turn with its origin, under the hash of the turn without. */
  lemma {:induction false} TurnIsTold(turn: Turn, digest: Value -> string)
    ensures var atom := AtomFromTurn(turn, digest);
            && atom.role == turn.role && atom.kind == "turn"
            && TurnSays(atom.content, turn) && Says(atom.content, "origin", Some(turn.origin))
            && atom.contentHash == atom.instanceHash == digest(Identity(turn))
            && TurnSays(Identity(turn), turn) && Says(Identity(turn), "origin", None)
  {
    IdentityFields(turn, digest);
    var identity := Identity(turn).fields;
    assert TurnFields(turn.role, turn.origin, PartValues(turn.parts))[1..][0].0 == "origin";
    assert Remove(TurnFields(turn.role, turn.origin, PartValues(turn.parts)), "origin") == identity;
    assert identity[1..][0] == ("parts", Array(PartValues(turn.parts))) && identity[1..][1..] == [];
    NotFound(identity, "origin");
    InsertKeepsOthers(identity, "origin", String(turn.origin), "role");
    InsertKeepsOthers(identity, "origin", String(turn.origin), "parts");
    forall i | 0 <= i < |turn.parts| ensures PartSays(PartValues(turn.parts)[i], turn.parts[i]) {
      StoredPartSays(turn.parts[i]);
    }
  }
}
