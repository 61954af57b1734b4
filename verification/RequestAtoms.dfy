/** Semantic atoms of a request: from the whole parsed document, and streamed
    one message at a time from the raw fields
    (src/conversation.rs:144-160, 311-382, 388-451). */
module RequestAtoms {
  import opened Json
  import opened Canonical

  /** Well-formed JSON text before it becomes a `Value`: an object may still
      repeat a key. */
  datatype Raw =
    | RawNull
    | RawBool(b: bool)
    | RawNumber(n: int)
    | RawFloat(r: real)
    | RawString(s: string)
    | RawArray(items: seq<Raw>)
    | RawObject(fields: seq<(string, Raw)>)

  /** `serde_json::from_slice::<Value>`: the last of a repeated key wins. */
  function Parse(raw: Raw): Value
    decreases raw, 1, 0
  {
    match raw
    case RawNull => Null
    case RawBool(b) => Bool(b)
    case RawNumber(n) => Number(n)
    case RawFloat(r) => Float(r)
    case RawString(s) => String(s)
    case RawArray(items) => Array(seq(|items|, i requires 0 <= i < |items| => Parse(items[i])))
    case RawObject(fields) => Object(ParseFields(fields, raw))
  }

  /** Fields are inserted in text order, so this folds from the last one. */
  function ParseFields(fields: seq<(string, Raw)>, ghost outer: Raw): Fields
    requires forall f :: f in fields ==> f.1 < outer
    decreases outer, 0, |fields|
  {
    if fields == [] then []
    else
      var last := fields[|fields| - 1];
      Insert(ParseFields(fields[..|fields| - 1], outer), last.0, Parse(last.1))
  }

  /** The last field of a name, as the selector's variable ends up holding. */
  function Last(fields: seq<(string, Raw)>, key: string): Option<Raw>
  {
    if fields == [] then None
    else if fields[|fields| - 1].0 == key then Some(fields[|fields| - 1].1)
    else Last(fields[..|fields| - 1], key)
  }

  // ----------------------------------------------------------- whole document

  function ExtractAtoms(request: Value, digest: Value -> string): seq<SemanticAtom>
  {
    var field := OrElse(Get(request, "messages"), Get(request, "input"));
    if field.None? then [] else AtomsOfField(field.value, digest)
  }

  function AtomsOfField(field: Value, digest: Value -> string): seq<SemanticAtom>
  {
    match field
    case Array(items) => AtomsOf(items, digest)
    case String(text) => [AtomFromEntry(UserText(text), digest)]
    case Object(_) => [AtomFromEntry(field, digest)]
    case _ => []
  }

  function UserText(text: string): Value
  {
    Object([("role", String("user")), ("content", String(text))])
  }

  function AtomsOf(items: seq<Value>, digest: Value -> string): (r: seq<SemanticAtom>)
    ensures |r| == |items|
  {
    seq(|items|, i requires 0 <= i < |items| => AtomFromEntry(items[i], digest))
  }

  // ----------------------------------------------------------------- streamed

  /** `select_message_field`: remembers the last `messages` and the last
      `input`; a request that is not an object selects nothing. */
  method SelectMessageField(request: Raw) returns (selected: Option<Raw>)
    ensures selected ==
      if request.RawObject? then OrElse(Last(request.fields, "messages"), Last(request.fields, "input")) else None
  {
    if !request.RawObject? { return None; }
    var messages: Option<Raw>, input: Option<Raw> := None, None;
    for i := 0 to |request.fields|
      invariant messages == Last(request.fields[..i], "messages")
      invariant input == Last(request.fields[..i], "input")
    {
      var (key, raw) := request.fields[i];
      assert request.fields[..i + 1][..i] == request.fields[..i];
      if key == "messages" {
        messages := Some(raw);
      } else if key == "input" {
        input := Some(raw);
      }
    }
    assert request.fields[..|request.fields|] == request.fields;
    selected := OrElse(messages, input);
  }

  /** What a visitor is shown of a list: everything, or up to and including the
      first atom it refuses. `accepts` sees all atoms shown so far. */
  ghost predicate ShownOf(all: seq<SemanticAtom>, accepts: seq<SemanticAtom> -> bool, shown: seq<SemanticAtom>,
                          ok: bool)
  {
    && shown <= all
    && (forall i :: 0 < i < |shown| ==> accepts(shown[..i]))
    && (ok ==> shown == all && (all != [] ==> accepts(shown)))
    && (!ok ==> shown != [] && !accepts(shown))
  }

  /** `for_each_array`: each element is parsed, turned into an atom and handed
      over before the next is read. */
  method ForEachArray(items: seq<Raw>, digest: Value -> string, accepts: seq<SemanticAtom> -> bool)
    returns (shown: seq<SemanticAtom>, ok: bool)
    ensures ShownOf(AtomsOf(Parse(RawArray(items)).items, digest), accepts, shown, ok)
  {
    ghost var all := AtomsOf(Parse(RawArray(items)).items, digest);
    shown := [];
    for i := 0 to |items|
      invariant |shown| == i && shown == all[..i]
      invariant forall j :: 0 < j < i ==> accepts(shown[..j])
      invariant i > 0 ==> accepts(shown)
    {
      ghost var before := shown;
      var atom := AtomFromEntry(Parse(items[i]), digest);
      assert all[i] == atom;
      shown := shown + [atom];
      assert shown[..i] == before;
      assert forall j :: 0 < j < i ==> shown[..j] == before[..j];
      if !accepts(shown) { return shown, false; }
    }
    ok := true;
  }

  /** `try_for_each_request_atom` on well-formed JSON. */
  method ForEachRequestAtom(request: Raw, digest: Value -> string, accepts: seq<SemanticAtom> -> bool)
    returns (shown: seq<SemanticAtom>, ok: bool)
    ensures ShownOf(ExtractAtoms(Parse(request), digest), accepts, shown, ok)
  {
    var selected := SelectMessageField(request);
    ExtractFromSelected(request, digest, selected);
    if selected.None? { return [], true; }
    match selected.value
    case RawArray(items) =>
      shown, ok := ForEachArray(items, digest, accepts);
    case RawString(text) =>
      shown := [AtomFromEntry(UserText(text), digest)];
      ok := accepts(shown);
    case RawObject(_) =>
      shown := [AtomFromEntry(Parse(selected.value), digest)];
      ok := accepts(shown);
    case _ =>
      shown, ok := [], true;
  }

  /** Last duplicate wins on both sides: in the parsed map and in the selector. */
  lemma {:induction false} ParsedFieldIsLast(fields: seq<(string, Raw)>, outer: Raw, key: string)
    requires forall f :: f in fields ==> f.1 < outer
    ensures var last := Last(fields, key);
            Find(ParseFields(fields, outer), key) == if last.Some? then Some(Parse(last.value)) else None
    decreases |fields|
  {
    if fields != [] {
      var last := fields[|fields| - 1];
      var before := ParseFields(fields[..|fields| - 1], outer);
      ParsedFieldIsLast(fields[..|fields| - 1], outer, key);
      if last.0 != key { InsertKeepsOthers(before, last.0, Parse(last.1), key); }
    }
  }

  lemma {:induction false} ExtractFromSelected(request: Raw, digest: Value -> string, selected: Option<Raw>)
    requires selected ==
      if request.RawObject? then OrElse(Last(request.fields, "messages"), Last(request.fields, "input")) else None
    ensures ExtractAtoms(Parse(request), digest) ==
      if selected.None? then [] else AtomsOfField(Parse(selected.value), digest)
  {
    if request.RawObject? {
      ParsedFieldIsLast(request.fields, request, "messages");
      ParsedFieldIsLast(request.fields, request, "input");
    }
  }

  /** The atoms of a request, told from it: one for each of its messages, or one for a lone
      text or a lone entry. */
  ghost predicate AtomsSay(atoms: seq<SemanticAtom>, request: Value, digest: Value -> string)
  {
    match (if Get(request, "messages").Some? then Get(request, "messages") else Get(request, "input"))
    case Some(Array(items)) =>
      |atoms| == |items| && forall i | 0 <= i < |items| :: AtomSays(atoms[i], items[i], digest)
    case Some(String(text)) =>
      |atoms| == 1 && AtomSays(atoms[0], Object([("role", String("user")), ("content", String(text))]), digest)
    case Some(Object(fields)) => |atoms| == 1 && AtomSays(atoms[0], Object(fields), digest)
    case _ => atoms == []
  }

  lemma {:induction false} FieldWellFormed(v: Value, key: string)
    requires WellFormed(v)
    ensures Get(v, key).Some? ==> WellFormed(Get(v, key).value)
  {
    if v.Object? { FoundWellFormed(v.fields, key); }
  }

  lemma {:induction false} FoundWellFormed(fields: Fields, key: string)
    requires forall i | 0 <= i < |fields| :: WellFormed(fields[i].1)
    ensures Find(fields, key).Some? ==> WellFormed(Find(fields, key).value)
  {
    if fields != [] && fields[0].0 != key { FoundWellFormed(fields[1..], key); }
  }

  /** Without duplicate keys, as in every parsed request, the atoms are those. */
  lemma {:induction false} AtomsAreTold(request: Value, digest: Value -> string)
    requires WellFormed(request)
    ensures AtomsSay(ExtractAtoms(request, digest), request, digest)
  {
    FieldWellFormed(request, "messages");
    FieldWellFormed(request, "input");
    var field: Option<Value> := OrElse(Get(request, "messages"), Get(request, "input"));
    match field
    case Some(Array(items)) => forall i | 0 <= i < |items| { AtomIsTold(items[i], digest); }
    case Some(String(text)) => AtomIsTold(UserText(text), digest);
    case Some(Object(fields)) => AtomIsTold(Object(fields), digest);
    case _ =>
  }
}
