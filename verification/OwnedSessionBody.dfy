/** The consuming path: it takes values out of the documents and strips private
    keys only where nested JSON is printed
    (src/conversation.rs:735-772, 943-1125). Each method is held to the
    function that specifies the borrowed path. */
module OwnedSessionBody {
  import opened Json
  import opened SessionBody

  function StripOption(v: Option<Value>): Option<Value>
  {
    if v.Some? then Some(StripPrivate(v.value)) else None
  }

  lemma {:induction false} FindStripped(fields: Fields, outer: Value, key: string)
    requires forall f :: f in fields ==> f.1 < outer
    requires !PrivateKey(key)
    ensures Find(StripPrivateFields(fields, outer), key) == StripOption(Find(fields, key))
    decreases |fields|
  {
    if fields != [] {
      FindStripped(fields[1..], outer, key);
      var rest := StripPrivateFields(fields[1..], outer);
      if !PrivateKey(fields[0].0) {
        var all := StripPrivateFields(fields, outer);
        assert all[0] == (fields[0].0, StripPrivate(fields[0].1)) && all[1..] == rest;
      } else {
        assert StripPrivateFields(fields, outer) == rest;
      }
    }
  }

  /** A public field of a cleaned value is the cleaned public field. */
  lemma {:induction false} GetStripped(v: Value, key: string)
    requires !PrivateKey(key)
    ensures Get(StripPrivate(v), key) == StripOption(Get(v, key))
    ensures Child(StripPrivate(v), key) == StripOption(Child(v, key))
    ensures GetStr(StripPrivate(v), key) == GetStr(v, key)
  {
    if v.Object? { FindStripped(v.fields, v, key); }
  }

  lemma {:induction false} ThenStripped(v: Option<Value>, token: string)
    requires !PrivateKey(token)
    ensures Then(StripOption(v), token) == StripOption(Then(v, token))
    ensures AsStr(StripOption(v)) == AsStr(v)
  {
    if v.Some? { GetStripped(v.value, token); }
  }

  lemma {:induction false} CandidatesStripped(v: Value)
    ensures Candidates(StripPrivate(v)) == Candidates(v)
  {
    GetStripped(v, "image_url");
    GetStripped(v, "url");
    GetStripped(v, "data");
    GetStripped(v, "source");
    GetStripped(v, "file_data");
    GetStripped(v, "result");
    GetStripped(v, "b64_json");
    ThenStripped(Child(v, "image_url"), "url");
    ThenStripped(Child(v, "source"), "data");
    ThenStripped(Then(Child(v, "image_url"), "url"), "");
    ThenStripped(Then(Child(v, "source"), "data"), "");
  }

  /** Text and media are read from fixed public fields, so cleaning the whole
      item first changes nothing they see. */
  lemma {:induction false} ReadsStripped(v: Value, codec: Codec)
    ensures GetStr(StripPrivate(v), "type") == GetStr(v, "type")
    ensures GetStr(StripPrivate(v), "text") == GetStr(v, "text")
    ensures GetStr(StripPrivate(v), "content") == GetStr(v, "content")
    ensures PrivateOnly(StripPrivate(v)) == PrivateOnly(v)
    ensures MediaFromPart(StripPrivate(v), codec) == MediaFromPart(v, codec)
    ensures StripPrivate(v).String? == v.String? && StripPrivate(v).Object? == v.Object?
    ensures v.String? ==> StripPrivate(v) == v
  {
    GetStripped(v, "type");
    GetStripped(v, "text");
    GetStripped(v, "content");
    CandidatesStripped(v);
  }

  /** The text taken out of an item: its `text` field when that is a string, else
      its `content`. */
  function TakeText(item: Value): Option<string>
  {
    match item
    case String(s) => Some(s)
    case Object(fields) => AsStr(Find(fields, if AsStr(Find(fields, "text")).Some? then "text" else "content"))
    case _ => None
  }

  lemma {:induction false} PlainPart(index: nat, item: Value, callId: Option<string>, toolCallId: Option<string>,
                                     codec: Codec)
    requires GetStr(item, "type") != Some("tool_use") && GetStr(item, "type") != Some("tool_result")
    requires !PrivateOnly(item) && MediaFromPart(item, codec).None?
    ensures PartOf(index, item, callId, toolCallId, codec)
            == if GetOr(TakeText(item), "") == "" && !item.String? then None
               else Some(TextPart(index, TakeText(item), callId, toolCallId))
  {
    ReadsStripped(item, codec);
  }

  /** `push_owned_content_part`. */
  method PushOwnedContentPart(parts: seq<Part>, item: Value, callId: Option<string>, toolCallId: Option<string>,
                              codec: Codec)
    returns (out: seq<Part>)
    ensures out == PushContentPart(parts, item, callId, toolCallId, codec)
  {
    ReadsStripped(item, codec);
    var index := NextIndex(parts);
    var kind := GetStr(item, "type");
    if kind.Some? && kind.value in {"tool_use", "tool_result"} {
      var cleaned := StripPrivate(item);
      if GetStr(cleaned, "type") == Some("tool_use") {
        return parts + [ToolCallPart(index, cleaned, codec)];
      } else {
        return parts + [ToolResultPart(index, cleaned, codec)];
      }
    }
    if PrivateOnly(item) { return parts; }
    var media := MediaFromPart(item, codec);
    if media.Some? { return parts + [MediaPart(index, media.value, callId, toolCallId, codec)]; }
    PlainPart(index, item, callId, toolCallId, codec);
    var text := TakeText(item);
    if GetOr(text, "") == "" && !item.String? { return parts; }
    out := parts + [TextPart(index, text, callId, toolCallId)];
  }

  lemma {:induction false} StringHasNoMedia(s: string, codec: Codec)
    ensures MediaFromPart(String(s), codec).None?
  {
    assert forall c :: c in Candidates(String(s)) ==> c.None?;
    NothingDecoded(Candidates(String(s)), KindMediaType(""), codec);
  }

  /** A lone string is one text part, even an empty one. */
  lemma {:induction false} StringPart(index: nat, s: string, callId: Option<string>, toolCallId: Option<string>,
                                      codec: Codec)
    ensures PartOf(index, String(s), callId, toolCallId, codec) == Some(TextPart(index, Some(s), callId, toolCallId))
  {
    StringHasNoMedia(s, codec);
    assert StripPrivate(String(s)) == String(s);
  }

  lemma {:induction false} NothingDecoded(candidates: seq<Option<string>>, declared: Option<string>, codec: Codec)
    requires forall c :: c in candidates ==> c.None?
    ensures FirstDecoded(candidates, declared, codec).None?
  {
    if candidates != [] {
      assert candidates[0] in candidates;
      NothingDecoded(candidates[1..], declared, codec);
    }
  }

  /** `turn_from_owned_content`. A lone string is pushed like any other item. */
  method TurnFromOwnedContent(role: string, origin: string, content: Value, callId: Option<string>,
                              toolCallId: Option<string>, codec: Codec) returns (turn: Turn)
    ensures turn == TurnFromContent(role, origin, content, callId, toolCallId, codec)
  {
    var parts: seq<Part> := [];
    match content {
      case Array(items) =>
        for i := 0 to |items|
          invariant parts == PartsOf(items[..i], callId, toolCallId, codec)
        {
          assert items[..i + 1][..i] == items[..i];
          parts := PushOwnedContentPart(parts, items[i], callId, toolCallId, codec);
        }
        assert items[..|items|] == items;
      case String(s) =>
        StringPart(0, s, callId, toolCallId, codec);
        parts := PushOwnedContentPart(parts, content, callId, toolCallId, codec);
      case _ =>
        parts := PushOwnedContentPart(parts, content, callId, toolCallId, codec);
    }
    turn := Turn(role, origin, parts);
  }

  /** `Value::take` on a field: hands out the value and leaves `null` behind. */
  function TakeField(v: Value, key: string): (r: (Option<Value>, Value))
    ensures r.0 == Get(v, key)
    ensures forall other :: other != key ==> Get(r.1, other) == Get(v, other)
  {
    if Get(v, key).None? then (None, v)
    else
      assert forall other :: other != key ==> Find(Insert(v.fields, key, Null), other) == Find(v.fields, other) by {
        forall other | other != key ensures Find(Insert(v.fields, key, Null), other) == Find(v.fields, other) {
          InsertKeepsOthers(v.fields, key, Null, other);
        }
      }
      (Get(v, key), Object(Insert(v.fields, key, Null)))
  }

  /** `turn_from_owned_entry`. */
  method TurnFromOwnedEntry(entry: Value, origin: string, codec: Codec) returns (turn: Turn)
    ensures turn == TurnFromEntry(entry, origin, codec)
  {
    var kind, role := EntryKind(entry), EntryRole(entry, origin);
    if kind == "function_call" || kind == "function_call_output" || role == "tool" {
      return TurnFromEntry(entry, origin, codec);
    }
    var callId, toolCallId := GetStr(entry, "call_id"), GetStr(entry, "tool_call_id");
    var (taken, rest) := TakeField(entry, "content");
    var content := GetOr(taken, Null);
    if content.Null? {
      turn := Turn(role, origin, []);
    } else {
      turn := TurnFromOwnedContent(role, origin, content, callId, toolCallId, codec);
    }
    var calls := AsArray(Get(rest, "tool_calls"));
    if calls.Some? {
      var parts := turn.parts;
      for i := 0 to |calls.value|
        invariant parts == AddToolCalls(turn.parts, calls.value[..i], codec)
      {
        assert calls.value[..i + 1][..i] == calls.value[..i];
        parts := parts + [ToolCallPart(NextIndex(parts), calls.value[i], codec)];
      }
      assert calls.value[..|calls.value|] == calls.value;
      turn := turn.(parts := parts);
    }
  }

  /** `append_owned_entry_turns` with `flush_owned_bare_parts`. */
  method AppendOwnedEntryTurns(turns: seq<Turn>, items: seq<Value>, origin: string,
                               codec: Codec) returns (out: seq<Turn>)
    ensures out == turns + EntryTurns(items, [], origin, codec)
  {
    out := turns;
    var bare: seq<Value> := [];
    ghost var goal := turns + EntryTurns(items, [], origin, codec);
    for i := 0 to |items|
      invariant goal == out + EntryTurns(items[i..], bare, origin, codec)
    {
      EntryStep(out, items, i, bare, origin, codec);
      if IsBareContentPart(items[i]) {
        bare := bare + [items[i]];
      } else {
        out := FlushOwnedBareParts(out, bare, origin, codec);
        var turn := TurnFromOwnedEntry(items[i], origin, codec);
        out, bare := out + [turn], [];
      }
    }
    out := FlushOwnedBareParts(out, bare, origin, codec);
  }

  method FlushOwnedBareParts(turns: seq<Turn>, bare: seq<Value>, origin: string, codec: Codec) returns (out: seq<Turn>)
    ensures out == turns + FlushBare(bare, origin, codec)
  {
    out := turns;
    if bare != [] {
      var turn := TurnFromOwnedContent("user", origin, Array(bare), None, None, codec);
      out := out + [turn];
    }
  }

  /** `from_request_document`. */
  method FromRequestDocument(request: Value, codec: Codec) returns (turns: seq<Turn>)
    ensures turns == RequestTurns(request, codec)
  {
    turns := [];
    var (taken, _) := TakeField(request, if Get(request, "messages").Some? then "messages" else "input");
    if taken.None? { return; }
    match taken.value {
      case String(text) =>
        var turn := TurnFromOwnedContent("user", "request", String(text), None, None, codec);
        turns := [turn];
      case Array(items) =>
        turns := AppendOwnedEntryTurns([], items, "request", codec);
      case Object(_) =>
        var turn := TurnFromOwnedEntry(taken.value, "request", codec);
        turns := [turn];
      case _ =>
    }
  }

  /** `append_return_document`. */
  method AppendReturnDocument(turns: seq<Turn>, document: Value, codec: Codec) returns (out: seq<Turn>)
    ensures out == turns + ReturnTurns(document, codec)
  {
    out := turns;
    var output := AsArray(Get(document, "output"));
    if output.Some? && output.value != [] {
      out := AppendOwnedEntryTurns(turns, output.value, "return", codec);
    } else if ReplyMessage(document).Some? {
      var turn := TurnFromOwnedEntry(ReplyMessage(document).value, "return", codec);
      out := turns + [turn];
    } else if Get(document, "role").Some? || Get(document, "content").Some? {
      var turn := TurnFromOwnedEntry(document, "return", codec);
      out := turns + [turn];
    }
  }

  /** The worker's two calls: the request is consumed before the reply loads. */
  method ConsumeDocuments(request: Value, document: Value, codec: Codec) returns (turns: seq<Turn>)
    ensures turns == BodyOf(request, document, codec)
  {
    turns := FromRequestDocument(request, codec);
    turns := AppendReturnDocument(turns, document, codec);
  }
}
