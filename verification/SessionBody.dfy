/** The session body of a request and its reply, as the borrowed path builds it
    (src/conversation.rs:488-556, 880-990, 1127-1331, 1541-1561). */
module SessionBody {
  import opened Json

  newtype byte = x: int | 0 <= x < 256

  datatype Part = Part(
    partIndex: nat, kind: string, text: Option<string>, mediaType: Option<string>,
    byteLength: Option<nat>, contentBlake3: Option<string>, objectLocator: Option<string>,
    callId: Option<string>, toolCallId: Option<string>, mediaBytes: Option<seq<byte>>)

  datatype Turn = Turn(role: string, origin: string, parts: seq<Part>)

  /** What the archive code calls and this model does not open: media payload
      decoding, the hash of media bytes, and compact JSON printing. */
  datatype Codec = Codec(
    decode: (string, Option<string>) -> Option<(string, seq<byte>)>,
    hash: seq<byte> -> string,
    render: Value -> string)

  const EmptyPart := Part(0, "", None, None, None, None, None, None, None, None)

  /** `parts.len() as u32`. */
  function NextIndex(parts: seq<Part>): nat
  {
    |parts| % 0x1_0000_0000
  }

  predicate PrivateKey(key: string)
  {
    key in {"encrypted_content", "encrypted_reasoning", "thought_signature", "reasoning_opaque"}
  }

  /** `strip_private_provider_fields`. */
  function StripPrivate(v: Value): Value
    decreases v, 1, 0
  {
    match v
    case Array(items) => Array(seq(|items|, i requires 0 <= i < |items| => StripPrivate(items[i])))
    case Object(fields) => Object(StripPrivateFields(fields, v))
    case _ => v
  }

  function StripPrivateFields(fields: Fields, ghost outer: Value): Fields
    requires forall f :: f in fields ==> f.1 < outer
    decreases outer, 0, |fields|
  {
    if fields == [] then []
    else
      (if PrivateKey(fields[0].0) then [] else [(fields[0].0, StripPrivate(fields[0].1))])
      + StripPrivateFields(fields[1..], outer)
  }

  function ValueText(v: Value, codec: Codec): string
  {
    if v.String? then v.s else codec.render(v)
  }

  function TextOf(v: Option<Value>, codec: Codec): Option<string>
  {
    if v.Some? then Some(ValueText(v.value, codec)) else None
  }

  predicate IsBareContentPart(v: Value)
  {
    Get(v, "role").None? && GetStr(v, "type").Some? && GetStr(v, "type").value in
    {"text", "input_text", "output_text", "input_image", "image", "image_url",
     "input_audio", "audio", "input_video", "video", "input_file", "file"}
  }

  predicate PrivateOnly(v: Value)
  {
    && GetStr(v, "type").Some? && GetStr(v, "type").value in {"reasoning", "compaction"}
    && Get(v, "text").None? && Get(v, "content").None?
  }

  // ------------------------------------------------------------------- media

  function KindMediaType(kind: string): Option<string>
  {
    if kind in {"input_image", "image", "image_url", "image_generation_call"} then Some("image/png")
    else if kind in {"input_audio", "audio"} then Some("audio/wav")
    else if kind in {"input_video", "video"} then Some("video/mp4")
    else if kind in {"input_file", "file"} then Some("application/octet-stream")
    else None
  }

  function MediaKind(mediaType: string): string
  {
    if "audio/" <= mediaType then "audio"
    else if "video/" <= mediaType then "video"
    else if "image/" <= mediaType then "image"
    else "file"
  }

  function Candidates(v: Value): seq<Option<string>>
  {
    [ GetStr(v, "image_url"),
      AsStr(Then(Child(v, "image_url"), "url")),
      GetStr(v, "url"),
      GetStr(v, "data"),
      AsStr(Then(Child(v, "source"), "data")),
      GetStr(v, "file_data"),
      GetStr(v, "result"),
      GetStr(v, "b64_json") ]
  }

  function FirstDecoded(candidates: seq<Option<string>>, declared: Option<string>, codec: Codec)
    : Option<(string, seq<byte>)>
  {
    if candidates == [] then None
    else if candidates[0].Some? && codec.decode(candidates[0].value, declared).Some?
    then codec.decode(candidates[0].value, declared)
    else FirstDecoded(candidates[1..], declared, codec)
  }

  function MediaFromPart(v: Value, codec: Codec): Option<(string, seq<byte>)>
  {
    var declared := KindMediaType(GetOr(GetStr(v, "type"), ""));
    var found := FirstDecoded(Candidates(v), declared, codec);
    if found.Some? then found
    else if declared.Some? && GetStr(v, "content").Some? then codec.decode(GetStr(v, "content").value, declared)
    else None
  }

  function MediaPart(index: nat, media: (string, seq<byte>), callId: Option<string>, toolCallId: Option<string>,
                     codec: Codec): Part
  {
    EmptyPart.(partIndex := index, kind := MediaKind(media.0), mediaType := Some(media.0),
               byteLength := Some(|media.1|), contentBlake3 := Some(codec.hash(media.1)),
               mediaBytes := Some(media.1), callId := callId, toolCallId := toolCallId)
  }

  // ------------------------------------------------------------------- parts

  function ToolCallPart(index: nat, call: Value, codec: Codec): Part
  {
    var name := OrElse(GetStr(call, "name"), AsStr(Then(Child(call, "function"), "name")));
    var given := OrElse(Get(call, "arguments"), Then(Child(call, "function"), "arguments"));
    var arguments := OrElse(given, Get(call, "input"));
    EmptyPart.(partIndex := index, kind := "tool_call",
               text := Some(GetOr(name, "") + "\n" + GetOr(TextOf(arguments, codec), "")),
               callId := AsStr(OrElse(Get(call, "call_id"), Get(call, "id"))))
  }

  function ToolResultPart(index: nat, item: Value, codec: Codec): Part
  {
    EmptyPart.(partIndex := index, kind := "tool_result",
               text := TextOf(Get(item, "content"), codec), toolCallId := GetStr(item, "tool_use_id"))
  }

  function TextPart(index: nat, text: Option<string>, callId: Option<string>, toolCallId: Option<string>): Part
  {
    EmptyPart.(partIndex := index, kind := "text", text := text, callId := callId, toolCallId := toolCallId)
  }

  /** The part an item becomes, if it becomes one. Reads a clone with every
      private key removed. */
  function PartOf(index: nat, item: Value, callId: Option<string>, toolCallId: Option<string>,
                  codec: Codec): Option<Part>
  {
    var cleaned := StripPrivate(item);
    if GetStr(cleaned, "type") == Some("tool_use") then Some(ToolCallPart(index, cleaned, codec))
    else if GetStr(cleaned, "type") == Some("tool_result") then Some(ToolResultPart(index, cleaned, codec))
    else if PrivateOnly(cleaned) then None
    else if MediaFromPart(cleaned, codec).Some?
    then Some(MediaPart(index, MediaFromPart(cleaned, codec).value, callId, toolCallId, codec))
    else
      var text :=
        match cleaned
        case String(s) => Some(s)
        case Object(_) => OrElse(GetStr(cleaned, "text"), GetStr(cleaned, "content"))
        case _ => None;
      if (text.None? || text.value == "") && !cleaned.String? then None
      else Some(TextPart(index, text, callId, toolCallId))
  }

  /** `push_content_part`. */
  function PushContentPart(parts: seq<Part>, item: Value, callId: Option<string>, toolCallId: Option<string>,
                           codec: Codec)
    : seq<Part>
  {
    var part := PartOf(NextIndex(parts), item, callId, toolCallId, codec);
    if part.Some? then parts + [part.value] else parts
  }

  function PartsOf(items: seq<Value>, callId: Option<string>, toolCallId: Option<string>, codec: Codec): seq<Part>
  {
    if items == [] then []
    else PushContentPart(PartsOf(items[..|items| - 1], callId, toolCallId, codec), items[|items| - 1],
                         callId, toolCallId, codec)
  }

  function AddToolCalls(parts: seq<Part>, calls: seq<Value>, codec: Codec): seq<Part>
  {
    if calls == [] then parts
    else
      var before := AddToolCalls(parts, calls[..|calls| - 1], codec);
      before + [ToolCallPart(NextIndex(before), calls[|calls| - 1], codec)]
  }

  // ------------------------------------------------------------------- turns

  function TurnFromContent(role: string, origin: string, content: Value, callId: Option<string>,
                           toolCallId: Option<string>, codec: Codec): Turn
  {
    Turn(role, origin,
         match content
         case String(text) => [TextPart(0, Some(text), callId, toolCallId)]
         case Array(items) => PartsOf(items, callId, toolCallId, codec)
         case _ => PushContentPart([], content, callId, toolCallId, codec))
  }

  function EntryKind(entry: Value): string
  {
    GetOr(GetStr(entry, "type"), "")
  }

  function EntryRole(entry: Value, origin: string): string
  {
    GetOr(GetStr(entry, "role"),
          if EntryKind(entry) in {"function_call", "function_call_output"} then "tool"
          else if origin == "return" then "assistant"
          else "user")
  }

  function TurnFromEntry(entry: Value, origin: string, codec: Codec): Turn
  {
    var callId, toolCallId := GetStr(entry, "call_id"), GetStr(entry, "tool_call_id");
    var role := EntryRole(entry, origin);
    if EntryKind(entry) == "function_call" then
      var part := ToolCallPart(0, entry, codec);
      Turn("assistant", origin, [if part.callId.None? then part.(callId := callId) else part])
    else if EntryKind(entry) == "function_call_output" || role == "tool" then
      Turn("tool", origin,
           [EmptyPart.(kind := "tool_result",
                       text := TextOf(OrElse(Get(entry, "output"), Get(entry, "content")), codec),
                       callId := callId, toolCallId := toolCallId)])
    else
      var content := GetOr(Get(entry, "content"), Null);
      var turn := if content.Null? then Turn(role, origin, [])
                  else TurnFromContent(role, origin, content, callId, toolCallId, codec);
      var calls := AsArray(Get(entry, "tool_calls"));
      if calls.Some? then turn.(parts := AddToolCalls(turn.parts, calls.value, codec)) else turn
  }

  function FlushBare(bare: seq<Value>, origin: string, codec: Codec): seq<Turn>
  {
    if bare == [] then [] else [TurnFromContent("user", origin, Array(bare), None, None, codec)]
  }

  /** The turns of a list of entries, with the bare parts gathered so far. */
  function EntryTurns(items: seq<Value>, bare: seq<Value>, origin: string, codec: Codec): seq<Turn>
  {
    if items == [] then FlushBare(bare, origin, codec)
    else if IsBareContentPart(items[0]) then EntryTurns(items[1..], bare + [items[0]], origin, codec)
    else FlushBare(bare, origin, codec) + [TurnFromEntry(items[0], origin, codec)]
         + EntryTurns(items[1..], [], origin, codec)
  }

  function RequestTurns(request: Value, codec: Codec): seq<Turn>
  {
    var field := OrElse(Get(request, "messages"), Get(request, "input"));
    if field.None? then []
    else match field.value
      case String(text) => [Turn("user", "request", [TextPart(0, Some(text), None, None)])]
      case Array(items) => EntryTurns(items, [], "request", codec)
      case Object(_) => [TurnFromEntry(field.value, "request", codec)]
      case _ => []
  }

  function ReplyMessage(document: Value): Option<Value>
  {
    Then(Then(Child(document, "choices"), "0"), "message")
  }

  function ReturnTurns(document: Value, codec: Codec): seq<Turn>
  {
    var output := AsArray(Get(document, "output"));
    if output.Some? && output.value != [] then EntryTurns(output.value, [], "return", codec)
    else if ReplyMessage(document).Some? then [TurnFromEntry(ReplyMessage(document).value, "return", codec)]
    else if Get(document, "role").Some? || Get(document, "content").Some?
    then [TurnFromEntry(document, "return", codec)]
    else []
  }

  /** The body the borrowed path gives for two documents. */
  function BodyOf(request: Value, document: Value, codec: Codec): seq<Turn>
  {
    RequestTurns(request, codec) + ReturnTurns(document, codec)
  }

  // ------------------------------------------------------ borrowed loops

  /** One item of a list: it joins the bare parts, or ends them. */
  lemma {:induction false} EntryStep(turns: seq<Turn>, items: seq<Value>, i: nat, bare: seq<Value>, origin: string,
                                     codec: Codec)
    requires i < |items|
    ensures turns + EntryTurns(items[i..], bare, origin, codec)
            == if IsBareContentPart(items[i])
               then turns + EntryTurns(items[i + 1..], bare + [items[i]], origin, codec)
               else turns + FlushBare(bare, origin, codec) + [TurnFromEntry(items[i], origin, codec)]
                    + EntryTurns(items[i + 1..], [], origin, codec)
  {
    assert items[i..][0] == items[i] && items[i..][1..] == items[i + 1..];
    var flushed, turn := FlushBare(bare, origin, codec), [TurnFromEntry(items[i], origin, codec)];
    var rest := EntryTurns(items[i + 1..], [], origin, codec);
    assert turns + (flushed + turn + rest) == turns + flushed + turn + rest;
  }

  /** `append_entry_turns`: gathers bare parts and flushes them as one user turn. */
  method AppendEntryTurns(turns: seq<Turn>, items: seq<Value>, origin: string, codec: Codec) returns (out: seq<Turn>)
    ensures out == turns + EntryTurns(items, [], origin, codec)
  {
    out := turns;
    var bare: seq<Value> := [];
    assert items[0..] == items;
    for i := 0 to |items|
      invariant turns + EntryTurns(items, [], origin, codec) == out + EntryTurns(items[i..], bare, origin, codec)
    {
      EntryStep(out, items, i, bare, origin, codec);
      if IsBareContentPart(items[i]) {
        bare := bare + [items[i]];
      } else {
        out := out + FlushBare(bare, origin, codec) + [TurnFromEntry(items[i], origin, codec)];
        bare := [];
      }
    }
    out := out + FlushBare(bare, origin, codec);
  }

  method AppendRequestTurns(turns: seq<Turn>, request: Value, codec: Codec) returns (out: seq<Turn>)
    ensures out == turns + RequestTurns(request, codec)
  {
    out := turns;
    var field := OrElse(Get(request, "messages"), Get(request, "input"));
    if field.None? { return; }
    match field.value
    case String(text) => out := turns + [Turn("user", "request", [TextPart(0, Some(text), None, None)])];
    case Array(items) => out := AppendEntryTurns(turns, items, "request", codec);
    case Object(_) => out := turns + [TurnFromEntry(field.value, "request", codec)];
    case _ =>
  }

  method AppendReturnTurns(turns: seq<Turn>, document: Value, codec: Codec) returns (out: seq<Turn>)
    ensures out == turns + ReturnTurns(document, codec)
  {
    out := turns;
    var output := AsArray(Get(document, "output"));
    if output.Some? && output.value != [] {
      out := AppendEntryTurns(turns, output.value, "return", codec);
    } else if ReplyMessage(document).Some? {
      out := turns + [TurnFromEntry(ReplyMessage(document).value, "return", codec)];
    } else if Get(document, "role").Some? || Get(document, "content").Some? {
      out := turns + [TurnFromEntry(document, "return", codec)];
    }
  }

  /** `session_body_from_documents`. */
  method SessionBodyFromDocuments(request: Value, document: Value, codec: Codec) returns (turns: seq<Turn>)
    ensures turns == BodyOf(request, document, codec)
  {
    turns := AppendRequestTurns([], request, codec);
    turns := AppendReturnTurns(turns, document, codec);
  }

  // ------------------------------------------------------------ fresh parts

  /** Parts numbered 0, 1, 2, … modulo 2^32, with media fields that tell the
      truth about the bytes they describe and no locator yet. */
  ghost predicate Fresh(parts: seq<Part>, codec: Codec)
  {
    forall i :: 0 <= i < |parts| ==> parts[i].partIndex == i % 0x1_0000_0000 && FreshMedia(parts[i], codec)
  }

  ghost predicate FreshMedia(part: Part, codec: Codec)
  {
    && part.objectLocator.None?
    && match part.mediaBytes
       case None => part.contentBlake3.None?
       case Some(bytes) =>
         && part.contentBlake3 == Some(codec.hash(bytes))
         && part.byteLength == Some(|bytes|)
         && part.mediaType.Some? && part.kind == MediaKind(part.mediaType.value)
  }

  lemma {:induction false} PartFresh(index: nat, item: Value, callId: Option<string>, toolCallId: Option<string>,
                                     codec: Codec)
    ensures var part := PartOf(index, item, callId, toolCallId, codec);
            part.Some? ==> part.value.partIndex == index && FreshMedia(part.value, codec)
  {
  }

  lemma {:induction false} PushFresh(parts: seq<Part>, item: Value, callId: Option<string>,
                                     toolCallId: Option<string>, codec: Codec)
    requires Fresh(parts, codec)
    ensures Fresh(PushContentPart(parts, item, callId, toolCallId, codec), codec)
  {
    PartFresh(NextIndex(parts), item, callId, toolCallId, codec);
  }

  lemma {:induction false} PartsFresh(items: seq<Value>, callId: Option<string>, toolCallId: Option<string>,
                                      codec: Codec)
    ensures Fresh(PartsOf(items, callId, toolCallId, codec), codec)
  {
    if items != [] {
      var n := |items| - 1;
      PartsFresh(items[..n], callId, toolCallId, codec);
      PushFresh(PartsOf(items[..n], callId, toolCallId, codec), items[n], callId, toolCallId, codec);
    }
  }

  lemma {:induction false} ToolCallsFresh(parts: seq<Part>, calls: seq<Value>, codec: Codec)
    requires Fresh(parts, codec)
    ensures Fresh(AddToolCalls(parts, calls, codec), codec)
  {
    if calls != [] { ToolCallsFresh(parts, calls[..|calls| - 1], codec); }
  }

  lemma {:induction false} ContentFresh(role: string, origin: string, content: Value, callId: Option<string>,
                                        toolCallId: Option<string>, codec: Codec)
    ensures Fresh(TurnFromContent(role, origin, content, callId, toolCallId, codec).parts, codec)
  {
    if content.Array? { PartsFresh(content.items, callId, toolCallId, codec); }
    else if !content.String? { PushFresh([], content, callId, toolCallId, codec); }
  }

  lemma {:induction false} EntryFresh(entry: Value, origin: string, codec: Codec)
    ensures Fresh(TurnFromEntry(entry, origin, codec).parts, codec)
  {
    var content := GetOr(Get(entry, "content"), Null);
    var callId, toolCallId := GetStr(entry, "call_id"), GetStr(entry, "tool_call_id");
    var calls := GetOr(AsArray(Get(entry, "tool_calls")), []);
    var role := EntryRole(entry, origin);
    ContentFresh(role, origin, content, callId, toolCallId, codec);
    ToolCallsFresh([], calls, codec);
    ToolCallsFresh(TurnFromContent(role, origin, content, callId, toolCallId, codec).parts, calls, codec);
  }

  lemma {:induction false} EntriesFresh(items: seq<Value>, bare: seq<Value>, origin: string, codec: Codec)
    ensures forall t | t in EntryTurns(items, bare, origin, codec) :: Fresh(t.parts, codec)
    decreases |items|
  {
    ContentFresh("user", origin, Array(bare), None, None, codec);
    if items == [] {
    } else if IsBareContentPart(items[0]) {
      EntriesFresh(items[1..], bare + [items[0]], origin, codec);
    } else {
      EntryFresh(items[0], origin, codec);
      EntriesFresh(items[1..], [], origin, codec);
    }
  }

  lemma {:induction false} RequestFresh(request: Value, codec: Codec)
    ensures forall t | t in RequestTurns(request, codec) :: Fresh(t.parts, codec)
  {
    var field := OrElse(Get(request, "messages"), Get(request, "input"));
    if field.Some? && field.value.Array? { EntriesFresh(field.value.items, [], "request", codec); }
    else if field.Some? { EntryFresh(field.value, "request", codec); }
  }

  lemma {:induction false} ReturnFresh(document: Value, codec: Codec)
    ensures forall t | t in ReturnTurns(document, codec) :: Fresh(t.parts, codec)
  {
    EntriesFresh(GetOr(AsArray(Get(document, "output")), []), [], "return", codec);
    EntryFresh(GetOr(ReplyMessage(document), Null), "return", codec);
    EntryFresh(document, "return", codec);
  }

  /** Every turn of a body comes out fresh. */
  lemma {:induction false} BodyFresh(request: Value, document: Value, codec: Codec)
    ensures forall t | t in BodyOf(request, document, codec) :: Fresh(t.parts, codec)
  {
    RequestFresh(request, codec);
    ReturnFresh(document, codec);
  }
}
