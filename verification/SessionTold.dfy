/** What a session body says, told from the JSON of the request and the reply: whose
    turns there are, and what each part of them holds
    (src/conversation.rs:880-1331, 1541-1561). */
module SessionTold {
  import opened Json
  import opened SessionBody
  import opened OwnedSessionBody

  // ------------------------------------------------------------- private fields

  predicate Secret(key: string)
  {
    || key == "encrypted_content" || key == "encrypted_reasoning"
    || key == "thought_signature" || key == "reasoning_opaque"
  }

  function Public(fields: Fields): Fields
  {
    if fields == [] then []
    else Public(fields[..|fields| - 1]) + if Secret(fields[|fields| - 1].0) then [] else [fields[|fields| - 1]]
  }

  /** The second value is the first without its secret fields, at every depth. */
  ghost predicate Cleaned(v: Value, c: Value)
    decreases c
  {
    match c
    case Array(items) =>
      v.Array? && |v.items| == |items| && forall i | 0 <= i < |items| :: Cleaned(v.items[i], items[i])
    case Object(fields) =>
      && v.Object? && |Public(v.fields)| == |fields|
      && forall i | 0 <= i < |fields| ::
           fields[i].0 == Public(v.fields)[i].0 && Cleaned(Public(v.fields)[i].1, fields[i].1)
    case _ => v == c
  }

  lemma {:induction false} PublicCons(f: Field, rest: Fields)
    ensures Public([f] + rest) == (if Secret(f.0) then [] else [f]) + Public(rest)
  {
    if rest == [] {
      assert ([f] + rest)[..0] == [];
    } else {
      var n := |rest| - 1;
      PublicCons(f, rest[..n]);
      assert ([f] + rest)[..n + 1] == [f] + rest[..n];
    }
  }

  lemma {:induction false} StrippedFieldsAre(fields: Fields, outer: Value)
    requires forall f :: f in fields ==> f.1 < outer
    ensures var c := StripPrivateFields(fields, outer);
            && |c| == |Public(fields)|
            && forall i | 0 <= i < |c| :: Public(fields)[i] in fields
                 && c[i] == (Public(fields)[i].0, StripPrivate(Public(fields)[i].1))
  {
    if fields != [] {
      StrippedFieldsAre(fields[1..], outer);
      PublicCons(fields[0], fields[1..]);
      assert fields == [fields[0]] + fields[1..];
    }
  }

  /** The code's cleaning is that. */
  lemma {:induction false} StripCleans(v: Value)
    ensures Cleaned(v, StripPrivate(v))
    decreases v
  {
    match v
    case Array(items) =>
      forall i | 0 <= i < |items| ensures Cleaned(items[i], StripPrivate(items[i])) { StripCleans(items[i]); }
    case Object(fields) =>
      StrippedFieldsAre(fields, v);
      var c := StripPrivateFields(fields, v);
      forall i | 0 <= i < |c| ensures Cleaned(Public(fields)[i].1, c[i].1) {
        assert Public(fields)[i] in fields;
        StripCleans(Public(fields)[i].1);
      }
    case _ =>
  }

  // ------------------------------------------------------------------ what is told

  function Rendered(v: Value, codec: Codec): string
  {
    match v
    case String(s) => s
    case _ => codec.render(v)
  }

  /** Nothing but a text and ids. */
  predicate NoMediaFields(part: Part)
  {
    part.mediaType.None? && part.byteLength.None? && part.contentBlake3.None? && part.objectLocator.None?
    && part.mediaBytes.None?
  }

  /** The first of these fields of the call that is there. */
  function CallArguments(call: Value): Option<Value>
  {
    var fn := GetOr(Get(call, "function"), Null);
    if Get(call, "arguments").Some? then Get(call, "arguments")
    else if Get(fn, "arguments").Some? then Get(fn, "arguments")
    else Get(call, "input")
  }

  function CallName(call: Value): string
  {
    var fn := GetOr(Get(call, "function"), Null);
    if GetStr(call, "name").Some? then GetStr(call, "name").value
    else if GetStr(fn, "name").Some? then GetStr(fn, "name").value
    else ""
  }

  function CallId(call: Value): Option<string>
  {
    if Get(call, "call_id").Some? then GetStr(call, "call_id") else GetStr(call, "id")
  }

  /** The part is this tool call: its name, its arguments and its id. */
  ghost predicate CallTold(part: Part, call: Value, codec: Codec)
  {
    && part.kind == "tool_call" && NoMediaFields(part) && part.toolCallId.None? && part.callId == CallId(call)
    && part.text == Some(CallName(call) + "\n"
                         + if CallArguments(call).Some? then Rendered(CallArguments(call).value, codec) else "")
  }

  /** The part is this tool result: its text and its ids. */
  predicate ResultTold(part: Part, result: Option<Value>, callId: Option<string>, toolCallId: Option<string>,
                       codec: Codec)
  {
    && part.kind == "tool_result" && NoMediaFields(part) && part.callId == callId && part.toolCallId == toolCallId
    && part.text == if result.Some? then Some(Rendered(result.value, codec)) else None
  }

  predicate TextTold(part: Part, text: string, callId: Option<string>, toolCallId: Option<string>)
  {
    part.kind == "text" && NoMediaFields(part) && part.text == Some(text)
    && part.callId == callId && part.toolCallId == toolCallId
  }

  // ------------------------------------------------------------------------- media

  /** The type an item's media has unless it says so itself. */
  function DeclaredType(item: Value): Option<string>
  {
    match GetStr(item, "type")
    case None => None
    case Some(t) =>
      if t == "input_image" || t == "image" || t == "image_url" || t == "image_generation_call" then Some("image/png")
      else if t == "input_audio" || t == "audio" then Some("audio/wav")
      else if t == "input_video" || t == "video" then Some("video/mp4")
      else if t == "input_file" || t == "file" then Some("application/octet-stream")
      else None
  }

  function NestedStr(item: Value, outer: string, key: string): Option<string>
  {
    if Get(item, outer).Some? then GetStr(Get(item, outer).value, key) else None
  }

  /** The places an item may have its media in, in the order they are tried. */
  function Places(item: Value): seq<Option<string>>
  {
    [ GetStr(item, "image_url"), NestedStr(item, "image_url", "url"), GetStr(item, "url"), GetStr(item, "data"),
      NestedStr(item, "source", "data"), GetStr(item, "file_data"), GetStr(item, "result"), GetStr(item, "b64_json"),
      if DeclaredType(item).Some? then GetStr(item, "content") else None ]
  }

  function Decoded(place: Option<string>, declared: Option<string>, codec: Codec): Option<(string, seq<byte>)>
  {
    if place.Some? then codec.decode(place.value, declared) else None
  }

  /** The media of the first place that decodes. */
  ghost predicate FirstOf(places: seq<Option<string>>, declared: Option<string>, media: (string, seq<byte>),
                          codec: Codec)
  {
    exists k ::
      && 0 <= k < |places| && Decoded(places[k], declared, codec) == Some(media)
      && forall j | 0 <= j < k :: Decoded(places[j], declared, codec).None?
  }

  ghost predicate SomeOf(places: seq<Option<string>>, declared: Option<string>, codec: Codec)
  {
    exists k :: 0 <= k < |places| && Decoded(places[k], declared, codec).Some?
  }

  ghost predicate MediaIs(item: Value, media: (string, seq<byte>), codec: Codec)
  {
    FirstOf(Places(item), DeclaredType(item), media, codec)
  }

  ghost predicate HasMedia(item: Value, codec: Codec)
  {
    SomeOf(Places(item), DeclaredType(item), codec)
  }

  /** The part holds these bytes and what is known of them. */
  predicate MediaTold(part: Part, media: (string, seq<byte>), callId: Option<string>, toolCallId: Option<string>,
                      codec: Codec)
  {
    && part.text.None? && part.mediaType == Some(media.0) && part.mediaBytes == Some(media.1)
    && part.byteLength == Some(|media.1|) && part.contentBlake3 == Some(codec.hash(media.1))
    && part.objectLocator.None? && part.callId == callId && part.toolCallId == toolCallId
    && part.kind == if "audio/" <= media.0 then "audio" else if "video/" <= media.0 then "video"
                    else if "image/" <= media.0 then "image" else "file"
  }

  lemma {:induction false} DecodedFirst(places: seq<Option<string>>, declared: Option<string>, codec: Codec)
    ensures var found := FirstDecoded(places, declared, codec);
            && (found.Some? <==> SomeOf(places, declared, codec))
            && (found.Some? ==> FirstOf(places, declared, found.value, codec))
  {
    if places != [] {
      var rest := places[1..];
      DecodedFirst(rest, declared, codec);
      var found := FirstDecoded(rest, declared, codec);
      assert places == [places[0]] + rest;
      if Decoded(places[0], declared, codec).Some? {
      } else if found.Some? {
        var k :| 0 <= k < |rest| && Decoded(rest[k], declared, codec) == found
                 && forall j | 0 <= j < k :: Decoded(rest[j], declared, codec).None?;
        assert Decoded(places[k + 1], declared, codec) == found;
        forall j | 0 <= j < k + 1 ensures Decoded(places[j], declared, codec).None? {
          if j > 0 { assert places[j] == rest[j - 1]; }
        }
      } else {
        forall k | 0 <= k < |places| ensures Decoded(places[k], declared, codec).None? {
          if k > 0 { assert places[k] == rest[k - 1]; }
        }
      }
    }
  }

  lemma {:induction false} DecodedMore(places: seq<Option<string>>, last: Option<string>, declared: Option<string>,
                                       codec: Codec)
    ensures FirstDecoded(places + [last], declared, codec)
            == if FirstDecoded(places, declared, codec).Some? then FirstDecoded(places, declared, codec)
               else Decoded(last, declared, codec)
  {
    if places == [] {
      assert places + [last] == [last];
    } else {
      DecodedMore(places[1..], last, declared, codec);
      assert (places + [last])[1..] == places[1..] + [last];
    }
  }

  lemma {:induction false} PlacesAre(item: Value)
    ensures KindMediaType(GetOr(GetStr(item, "type"), "")) == DeclaredType(item)
    ensures Places(item) == Candidates(item) + [if DeclaredType(item).Some? then GetStr(item, "content") else None]
  {
    if item.Array? { assert Get(item, "image_url").None? && Get(item, "source").None?; }
  }

  lemma {:induction false} MediaFound(item: Value, codec: Codec)
    ensures MediaFromPart(item, codec).Some? <==> HasMedia(item, codec)
    ensures MediaFromPart(item, codec).Some? ==> MediaIs(item, MediaFromPart(item, codec).value, codec)
  {
    var declared := DeclaredType(item);
    PlacesAre(item);
    DecodedMore(Candidates(item), if declared.Some? then GetStr(item, "content") else None, declared, codec);
    DecodedFirst(Places(item), declared, codec);
    assert MediaFromPart(item, codec) == FirstDecoded(Places(item), declared, codec);
  }

  // ------------------------------------------------------------------------- items

  predicate TypeIs(item: Value, kind: string)
  {
    GetStr(item, "type") == Some(kind)
  }

  /** The text of an item: its own, or that of its `text`, or else of its `content`. */
  function ItemText(item: Value): Option<string>
  {
    match item
    case String(s) => Some(s)
    case _ => if GetStr(item, "text").Some? then GetStr(item, "text") else GetStr(item, "content")
  }

  /** The item says nothing: it is private, or has neither media nor a text. */
  ghost predicate Mute(item: Value, codec: Codec)
  {
    && !TypeIs(item, "tool_use") && !TypeIs(item, "tool_result")
    && (|| ((TypeIs(item, "reasoning") || TypeIs(item, "compaction"))
            && Get(item, "text").None? && Get(item, "content").None?)
        || (!HasMedia(item, codec) && !item.String? && GetOr(ItemText(item), "") == ""))
  }

  ghost predicate ItemTold(part: Part, item: Value, callId: Option<string>, toolCallId: Option<string>, codec: Codec)
  {
    if TypeIs(item, "tool_use") then exists c :: Cleaned(item, c) && CallTold(part, c, codec)
    else if TypeIs(item, "tool_result") then
      exists c :: Cleaned(item, c) && ResultTold(part, Get(c, "content"), None, GetStr(item, "tool_use_id"), codec)
    else if HasMedia(item, codec) then
      exists media :: MediaIs(item, media, codec) && MediaTold(part, media, callId, toolCallId, codec)
    else ItemText(item).Some? && TextTold(part, ItemText(item).value, callId, toolCallId)
  }

  ghost predicate Rising(at: seq<nat>, n: nat)
  {
    (forall k | 0 <= k < |at| :: at[k] < n) && forall k, l | 0 <= k < l < |at| :: at[k] < at[l]
  }

  /** The parts are, in order, those of the items at these positions, and the other
      items are silent. */
  ghost predicate InOrder(parts: seq<Part>, items: seq<Value>, at: seq<nat>, silent: Value -> bool,
                          told: (Part, Value) -> bool)
  {
    && Rising(at, |items|) && |at| == |parts|
    && (forall i: nat | i < |items| :: i in at <==> !silent(items[i]))
    && forall k | 0 <= k < |at| :: told(parts[k], items[at[k]])
  }

  ghost function Silent(codec: Codec): Value -> bool
  {
    item => Mute(item, codec)
  }

  ghost function Teller(callId: Option<string>, toolCallId: Option<string>, codec: Codec): (Part, Value) -> bool
  {
    (part, item) => ItemTold(part, item, callId, toolCallId, codec)
  }

  /** One part for each item that says something, in order, and no other. */
  ghost predicate ItemsTold(parts: seq<Part>, items: seq<Value>, callId: Option<string>, toolCallId: Option<string>,
                            codec: Codec)
  {
    exists at :: InOrder(parts, items, at, Silent(codec), Teller(callId, toolCallId, codec))
  }

  lemma {:induction false} InOrderSkip(parts: seq<Part>, items: seq<Value>, at: seq<nat>, silent: Value -> bool,
                                       told: (Part, Value) -> bool, item: Value)
    requires InOrder(parts, items, at, silent, told) && silent(item)
    ensures InOrder(parts, items + [item], at, silent, told)
  {
    var all, n := items + [item], |items|;
    forall i: nat | i < |all| ensures i in at <==> !silent(all[i]) {
      if i < n { assert all[i] == items[i]; }
    }
    assert forall k | 0 <= k < |at| :: all[at[k]] == items[at[k]];
  }

  lemma {:induction false} InOrderTake(parts: seq<Part>, items: seq<Value>, at: seq<nat>, silent: Value -> bool,
                                       told: (Part, Value) -> bool, item: Value, part: Part)
    requires InOrder(parts, items, at, silent, told) && !silent(item) && told(part, item)
    ensures InOrder(parts + [part], items + [item], at + [|items|], silent, told)
  {
    var all, n := items + [item], |items|;
    var more := at + [n];
    forall i: nat | i < |all| ensures i in more <==> !silent(all[i]) {
      if i < n { assert all[i] == items[i]; }
    }
    forall k | 0 <= k < |more| ensures told((parts + [part])[k], all[more[k]]) {
      if k < |at| { assert more[k] == at[k] && all[at[k]] == items[at[k]]; }
    }
  }

  lemma {:induction false} CallPartTold(index: nat, call: Value, codec: Codec)
    ensures CallTold(ToolCallPart(index, call, codec), call, codec)
  {
    var fn := GetOr(Get(call, "function"), Null);
    assert AsStr(Then(Child(call, "function"), "name")) == GetStr(fn, "name");
    assert Then(Child(call, "function"), "arguments") == Get(fn, "arguments");
  }

  /** What the part of an item has to be, if it has one. */
  ghost predicate Tells(part: Option<Part>, item: Value, callId: Option<string>, toolCallId: Option<string>,
                        codec: Codec)
  {
    (part.None? <==> Mute(item, codec)) && (part.Some? ==> ItemTold(part.value, item, callId, toolCallId, codec))
  }

  lemma {:induction false} UsePartTold(index: nat, item: Value, callId: Option<string>, toolCallId: Option<string>,
                                       codec: Codec)
    requires TypeIs(item, "tool_use")
    ensures Tells(PartOf(index, item, callId, toolCallId, codec), item, callId, toolCallId, codec)
  {
    GetStripped(item, "type");
    StripCleans(item);
    CallPartTold(index, StripPrivate(item), codec);
  }

  lemma {:induction false} ResultPartTold(index: nat, item: Value, callId: Option<string>,
                                          toolCallId: Option<string>, codec: Codec)
    requires TypeIs(item, "tool_result")
    ensures Tells(PartOf(index, item, callId, toolCallId, codec), item, callId, toolCallId, codec)
  {
    GetStripped(item, "type");
    GetStripped(item, "tool_use_id");
    StripCleans(item);
  }

  lemma {:induction false} PrivatePartTold(index: nat, item: Value, callId: Option<string>,
                                           toolCallId: Option<string>, codec: Codec)
    requires !TypeIs(item, "tool_use") && !TypeIs(item, "tool_result") && PrivateOnly(item)
    ensures Tells(PartOf(index, item, callId, toolCallId, codec), item, callId, toolCallId, codec)
  {
    ReadsStripped(item, codec);
  }

  lemma {:induction false} MediaPartIs(index: nat, item: Value, callId: Option<string>, toolCallId: Option<string>,
                                       codec: Codec)
    requires !TypeIs(item, "tool_use") && !TypeIs(item, "tool_result") && !PrivateOnly(item)
    requires MediaFromPart(item, codec).Some?
    ensures PartOf(index, item, callId, toolCallId, codec)
            == Some(MediaPart(index, MediaFromPart(item, codec).value, callId, toolCallId, codec))
  {
    ReadsStripped(item, codec);
  }

  lemma {:induction false} MediaPartTold(index: nat, item: Value, media: (string, seq<byte>), callId: Option<string>,
                                         toolCallId: Option<string>, codec: Codec)
    requires !TypeIs(item, "tool_use") && !TypeIs(item, "tool_result") && !PrivateOnly(item)
    requires HasMedia(item, codec) && MediaIs(item, media, codec)
    ensures Tells(Some(MediaPart(index, media, callId, toolCallId, codec)), item, callId, toolCallId, codec)
  {
  }

  lemma {:induction false} TextPartTold(index: nat, item: Value, callId: Option<string>, toolCallId: Option<string>,
                                        codec: Codec)
    requires !TypeIs(item, "tool_use") && !TypeIs(item, "tool_result") && !PrivateOnly(item)
    requires !HasMedia(item, codec)
    ensures TakeText(item) == ItemText(item)
    ensures Tells(if GetOr(TakeText(item), "") == "" && !item.String? then None
                  else Some(TextPart(index, TakeText(item), callId, toolCallId)), item, callId, toolCallId, codec)
  {
  }

  lemma {:induction false} PartTold(index: nat, item: Value, callId: Option<string>, toolCallId: Option<string>,
                                    codec: Codec)
    ensures Tells(PartOf(index, item, callId, toolCallId, codec), item, callId, toolCallId, codec)
  {
    if TypeIs(item, "tool_use") {
      UsePartTold(index, item, callId, toolCallId, codec);
    } else if TypeIs(item, "tool_result") {
      ResultPartTold(index, item, callId, toolCallId, codec);
    } else if PrivateOnly(item) {
      PrivatePartTold(index, item, callId, toolCallId, codec);
    } else {
      OpenPartTold(index, item, callId, toolCallId, codec);
    }
  }

  lemma {:induction false} OpenPartTold(index: nat, item: Value, callId: Option<string>, toolCallId: Option<string>,
                                        codec: Codec)
    requires !TypeIs(item, "tool_use") && !TypeIs(item, "tool_result") && !PrivateOnly(item)
    ensures Tells(PartOf(index, item, callId, toolCallId, codec), item, callId, toolCallId, codec)
  {
    MediaFound(item, codec);
    var media := MediaFromPart(item, codec);
    if media.Some? {
      MediaPartIs(index, item, callId, toolCallId, codec);
      MediaPartTold(index, item, media.value, callId, toolCallId, codec);
    } else {
      PlainPart(index, item, callId, toolCallId, codec);
      TextPartTold(index, item, callId, toolCallId, codec);
    }
  }

  lemma {:induction false} ItemsToldOn(parts: seq<Part>, items: seq<Value>, item: Value, callId: Option<string>,
                                       toolCallId: Option<string>, codec: Codec)
    requires ItemsTold(parts, items, callId, toolCallId, codec)
    ensures ItemsTold(PushContentPart(parts, item, callId, toolCallId, codec), items + [item], callId, toolCallId,
                      codec)
  {
    var silent, told := Silent(codec), Teller(callId, toolCallId, codec);
    var at :| InOrder(parts, items, at, silent, told);
    var part := PartOf(NextIndex(parts), item, callId, toolCallId, codec);
    PartTold(NextIndex(parts), item, callId, toolCallId, codec);
    if part.None? { InOrderSkip(parts, items, at, silent, told, item); }
    else { InOrderTake(parts, items, at, silent, told, item, part.value); }
  }

  lemma {:induction false} NoItemsTold(callId: Option<string>, toolCallId: Option<string>, codec: Codec)
    ensures ItemsTold([], [], callId, toolCallId, codec)
  {
    var at: seq<nat> := [];
    assert InOrder([], [], at, Silent(codec), Teller(callId, toolCallId, codec));
  }

  lemma {:induction false} PartsTold(items: seq<Value>, callId: Option<string>, toolCallId: Option<string>,
                                     codec: Codec)
    ensures ItemsTold(PartsOf(items, callId, toolCallId, codec), items, callId, toolCallId, codec)
  {
    if items == [] {
      NoItemsTold(callId, toolCallId, codec);
    } else {
      var n := |items| - 1;
      PartsTold(items[..n], callId, toolCallId, codec);
      ItemsToldOn(PartsOf(items[..n], callId, toolCallId, codec), items[..n], items[n], callId, toolCallId, codec);
      assert items == items[..n] + [items[n]];
    }
  }

  // ------------------------------------------------------------------------ entries

  /** The parts of a message's content. */
  ghost predicate ContentTold(parts: seq<Part>, content: Option<Value>, callId: Option<string>,
                              toolCallId: Option<string>, codec: Codec)
  {
    match content
    case None => parts == []
    case Some(Null) => parts == []
    case Some(String(s)) => |parts| == 1 && TextTold(parts[0], s, callId, toolCallId)
    case Some(Array(items)) => ItemsTold(parts, items, callId, toolCallId, codec)
    case Some(v) => ItemsTold(parts, [v], callId, toolCallId, codec)
  }

  /** One part for each of these calls. */
  ghost predicate CallsTold(parts: seq<Part>, calls: seq<Value>, codec: Codec)
  {
    |parts| == |calls| && forall k | 0 <= k < |calls| :: CallTold(parts[k], calls[k], codec)
  }

  function Calls(entry: Value): seq<Value>
  {
    match Get(entry, "tool_calls")
    case Some(Array(items)) => items
    case _ => []
  }

  /** Whose turn an entry is. */
  function RoleTold(entry: Value, origin: string): string
  {
    if TypeIs(entry, "function_call") then "assistant"
    else if TypeIs(entry, "function_call_output") then "tool"
    else if GetStr(entry, "role").Some? then GetStr(entry, "role").value
    else if origin == "return" then "assistant"
    else "user"
  }

  ghost predicate MessageTold(parts: seq<Part>, entry: Value, callId: Option<string>, toolCallId: Option<string>,
                              codec: Codec)
  {
    exists n ::
      && 0 <= n <= |parts| && ContentTold(parts[..n], Get(entry, "content"), callId, toolCallId, codec)
      && CallsTold(parts[n..], Calls(entry), codec)
  }

  /** One entry, one turn: a tool call, a tool result, or a message with its content and
      then its tool calls. */
  ghost predicate EntryTold(turn: Turn, entry: Value, origin: string, codec: Codec)
  {
    var callId, toolCallId := GetStr(entry, "call_id"), GetStr(entry, "tool_call_id");
    && turn.role == RoleTold(entry, origin) && turn.origin == origin
    && if TypeIs(entry, "function_call") then |turn.parts| == 1 && CallTold(turn.parts[0], entry, codec)
       else if turn.role == "tool" then
         var output := if Get(entry, "output").Some? then Get(entry, "output") else Get(entry, "content");
         |turn.parts| == 1 && ResultTold(turn.parts[0], output, callId, toolCallId, codec)
       else MessageTold(turn.parts, entry, callId, toolCallId, codec)
  }

  lemma {:induction false} OnePartTold(item: Value, callId: Option<string>, toolCallId: Option<string>, codec: Codec)
    ensures ItemsTold(PushContentPart([], item, callId, toolCallId, codec), [item], callId, toolCallId, codec)
  {
    NoItemsTold(callId, toolCallId, codec);
    ItemsToldOn([], [], item, callId, toolCallId, codec);
    assert [] + [item] == [item];
  }

  lemma {:induction false} ContentPartsTold(role: string, origin: string, content: Value, callId: Option<string>,
                                            toolCallId: Option<string>, codec: Codec)
    requires !content.Null?
    ensures var turn := TurnFromContent(role, origin, content, callId, toolCallId, codec);
            && turn.role == role && turn.origin == origin
            && ContentTold(turn.parts, Some(content), callId, toolCallId, codec)
  {
    match content
    case String(_) =>
    case Array(items) => PartsTold(items, callId, toolCallId, codec);
    case _ => OnePartTold(content, callId, toolCallId, codec);
  }

  lemma {:induction false} AddedCallsTold(parts: seq<Part>, calls: seq<Value>, codec: Codec)
    ensures var all := AddToolCalls(parts, calls, codec);
            |all| == |parts| + |calls| && all[..|parts|] == parts && CallsTold(all[|parts|..], calls, codec)
  {
    if calls != [] {
      var n := |calls| - 1;
      AddedCallsTold(parts, calls[..n], codec);
      var before := AddToolCalls(parts, calls[..n], codec);
      var all := AddToolCalls(parts, calls, codec);
      CallPartTold(NextIndex(before), calls[n], codec);
      assert all[|parts|..] == before[|parts|..] + [all[|all| - 1]];
      forall k | 0 <= k < |calls| ensures CallTold(all[|parts|..][k], calls[k], codec) {
        if k < n { assert all[|parts|..][k] == before[|parts|..][k] && calls[k] == calls[..n][k]; }
      }
    }
  }

  lemma {:induction false} MessageIsTold(begun: seq<Part>, entry: Value, callId: Option<string>,
                                         toolCallId: Option<string>, codec: Codec)
    requires ContentTold(begun, Get(entry, "content"), callId, toolCallId, codec)
    ensures MessageTold(AddToolCalls(begun, Calls(entry), codec), entry, callId, toolCallId, codec)
  {
    AddedCallsTold(begun, Calls(entry), codec);
  }

  function Begun(entry: Value, origin: string, codec: Codec): Turn
  {
    var role, content := EntryRole(entry, origin), GetOr(Get(entry, "content"), Null);
    if content.Null? then Turn(role, origin, [])
    else TurnFromContent(role, origin, content, GetStr(entry, "call_id"), GetStr(entry, "tool_call_id"), codec)
  }

  lemma {:induction false} BegunIsTold(entry: Value, origin: string, codec: Codec)
    ensures var begun := Begun(entry, origin, codec);
            && begun.role == EntryRole(entry, origin) && begun.origin == origin
            && ContentTold(begun.parts, Get(entry, "content"), GetStr(entry, "call_id"), GetStr(entry, "tool_call_id"),
                           codec)
  {
    var content := GetOr(Get(entry, "content"), Null);
    if !content.Null? {
      ContentPartsTold(EntryRole(entry, origin), origin, content, GetStr(entry, "call_id"),
                       GetStr(entry, "tool_call_id"), codec);
    }
  }

  lemma {:induction false} MessageTurn(entry: Value, origin: string, codec: Codec)
    requires !TypeIs(entry, "function_call") && RoleTold(entry, origin) != "tool"
    ensures TurnFromEntry(entry, origin, codec)
            == Turn(RoleTold(entry, origin), origin,
                    AddToolCalls(Begun(entry, origin, codec).parts, Calls(entry), codec))
    ensures EntryRole(entry, origin) == RoleTold(entry, origin)
  {
  }

  lemma {:induction false} EntryIsTold(entry: Value, origin: string, codec: Codec)
    ensures EntryTold(TurnFromEntry(entry, origin, codec), entry, origin, codec)
  {
    if TypeIs(entry, "function_call") {
      CallPartTold(0, entry, codec);
    } else if RoleTold(entry, origin) != "tool" {
      BegunIsTold(entry, origin, codec);
      MessageIsTold(Begun(entry, origin, codec).parts, entry, GetStr(entry, "call_id"), GetStr(entry, "tool_call_id"),
                    codec);
      MessageTurn(entry, origin, codec);
    }
  }

  // -------------------------------------------------------------------------- lists

  /** A content part that stands by itself among the entries. */
  predicate Bare(item: Value)
  {
    && Get(item, "role").None?
    && match GetStr(item, "type")
       case None => false
       case Some(t) =>
         t == "text" || t == "input_text" || t == "output_text"
         || t == "input_image" || t == "image" || t == "image_url" || t == "input_audio" || t == "audio"
         || t == "input_video" || t == "video" || t == "input_file" || t == "file"
  }

  ghost predicate AllBare(items: seq<Value>)
  {
    items != [] && forall i | 0 <= i < |items| :: Bare(items[i])
  }

  /** One turn for one entry, or one user turn for a run of bare parts. */
  ghost predicate SegmentTold(turn: Turn, items: seq<Value>, origin: string, codec: Codec)
  {
    || (|items| == 1 && !Bare(items[0]) && EntryTold(turn, items[0], origin, codec))
    || (AllBare(items) && turn.role == "user" && turn.origin == origin
        && ItemsTold(turn.parts, items, None, None, codec))
  }

  /** The items fall into segments, one for each turn: every item is in one, a run of
      bare parts is not cut, and all are in order. */
  ghost predicate Segmented(turns: seq<Turn>, items: seq<Value>, bare: Value -> bool, told: (Turn, seq<Value>) -> bool)
    decreases |turns|
  {
    if turns == [] then items == []
    else
      exists n ::
        && 0 < n <= |items| && told(turns[0], items[..n])
        && (bare(items[0]) && n < |items| ==> !bare(items[n]))
        && Segmented(turns[1..], items[n..], bare, told)
  }

  ghost function Segment(origin: string, codec: Codec): (Turn, seq<Value>) -> bool
  {
    (turn, items) => SegmentTold(turn, items, origin, codec)
  }

  ghost predicate ListTold(turns: seq<Turn>, items: seq<Value>, origin: string, codec: Codec)
  {
    Segmented(turns, items, Bare, Segment(origin, codec))
  }

  lemma {:induction false} BareIs(item: Value)
    ensures IsBareContentPart(item) <==> Bare(item)
  {
  }

  lemma {:induction false} FlushTold(bare: seq<Value>, origin: string, codec: Codec)
    requires AllBare(bare)
    ensures |FlushBare(bare, origin, codec)| == 1
    ensures SegmentTold(FlushBare(bare, origin, codec)[0], bare, origin, codec)
  {
    PartsTold(bare, None, None, codec);
  }

  lemma {:induction false} SegmentedCons(turn: Turn, turns: seq<Turn>, head: seq<Value>, rest: seq<Value>,
                                         bare: Value -> bool, told: (Turn, seq<Value>) -> bool)
    requires told(turn, head) && Segmented(turns, rest, bare, told) && head != []
    requires bare(head[0]) && rest != [] ==> !bare(rest[0])
    ensures Segmented([turn] + turns, head + rest, bare, told)
  {
    var all, n := head + rest, |head|;
    assert all[..n] == head && all[n..] == rest;
    assert ([turn] + turns)[0] == turn && ([turn] + turns)[1..] == turns;
    assert all[0] == head[0] && (n < |all| ==> all[n] == rest[0]);
  }

  /** A run of bare parts, if any, and then an entry. */
  lemma {:induction false} SegmentedOn(flushed: seq<Turn>, turn: Turn, rest: seq<Turn>, run: seq<Value>, item: Value,
                                       tail: seq<Value>, bare: Value -> bool, told: (Turn, seq<Value>) -> bool)
    requires if run == [] then flushed == [] else |flushed| == 1 && told(flushed[0], run)
    requires !bare(item) && told(turn, [item]) && Segmented(rest, tail, bare, told)
    ensures Segmented(flushed + [turn] + rest, run + ([item] + tail), bare, told)
  {
    SegmentedCons(turn, rest, [item], tail, bare, told);
    if run == [] {
      assert flushed + [turn] + rest == [turn] + rest;
      assert run + ([item] + tail) == [item] + tail;
    } else {
      SegmentedCons(flushed[0], [turn] + rest, run, [item] + tail, bare, told);
      assert flushed + [turn] + rest == [flushed[0]] + ([turn] + rest);
    }
  }

  lemma {:induction false} RunTold(bare: seq<Value>, origin: string, codec: Codec)
    requires bare == [] || AllBare(bare)
    ensures ListTold(FlushBare(bare, origin, codec), bare, origin, codec)
  {
    assert Segmented([], [], Bare, Segment(origin, codec));
    if bare != [] {
      FlushTold(bare, origin, codec);
      var flushed := FlushBare(bare, origin, codec);
      SegmentedCons(flushed[0], [], bare, [], Bare, Segment(origin, codec));
      assert bare + [] == bare && [flushed[0]] + [] == flushed;
    }
  }

  lemma {:induction false} TurnsBegin(items: seq<Value>, bare: seq<Value>, origin: string, codec: Codec)
    requires items != []
    ensures EntryTurns(items, bare, origin, codec)
            == if Bare(items[0]) then EntryTurns(items[1..], bare + [items[0]], origin, codec)
               else FlushBare(bare, origin, codec) + [TurnFromEntry(items[0], origin, codec)]
                    + EntryTurns(items[1..], [], origin, codec)
  {
    BareIs(items[0]);
  }

  lemma {:induction false} EntryTakesTurn(rest: seq<Turn>, item: Value, tail: seq<Value>, bare: seq<Value>,
                                          origin: string, codec: Codec)
    requires !Bare(item) && (bare == [] || AllBare(bare)) && ListTold(rest, tail, origin, codec)
    ensures ListTold(FlushBare(bare, origin, codec) + [TurnFromEntry(item, origin, codec)] + rest,
                     bare + ([item] + tail), origin, codec)
  {
    var flushed, turn := FlushBare(bare, origin, codec), TurnFromEntry(item, origin, codec);
    EntryIsTold(item, origin, codec);
    assert [item][0] == item;
    if bare != [] { FlushTold(bare, origin, codec); }
    SegmentedOn(flushed, turn, rest, bare, item, tail, Bare, Segment(origin, codec));
  }

  lemma {:induction false} BareGrows(bare: seq<Value>, item: Value)
    requires (bare == [] || AllBare(bare)) && Bare(item)
    ensures AllBare(bare + [item])
  {
  }

  lemma {:induction false} Regrouped(bare: seq<Value>, items: seq<Value>)
    requires items != []
    ensures bare + [items[0]] + items[1..] == bare + items && bare + ([items[0]] + items[1..]) == bare + items
  {
    assert [items[0]] + items[1..] == items;
  }

  /** The turns of a list, with the bare parts gathered before it. */
  lemma {:induction false} EntriesTold(items: seq<Value>, bare: seq<Value>, origin: string, codec: Codec)
    requires bare == [] || AllBare(bare)
    ensures ListTold(EntryTurns(items, bare, origin, codec), bare + items, origin, codec)
    decreases |items|, 1
  {
    if items == [] {
      RunTold(bare, origin, codec);
      assert bare + items == bare;
    } else {
      var item, tail := items[0], items[1..];
      TurnsBegin(items, bare, origin, codec);
      if Bare(item) {
        BareGrows(bare, item);
        EntriesTold(tail, bare + [item], origin, codec);
        Regrouped(bare, items);
      } else {
        ListIsTold(tail, origin, codec);
        EntryTakesTurn(EntryTurns(tail, [], origin, codec), item, tail, bare, origin, codec);
        Regrouped(bare, items);
      }
    }
  }

  lemma {:induction false} ListIsTold(items: seq<Value>, origin: string, codec: Codec)
    ensures ListTold(EntryTurns(items, [], origin, codec), items, origin, codec)
    decreases |items|, 2
  {
    EntriesTold(items, [], origin, codec);
    assert [] + items == items;
  }

  /** Where nothing is bare there is one turn for each entry. */
  lemma {:induction false} OneTurnEach(turns: seq<Turn>, items: seq<Value>, origin: string, codec: Codec)
    requires ListTold(turns, items, origin, codec) && forall i | 0 <= i < |items| :: !Bare(items[i])
    ensures |turns| == |items| && forall i | 0 <= i < |items| :: EntryTold(turns[i], items[i], origin, codec)
    decreases |turns|
  {
    if turns != [] {
      var n :| 0 < n <= |items| && Segment(origin, codec)(turns[0], items[..n])
               && Segmented(turns[1..], items[n..], Bare, Segment(origin, codec));
      assert SegmentTold(turns[0], items[..n], origin, codec);
      assert items[..n][0] == items[0];
      assert n == 1;
      OneTurnEach(turns[1..], items[1..], origin, codec);
      forall i | 0 <= i < |items| ensures EntryTold(turns[i], items[i], origin, codec) {
        if i > 0 { assert turns[i] == turns[1..][i - 1] && items[i] == items[1..][i - 1]; }
      }
    }
  }

  // --------------------------------------------------------------------------- body

  ghost predicate RequestTold(turns: seq<Turn>, request: Value, codec: Codec)
  {
    match (if Get(request, "messages").Some? then Get(request, "messages") else Get(request, "input"))
    case Some(String(s)) =>
      && |turns| == 1 && turns[0].role == "user" && turns[0].origin == "request"
      && |turns[0].parts| == 1 && TextTold(turns[0].parts[0], s, None, None)
    case Some(Array(items)) => ListTold(turns, items, "request", codec)
    case Some(Object(fields)) => |turns| == 1 && EntryTold(turns[0], Object(fields), "request", codec)
    case _ => turns == []
  }

  /** The message of the first choice. */
  function FirstMessage(document: Value): Option<Value>
  {
    match Get(document, "choices")
    case Some(Array(items)) => if items == [] then None else Get(items[0], "message")
    case Some(v) => if Get(v, "0").Some? then Get(Get(v, "0").value, "message") else None
    case None => None
  }

  ghost predicate ReplyTold(turns: seq<Turn>, document: Value, codec: Codec)
  {
    var output := Get(document, "output");
    if output.Some? && output.value.Array? && output.value.items != []
    then ListTold(turns, output.value.items, "return", codec)
    else if FirstMessage(document).Some?
    then |turns| == 1 && EntryTold(turns[0], FirstMessage(document).value, "return", codec)
    else if Get(document, "role").Some? || Get(document, "content").Some?
    then |turns| == 1 && EntryTold(turns[0], document, "return", codec)
    else turns == []
  }

  lemma {:induction false} RequestIsTold(request: Value, codec: Codec)
    ensures RequestTold(RequestTurns(request, codec), request, codec)
  {
    var field := OrElse(Get(request, "messages"), Get(request, "input"));
    if field.Some? && field.value.Array? {
      ListIsTold(field.value.items, "request", codec);
    } else if field.Some? {
      EntryIsTold(field.value, "request", codec);
    }
  }

  lemma {:induction false} FirstMessageIs(document: Value)
    ensures FirstMessage(document) == ReplyMessage(document)
  {
  }

  lemma {:induction false} ReplyIsTold(document: Value, codec: Codec)
    ensures ReplyTold(ReturnTurns(document, codec), document, codec)
  {
    FirstMessageIs(document);
    var output := GetOr(AsArray(Get(document, "output")), []);
    ListIsTold(output, "return", codec);
    EntryIsTold(GetOr(ReplyMessage(document), Null), "return", codec);
    EntryIsTold(document, "return", codec);
  }

  /** First the request's turns and then the reply's, each saying what its document says. */
  ghost predicate BodyTold(turns: seq<Turn>, request: Value, document: Value, codec: Codec)
  {
    exists n ::
      && 0 <= n <= |turns| && RequestTold(turns[..n], request, codec) && ReplyTold(turns[n..], document, codec)
  }

  lemma {:induction false} BodyIsTold(request: Value, document: Value, codec: Codec)
    ensures BodyTold(BodyOf(request, document, codec), request, document, codec)
  {
    var body, n := BodyOf(request, document, codec), |RequestTurns(request, codec)|;
    RequestIsTold(request, codec);
    ReplyIsTold(document, codec);
    assert body[..n] == RequestTurns(request, codec) && body[n..] == ReturnTurns(document, codec);
  }
}
