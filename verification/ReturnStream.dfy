/** Reassembling a streamed reply into one document
    (src/conversation.rs:557-731). Lines are taken as already parsed: an event
    is the JSON of one `data:` line that is neither empty nor `[DONE]`. */
module ReturnStream {
  import opened Json

  datatype Stream = Stream(
    completed: Option<Value>,
    text: string,
    chatMessage: Fields,
    chatTools: map<nat, Fields>,
    anthropic: Option<Value>,
    blocks: map<nat, Value>,
    toolInputs: map<nat, string>,
    panicked: bool)

  const Start := Stream(None, "", [], map[], None, map[], map[], false)

  /** A panic, or the document if the stream holds one. */
  datatype Outcome = Panic | Reply(document: Option<Value>)

  /** `append_stream_string`: nothing unless the fragment is a string; a value
      of another kind is replaced by the empty string first. */
  function AppendString(target: Fields, key: string, fragment: Option<Value>): Fields
  {
    var added := AsStr(fragment);
    if added.None? then target
    else Insert(target, key, String(GetOr(AsStr(Find(target, key)), "") + added.value))
  }

  // --------------------------------------------------------------- chat chunks

  function CallIndex(call: Value): Option<nat>
  {
    AsU64(Get(call, "index"))
  }

  function FunctionField(call: Value, key: string): Option<Value>
  {
    Then(Child(call, "function"), key)
  }

  /** One fragment of a tool call applied to the tool it belongs to; the second
      result says that the tool's `function` is not an object. */
  function ApplyFragment(target: Fields, call: Value): (Fields, bool)
  {
    var withId := AppendString(target, "id", Get(call, "id"));
    var withType := if Get(call, "type").Some? then Insert(withId, "type", Get(call, "type").value) else withId;
    var function_ := GetOr(Find(withType, "function"), Object([]));
    if !function_.Object? then (withType, true)
    else
      var named := AppendString(function_.fields, "name", FunctionField(call, "name"));
      var whole := AppendString(named, "arguments", FunctionField(call, "arguments"));
      (Insert(withType, "function", Object(whole)), false)
  }

  function ApplyCall(st: Stream, call: Value): Stream
  {
    var index := CallIndex(call);
    if index.None? then st
    else
      var target := if index.value in st.chatTools then st.chatTools[index.value] else [];
      var (fields, bad) := ApplyFragment(target, call);
      st.(chatTools := st.chatTools[index.value := fields], panicked := st.panicked || bad)
  }

  function ApplyCalls(st: Stream, calls: seq<Value>): Stream
    decreases |calls|
  {
    if calls == [] then st else ApplyCalls(ApplyCall(st, calls[0]), calls[1..])
  }

  function CallsOf(delta: Value): seq<Value>
  {
    GetOr(AsArray(Get(delta, "tool_calls")), [])
  }

  function ApplyDelta(st: Stream, delta: Value): Stream
  {
    var role := Get(delta, "role");
    var withRole := if role.Some? then Insert(st.chatMessage, "role", role.value) else st.chatMessage;
    ApplyCalls(st.(chatMessage := AppendString(withRole, "content", Get(delta, "content"))), CallsOf(delta))
  }

  function ObjectCalls(calls: seq<Value>): map<nat, Fields>
  {
    map i: nat | i < |calls| && calls[i].Object? :: calls[i].fields
  }

  function ApplyMessage(st: Stream, message: Value): Stream
    requires message.Object?
  {
    st.(chatMessage := message.fields, chatTools := ObjectCalls(CallsOf(message)))
  }

  function ApplyChoice(st: Stream, choice: Value): Stream
  {
    if GetOr(AsU64(Get(choice, "index")), 0) != 0 then st
    else if Get(choice, "message").Some? && Get(choice, "message").value.Object?
    then ApplyMessage(st, Get(choice, "message").value)
    else if Get(choice, "delta").Some? then ApplyDelta(st, Get(choice, "delta").value)
    else st
  }

  function ApplyChoices(st: Stream, choices: seq<Value>): Stream
    decreases |choices|
  {
    if choices == [] then st else ApplyChoices(ApplyChoice(st, choices[0]), choices[1..])
  }

  // ------------------------------------------------------- block and text deltas

  function DeltaField(event: Value, key: string): Option<Value>
  {
    Then(Child(event, "delta"), key)
  }

  /** `tool_inputs.entry(index).or_default().push_str(fragment)`. */
  function AppendInput(inputs: map<nat, string>, index: nat, fragment: Option<Value>): map<nat, string>
  {
    var added := AsStr(fragment);
    if added.None? then inputs
    else inputs[index := (if index in inputs then inputs[index] else "") + added.value]
  }

  function ApplyBlockDelta(st: Stream, event: Value): Stream
  {
    var index := AsU64(Get(event, "index"));
    if index.None? || index.value !in st.blocks || !st.blocks[index.value].Object? then st
    else
      var i := index.value;
      var block := AppendString(st.blocks[i].fields, "text", DeltaField(event, "text"));
      st.(blocks := st.blocks[i := Object(block)],
          toolInputs := AppendInput(st.toolInputs, i, DeltaField(event, "partial_json")))
  }

  function ApplyText(st: Stream, event: Value): Stream
  {
    var fragment :=
      if GetStr(event, "delta").Some? then GetStr(event, "delta")
      else OrElse(AsStr(DeltaField(event, "content")), AsStr(DeltaField(event, "text")));
    st.(text := st.text + GetOr(fragment, ""))
  }

  // -------------------------------------------------------------------- events

  /** The document an event carries whole, if it does. */
  function CompletedIn(event: Value): Option<Value>
  {
    var response := Get(event, "response");
    if response.Some? && (Get(response.value, "output").Some? || Get(response.value, "choices").Some?) then response
    else if Get(event, "output").Some? || (Get(event, "role").Some? && Get(event, "content").Some?) then Some(event)
    else None
  }

  function Step(st: Stream, event: Value): Stream
  {
    var choices := AsArray(Get(event, "choices"));
    if CompletedIn(event).Some? then st.(completed := CompletedIn(event))
    else if choices.Some? then ApplyChoices(st, choices.value)
    else
      var kind := GetStr(event, "type");
      if kind == Some("message_start") then st.(anthropic := Get(event, "message"))
      else if kind == Some("content_block_start") then
        var index, block := AsU64(Get(event, "index")), Get(event, "content_block");
        if index.Some? && block.Some? then st.(blocks := st.blocks[index.value := block.value]) else st
      else if kind == Some("content_block_delta") then ApplyBlockDelta(st, event)
      else ApplyText(st, event)
  }

  function Run(st: Stream, events: seq<Value>): Stream
    decreases |events|
  {
    if events == [] then st else Run(Step(st, events[0]), events[1..])
  }

  // -------------------------------------------------------------------- result

  lemma {:induction false} LeastOf(s: set<nat>) returns (k: nat)
    requires s != {}
    ensures k in s && forall j | j in s :: k <= j
  {
    var x :| x in s;
    var rest := s - {x};
    k := x;
    if rest != {} {
      var least := LeastOf(rest);
      if least < x { k := least; }
      forall j | j in s ensures k <= j { assert j == x || j in rest; }
    } else {
      forall j | j in s ensures k <= j { assert j !in rest; }
    }
  }

  lemma {:induction false} LeastExists(s: set<nat>)
    requires s != {}
    ensures exists k :: k in s && forall j | j in s :: k <= j
  {
    var k := LeastOf(s);
  }

  function Least(s: set<nat>): (k: nat)
    requires s != {}
    ensures k in s && forall j | j in s :: k <= j
  {
    LeastExists(s);
    var k :| k in s && forall j | j in s :: k <= j;
    k
  }

  /** `BTreeMap::into_values`. */
  function ByIndex<T>(m: map<nat, T>): seq<T>
    decreases |m|
  {
    if m == map[] then []
    else
      var k := Least(m.Keys);
      assert |m - {k}| < |m| by {
        assert (m - {k}).Keys == m.Keys - {k};
        assert |m.Keys| == |m| && |(m - {k}).Keys| == |m - {k}|;
      }
      [m[k]] + ByIndex(m - {k})
  }

  /** `value[key] = x`: an object takes the field, `null` becomes one, anything
      else panics. */
  function Assign(v: Value, key: string, x: Value): Option<Value>
  {
    match v
    case Object(fields) => Some(Object(Insert(fields, key, x)))
    case Null => Some(Object([(key, x)]))
    case _ => None
  }

  /** The blocks with their parsed tool inputs; nothing when an assignment panics. */
  function WithInputs(blocks: map<nat, Value>, inputs: map<nat, string>, parse: string -> Option<Value>)
    : Option<map<nat, Value>>
  {
    if forall i | i in inputs && i in blocks && parse(inputs[i]).Some? :: blocks[i].Object? || blocks[i].Null? then
      Some(map i | i in blocks ::
        if i in inputs && parse(inputs[i]).Some?
        then GetOr(Assign(blocks[i], "input", parse(inputs[i]).value), Null) else blocks[i])
    else None
  }

  function ChatDocument(st: Stream): Value
  {
    var withRole := if Find(st.chatMessage, "role").Some? then st.chatMessage
                    else Insert(st.chatMessage, "role", String("assistant"));
    var tools := ByIndex(st.chatTools);
    var message :=
      if st.chatTools == map[] then withRole
      else Insert(withRole, "tool_calls", Array(seq(|tools|, i requires 0 <= i < |tools| => Object(tools[i]))));
    Object([("choices", Array([Object([("message", Object(message))])]))])
  }

  function TextDocument(text: string): Value
  {
    Object([("output", Array([Object([
      ("type", String("message")),
      ("role", String("assistant")),
      ("content", Array([Object([("type", String("output_text")), ("text", String(text))])]))])]))])
  }

  function Finish(st: Stream, parse: string -> Option<Value>): Outcome
  {
    if st.panicked then Panic
    else if st.completed.Some? then Reply(st.completed)
    else if st.chatMessage != [] || st.chatTools != map[] then Reply(Some(ChatDocument(st)))
    else if st.anthropic.Some? || st.blocks != map[] then
      var message := GetOr(st.anthropic, Object([("role", String("assistant"))]));
      var blocks := WithInputs(st.blocks, st.toolInputs, parse);
      if blocks.None? then Panic
      else if st.blocks == map[] then Reply(Some(message))
      else
        var whole := Assign(message, "content", Array(ByIndex(blocks.value)));
        if whole.None? then Panic else Reply(whole)
    else if st.text == "" then Reply(None)
    else Reply(Some(TextDocument(st.text)))
  }

  function DocumentOf(events: seq<Value>, parse: string -> Option<Value>): Outcome
  {
    Finish(Run(Start, events), parse)
  }

  /** `raw_return_document` on a stream. */
  method RawReturnDocument(events: seq<Value>, parse: string -> Option<Value>) returns (outcome: Outcome)
    ensures outcome == DocumentOf(events, parse)
  {
    var st := Start;
    for i := 0 to |events|
      invariant Run(Start, events) == Run(st, events[i..])
    {
      assert events[i..][0] == events[i] && events[i..][1..] == events[i + 1..];
      st := Step(st, events[i]);
    }
    outcome := Finish(st, parse);
  }
}
