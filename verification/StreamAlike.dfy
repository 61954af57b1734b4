/** Two ways through a stream that leave the same chat message and tools up to the
    order of fields give the same document; an object is a sorted map in the source, so
    the order in which its fields came is not there (src/conversation.rs:557-731). */
module StreamAlike {
  import opened Json
  import opened ReturnStream
  import Canonical

  // ---------------------------------------------------------------------- fields

  ghost predicate Alike(f: Fields, g: Fields)
  {
    UniqueKeys(f) && UniqueKeys(g) && forall key :: Find(f, key) == Find(g, key)
  }

  ghost predicate AlikeFunction(x: Option<Value>, y: Option<Value>)
  {
    if x.Some? && x.value.Object? then y.Some? && y.value.Object? && Alike(x.value.fields, y.value.fields) else x == y
  }

  /** Equal up to the order of its own fields and of its function's. */
  ghost predicate AlikeTool(f: Fields, g: Fields)
  {
    && UniqueKeys(f) && UniqueKeys(g)
    && (forall key | key != "function" :: Find(f, key) == Find(g, key))
    && AlikeFunction(Find(f, "function"), Find(g, "function"))
  }

  lemma {:induction false} InsertReads(fields: Fields, key: string, value: Value)
    ensures forall other ::
      Find(Insert(fields, key, value), other) == if other == key then Some(value) else Find(fields, other)
    ensures UniqueKeys(fields) ==> UniqueKeys(Insert(fields, key, value))
  {
    forall other
      ensures Find(Insert(fields, key, value), other) == if other == key then Some(value) else Find(fields, other)
    {
      if other != key { InsertKeepsOthers(fields, key, value, other); }
    }
    if UniqueKeys(fields) { InsertUnique(fields, key, value); }
  }

  lemma {:induction false} InsertUnique(fields: Fields, key: string, value: Value)
    requires UniqueKeys(fields)
    ensures UniqueKeys(Insert(fields, key, value))
    ensures forall f | f in Insert(fields, key, value) :: f.0 == key || exists g :: g in fields && g.0 == f.0
  {
    if fields != [] && fields[0].0 != key {
      InsertUnique(fields[1..], key, value);
      var rest := Insert(fields[1..], key, value);
      forall j | 0 <= j < |rest| ensures rest[j].0 != fields[0].0 {
        assert rest[j] in rest;
        if rest[j].0 != key {
          var g :| g in fields[1..] && g.0 == rest[j].0;
          var k :| 0 <= k < |fields[1..]| && fields[1..][k] == g;
          assert fields[k + 1] == g;
        }
      }
    }
  }

  /** What a string field holds after a fragment. */
  function Appended(old_: Option<Value>, fragment: Option<Value>): Option<Value>
  {
    if AsStr(fragment).None? then old_ else Some(String(GetOr(AsStr(old_), "") + AsStr(fragment).value))
  }

  lemma {:induction false} AppendReads(target: Fields, key: string, fragment: Option<Value>)
    ensures forall other ::
      Find(AppendString(target, key, fragment), other)
      == if other == key then Appended(Find(target, key), fragment) else Find(target, other)
    ensures UniqueKeys(target) ==> UniqueKeys(AppendString(target, key, fragment))
  {
    if AsStr(fragment).Some? {
      InsertReads(target, key, String(GetOr(AsStr(Find(target, key)), "") + AsStr(fragment).value));
    }
  }

  // ----------------------------------------------------------------------- tools

  /** The tool's own fields once `id` and `type` of a fragment are in. */
  function Outer(target: Fields, call: Value): Fields
  {
    var withId := AppendString(target, "id", Get(call, "id"));
    if Get(call, "type").Some? then Insert(withId, "type", Get(call, "type").value) else withId
  }

  /** The fields of its function once `name` and `arguments` are in. */
  function Inner(function_: Fields, call: Value): Fields
  {
    var named := AppendString(function_, "name", FunctionField(call, "name"));
    AppendString(named, "arguments", FunctionField(call, "arguments"))
  }

  lemma {:induction false} OuterReads(target: Fields, call: Value)
    ensures forall key ::
      Find(Outer(target, call), key)
      == if key == "type" then OrElse(Get(call, "type"), Find(target, "type"))
         else if key == "id" then Appended(Find(target, "id"), Get(call, "id"))
         else Find(target, key)
    ensures UniqueKeys(target) ==> UniqueKeys(Outer(target, call))
  {
    AppendReads(target, "id", Get(call, "id"));
    if Get(call, "type").Some? {
      InsertReads(AppendString(target, "id", Get(call, "id")), "type", Get(call, "type").value);
    }
  }

  lemma {:induction false} InnerReads(function_: Fields, call: Value)
    ensures forall key ::
      Find(Inner(function_, call), key)
      == if key == "name" then Appended(Find(function_, "name"), FunctionField(call, "name"))
         else if key == "arguments" then Appended(Find(function_, "arguments"), FunctionField(call, "arguments"))
         else Find(function_, key)
    ensures UniqueKeys(function_) ==> UniqueKeys(Inner(function_, call))
  {
    AppendReads(function_, "name", FunctionField(call, "name"));
    AppendReads(AppendString(function_, "name", FunctionField(call, "name")), "arguments",
                FunctionField(call, "arguments"));
  }

  lemma {:induction false} FragmentParts(target: Fields, call: Value)
    ensures var fn := GetOr(Find(target, "function"), Object([]));
            ApplyFragment(target, call) ==
              if fn.Object? then (Insert(Outer(target, call), "function", Object(Inner(fn.fields, call))), false)
              else (Outer(target, call), true)
  {
    OuterReads(target, call);
  }

  /** The tool's function after a fragment. */
  function FunctionAfter(fn: Option<Value>, call: Value): Option<Value>
  {
    if fn.Some? && !fn.value.Object? then fn else Some(Object(Inner(GetOr(fn, Object([])).fields, call)))
  }

  /** A field of the tool after a fragment. */
  function FieldAfter(old_: Option<Value>, key: string, call: Value): Option<Value>
  {
    if key == "function" then FunctionAfter(old_, call)
    else if key == "type" then OrElse(Get(call, "type"), old_)
    else if key == "id" then Appended(old_, Get(call, "id"))
    else old_
  }

  lemma {:induction false} FragmentReads(target: Fields, call: Value)
    ensures var (fields, bad) := ApplyFragment(target, call);
            && (forall key :: Find(fields, key) == FieldAfter(Find(target, key), key, call))
            && (UniqueKeys(target) ==> UniqueKeys(fields))
            && (bad <==> Find(target, "function").Some? && !Find(target, "function").value.Object?)
  {
    var fn := GetOr(Find(target, "function"), Object([]));
    FragmentParts(target, call);
    OuterReads(target, call);
    if fn.Object? { InsertReads(Outer(target, call), "function", Object(Inner(fn.fields, call))); }
  }

  lemma {:induction false} FunctionAlike(x: Option<Value>, y: Option<Value>, call: Value)
    requires AlikeFunction(x, y)
    ensures AlikeFunction(FunctionAfter(x, call), FunctionAfter(y, call))
  {
    if x.None? || x.value.Object? {
      InnerReads(GetOr(x, Object([])).fields, call);
      InnerReads(GetOr(y, Object([])).fields, call);
    }
  }

  lemma {:induction false} FragmentAlike(f: Fields, g: Fields, call: Value)
    requires AlikeTool(f, g)
    ensures AlikeTool(ApplyFragment(f, call).0, ApplyFragment(g, call).0)
    ensures ApplyFragment(f, call).1 == ApplyFragment(g, call).1
  {
    FragmentReads(f, call);
    FragmentReads(g, call);
    FunctionAlike(Find(f, "function"), Find(g, "function"), call);
  }

  // --------------------------------------------------------------------- streams

  ghost predicate AlikeTools(m: map<nat, Fields>, n: map<nat, Fields>)
  {
    m.Keys == n.Keys && forall i | i in m :: AlikeTool(m[i], n[i])
  }

  /** Equal up to the order of fields in the chat message and the tools. */
  ghost predicate AlikeStream(s: Stream, t: Stream)
  {
    && t == s.(chatMessage := t.chatMessage, chatTools := t.chatTools)
    && Alike(s.chatMessage, t.chatMessage) && AlikeTools(s.chatTools, t.chatTools)
  }

  lemma {:induction false} CallAlike(s: Stream, t: Stream, call: Value)
    requires AlikeStream(s, t)
    ensures AlikeStream(ApplyCall(s, call), ApplyCall(t, call))
  {
    var index := CallIndex(call);
    if index.Some? {
      var f := if index.value in s.chatTools then s.chatTools[index.value] else [];
      var g := if index.value in t.chatTools then t.chatTools[index.value] else [];
      FragmentAlike(f, g, call);
      ToolsWith(s.chatTools, t.chatTools, index.value, ApplyFragment(f, call).0, ApplyFragment(g, call).0);
    }
  }

  lemma {:induction false} ToolsWith(m: map<nat, Fields>, n: map<nat, Fields>, i: nat, f: Fields, g: Fields)
    requires AlikeTools(m, n) && AlikeTool(f, g)
    ensures AlikeTools(m[i := f], n[i := g])
  {
    assert m[i := f].Keys == m.Keys + {i} == n[i := g].Keys;
  }

  lemma {:induction false} CallsAlike(s: Stream, t: Stream, calls: seq<Value>)
    requires AlikeStream(s, t)
    ensures AlikeStream(ApplyCalls(s, calls), ApplyCalls(t, calls))
    decreases |calls|
  {
    if calls != [] {
      CallAlike(s, t, calls[0]);
      CallsAlike(ApplyCall(s, calls[0]), ApplyCall(t, calls[0]), calls[1..]);
    }
  }

  /** The message once the role and the content of a delta are in. */
  function MessageAfter(message: Fields, delta: Value): Fields
  {
    var role := Get(delta, "role");
    var withRole := if role.Some? then Insert(message, "role", role.value) else message;
    AppendString(withRole, "content", Get(delta, "content"))
  }

  lemma {:induction false} MessageReads(message: Fields, delta: Value)
    ensures forall key ::
      Find(MessageAfter(message, delta), key)
      == if key == "content" then Appended(Find(message, "content"), Get(delta, "content"))
         else if key == "role" then OrElse(Get(delta, "role"), Find(message, "role"))
         else Find(message, key)
    ensures UniqueKeys(message) ==> UniqueKeys(MessageAfter(message, delta))
  {
    var role := Get(delta, "role");
    if role.Some? { InsertReads(message, "role", role.value); }
    AppendReads(if role.Some? then Insert(message, "role", role.value) else message, "content", Get(delta, "content"));
  }

  lemma {:induction false} DeltaParts(s: Stream, delta: Value)
    ensures ApplyDelta(s, delta) == ApplyCalls(s.(chatMessage := MessageAfter(s.chatMessage, delta)), CallsOf(delta))
  {
  }

  lemma {:induction false} DeltaAlike(s: Stream, t: Stream, delta: Value)
    requires AlikeStream(s, t)
    ensures AlikeStream(ApplyDelta(s, delta), ApplyDelta(t, delta))
  {
    DeltaParts(s, delta);
    DeltaParts(t, delta);
    MessageReads(s.chatMessage, delta);
    MessageReads(t.chatMessage, delta);
    CallsAlike(s.(chatMessage := MessageAfter(s.chatMessage, delta)),
               t.(chatMessage := MessageAfter(t.chatMessage, delta)), CallsOf(delta));
  }

  lemma {:induction false} FindWellFormed(fields: Fields, key: string)
    requires WellFormed(Object(fields)) && Find(fields, key).Some?
    ensures WellFormed(Find(fields, key).value)
  {
    FindIsField(fields, key);
  }

  lemma {:induction false} FindIsField(fields: Fields, key: string)
    requires Find(fields, key).Some?
    ensures exists i :: 0 <= i < |fields| && fields[i] == (key, Find(fields, key).value)
  {
    if fields[0].0 != key {
      FindIsField(fields[1..], key);
      var i :| 0 <= i < |fields[1..]| && fields[1..][i] == (key, Find(fields[1..], key).value);
      assert fields[i + 1] == fields[1..][i];
    } else {
      assert fields[0] == (key, Find(fields, key).value);
    }
  }

  /** A whole message sets message and tools, each to one value on both ways. */
  lemma {:induction false} MessageAlike(s: Stream, t: Stream, message: Value)
    requires AlikeStream(s, t) && message.Object? && WellFormed(message)
    ensures AlikeStream(ApplyMessage(s, message), ApplyMessage(t, message))
  {
    var calls := CallsOf(message);
    if Find(message.fields, "tool_calls").Some? { FindWellFormed(message.fields, "tool_calls"); }
    var tools := ObjectCalls(calls);
    forall i | i in tools ensures AlikeTool(tools[i], tools[i]) {
      assert WellFormed(calls[i]);
      if Find(tools[i], "function").Some? { FindWellFormed(tools[i], "function"); }
    }
  }

  lemma {:induction false} ChoiceAlike(s: Stream, t: Stream, choice: Value)
    requires AlikeStream(s, t) && WellFormed(choice)
    ensures AlikeStream(ApplyChoice(s, choice), ApplyChoice(t, choice))
  {
    if Get(choice, "message").Some? && Get(choice, "message").value.Object? {
      FindWellFormed(choice.fields, "message");
      MessageAlike(s, t, Get(choice, "message").value);
    } else if Get(choice, "delta").Some? {
      DeltaAlike(s, t, Get(choice, "delta").value);
    }
  }

  lemma {:induction false} ChoicesAlike(s: Stream, t: Stream, choices: seq<Value>)
    requires AlikeStream(s, t) && forall c | c in choices :: WellFormed(c)
    ensures AlikeStream(ApplyChoices(s, choices), ApplyChoices(t, choices))
    decreases |choices|
  {
    if choices != [] {
      ChoiceAlike(s, t, choices[0]);
      ChoicesAlike(ApplyChoice(s, choices[0]), ApplyChoice(t, choices[0]), choices[1..]);
    }
  }

  lemma {:induction false} StepAlike(s: Stream, t: Stream, event: Value)
    requires AlikeStream(s, t) && WellFormed(event)
    ensures AlikeStream(Step(s, event), Step(t, event))
  {
    var choices := AsArray(Get(event, "choices"));
    if CompletedIn(event).None? && choices.Some? {
      ItemsWellFormed(event, "choices");
      ChoicesAlike(s, t, choices.value);
    } else {
      OtherStepAlike(s, t, event);
    }
  }

  lemma {:induction false} ItemsWellFormed(v: Value, key: string)
    requires WellFormed(v) && AsArray(Get(v, key)).Some?
    ensures forall c | c in AsArray(Get(v, key)).value :: WellFormed(c)
  {
    FindWellFormed(v.fields, key);
    var items := Get(v, key).value.items;
    forall c | c in items ensures WellFormed(c) {
      var i :| 0 <= i < |items| && items[i] == c;
    }
  }

  /** An event that is no chat event does the same on both ways. */
  lemma {:induction false} OtherStepAlike(s: Stream, t: Stream, event: Value)
    requires AlikeStream(s, t) && (CompletedIn(event).Some? || AsArray(Get(event, "choices")).None?)
    ensures AlikeStream(Step(s, event), Step(t, event))
  {
    StepFrame(s, event, t.chatMessage, t.chatTools);
    StepFrame(s, event, s.chatMessage, s.chatTools);
  }

  lemma {:induction false} StepFrame(s: Stream, event: Value, message: Fields, tools: map<nat, Fields>)
    requires CompletedIn(event).Some? || AsArray(Get(event, "choices")).None?
    ensures Step(s.(chatMessage := message, chatTools := tools), event)
            == Step(s, event).(chatMessage := message, chatTools := tools)
  {
    BlockDeltaFrame(s, event, message, tools);
    TextFrame(s, event, message, tools);
    var choices, completed := AsArray(Get(event, "choices")), CompletedIn(event);
    var kind := GetStr(event, "type");
    if completed.None? && kind == Some("content_block_start") {
      var index, block := AsU64(Get(event, "index")), Get(event, "content_block");
      assert Step(s, event)
             == if index.Some? && block.Some? then s.(blocks := s.blocks[index.value := block.value]) else s;
    }
  }

  lemma {:induction false} BlockDeltaFrame(s: Stream, event: Value, message: Fields, tools: map<nat, Fields>)
    ensures ApplyBlockDelta(s.(chatMessage := message, chatTools := tools), event)
            == ApplyBlockDelta(s, event).(chatMessage := message, chatTools := tools)
  {
  }

  lemma {:induction false} TextFrame(s: Stream, event: Value, message: Fields, tools: map<nat, Fields>)
    ensures ApplyText(s.(chatMessage := message, chatTools := tools), event)
            == ApplyText(s, event).(chatMessage := message, chatTools := tools)
  {
  }

  lemma {:induction false} RunAlike(s: Stream, t: Stream, events: seq<Value>)
    requires AlikeStream(s, t) && forall e | e in events :: WellFormed(e)
    ensures AlikeStream(Run(s, events), Run(t, events))
    decreases |events|
  {
    if events != [] {
      StepAlike(s, t, events[0]);
      RunAlike(Step(s, events[0]), Step(t, events[0]), events[1..]);
    }
  }

  // -------------------------------------------------------------------- documents

  /** One canonical form, which sorts the fields of each object: one sorted map. */
  ghost predicate SameDocument(a: Value, b: Value)
  {
    Canonical.Canonicalize(a, false) == Canonical.Canonicalize(b, false)
  }

  ghost predicate SameOutcome(x: Outcome, y: Outcome)
  {
    match x
    case Panic => y.Panic?
    case Reply(None) => y == Reply(None)
    case Reply(Some(document)) => y.Reply? && y.document.Some? && SameDocument(document, y.document.value)
  }

  ghost predicate SameField(x: Option<Value>, y: Option<Value>)
  {
    x == y || (x.Some? && y.Some? && SameDocument(x.value, y.value))
  }

  lemma {:induction false} FindAt(fields: Fields, i: nat)
    requires UniqueKeys(fields) && i < |fields|
    ensures Find(fields, fields[i].0) == Some(fields[i].1)
  {
    if i > 0 {
      assert fields[0].0 != fields[i].0;
      FindAt(fields[1..], i - 1);
    }
  }

  lemma {:induction false} FieldsCovered(f: Fields, g: Fields)
    requires UniqueKeys(f) && forall key :: SameField(Find(f, key), Find(g, key))
    ensures Canonical.Covered(f, g, false)
  {
    forall i | 0 <= i < |f| ensures Canonical.HasPartner(f[i], g, false) {
      FindAt(f, i);
      assert SameField(Find(f, f[i].0), Find(g, f[i].0));
      FindIsField(g, f[i].0);
    }
  }

  lemma {:induction false} SameObject(f: Fields, g: Fields)
    requires UniqueKeys(f) && UniqueKeys(g) && forall key :: SameField(Find(f, key), Find(g, key))
    ensures SameDocument(Object(f), Object(g))
  {
    forall key ensures SameField(Find(g, key), Find(f, key)) { assert SameField(Find(f, key), Find(g, key)); }
    FieldsCovered(f, g);
    FieldsCovered(g, f);
    Canonical.SameObjects(Object(f), Object(g), false);
  }

  lemma {:induction false} SameTool(f: Fields, g: Fields)
    requires AlikeTool(f, g)
    ensures SameDocument(Object(f), Object(g))
  {
    var x, y := Find(f, "function"), Find(g, "function");
    if x.Some? && x.value.Object? { SameObject(x.value.fields, y.value.fields); }
    SameObject(f, g);
  }

  lemma {:induction false} SameArray(a: seq<Value>, b: seq<Value>)
    requires |a| == |b| && forall i | 0 <= i < |a| :: SameDocument(a[i], b[i])
    ensures SameDocument(Array(a), Array(b))
  {
    forall i | 0 <= i < |a|
      ensures Canonical.Canonicalize(a[i], false) == Canonical.Canonicalize(b[i], false)
    {
      assert SameDocument(a[i], b[i]);
    }
  }

  lemma {:induction false} SameWrapped(key: string, a: Value, b: Value)
    requires SameDocument(a, b)
    ensures SameDocument(Object([(key, a)]), Object([(key, b)]))
  {
    assert [(key, a)][1..] == [] && [(key, b)][1..] == [];
    assert forall other :: Find([(key, a)], other) == if other == key then Some(a) else None;
    assert forall other :: Find([(key, b)], other) == if other == key then Some(b) else None;
    SameObject([(key, a)], [(key, b)]);
  }

  lemma {:induction false} ByIndexAlike(m: map<nat, Fields>, n: map<nat, Fields>)
    requires AlikeTools(m, n)
    ensures |ByIndex(m)| == |ByIndex(n)|
    ensures forall i | 0 <= i < |ByIndex(m)| :: AlikeTool(ByIndex(m)[i], ByIndex(n)[i])
    decreases |m|
  {
    if m != map[] {
      var k := Least(m.Keys);
      assert k in m && n != map[];
      ByIndexStep(m);
      ByIndexStep(n);
      ByIndexAlike(m - {k}, n - {k});
      var x, y := ByIndex(m), ByIndex(n);
      forall i | 0 <= i < |x| ensures AlikeTool(x[i], y[i]) {
        if i > 0 { assert x[i] == ByIndex(m - {k})[i - 1] && y[i] == ByIndex(n - {k})[i - 1]; }
      }
    }
  }

  lemma {:induction false} ByIndexStep(m: map<nat, Fields>)
    requires m != map[]
    ensures var k := Least(m.Keys);
            ByIndex(m) == [m[k]] + ByIndex(m - {k}) && (m - {k}).Keys == m.Keys - {k} && |m - {k}| < |m|
  {
    var k := Least(m.Keys);
    assert (m - {k}).Keys == m.Keys - {k};
    assert |(m - {k}).Keys| == |m - {k}| && |m.Keys| == |m|;
  }

  lemma {:induction false} ChatAlike(s: Stream, t: Stream)
    requires AlikeStream(s, t)
    ensures SameDocument(ChatDocument(s), ChatDocument(t))
  {
    var f, g := WithRole(s.chatMessage), WithRole(t.chatMessage);
    RoleAlike(s.chatMessage, t.chatMessage);
    ToolsAlike(s.chatTools, t.chatTools);
    var x := if s.chatTools == map[] then f else Insert(f, "tool_calls", ToolCalls(s.chatTools));
    var y := if t.chatTools == map[] then g else Insert(g, "tool_calls", ToolCalls(t.chatTools));
    NoTools(s.chatTools, t.chatTools);
    SameMessage(f, g, ToolCalls(s.chatTools), ToolCalls(t.chatTools));
    SameWrapped("message", Object(x), Object(y));
    SameArray([Object([("message", Object(x))])], [Object([("message", Object(y))])]);
    SameWrapped("choices", Array([Object([("message", Object(x))])]), Array([Object([("message", Object(y))])]));
  }

  function WithRole(message: Fields): Fields
  {
    if Find(message, "role").Some? then message else Insert(message, "role", String("assistant"))
  }

  function ToolCalls(m: map<nat, Fields>): Value
  {
    var tools := ByIndex(m);
    Array(seq(|tools|, i requires 0 <= i < |tools| => Object(tools[i])))
  }

  lemma {:induction false} RoleAlike(f: Fields, g: Fields)
    requires Alike(f, g)
    ensures Alike(WithRole(f), WithRole(g))
  {
    InsertReads(f, "role", String("assistant"));
    InsertReads(g, "role", String("assistant"));
  }

  lemma {:induction false} ToolsAlike(m: map<nat, Fields>, n: map<nat, Fields>)
    requires AlikeTools(m, n)
    ensures SameDocument(ToolCalls(m), ToolCalls(n))
  {
    var a, b := ToolCalls(m).items, ToolCalls(n).items;
    ByIndexAlike(m, n);
    forall i | 0 <= i < |a| ensures SameDocument(a[i], b[i]) {
      SameTool(ByIndex(m)[i], ByIndex(n)[i]);
    }
    SameArray(a, b);
  }

  lemma {:induction false} SameMessage(f: Fields, g: Fields, a: Value, b: Value)
    requires Alike(f, g) && SameDocument(a, b)
    ensures SameDocument(Object(f), Object(g))
    ensures SameDocument(Object(Insert(f, "tool_calls", a)), Object(Insert(g, "tool_calls", b)))
  {
    SameObject(f, g);
    InsertReads(f, "tool_calls", a);
    InsertReads(g, "tool_calls", b);
    SameObject(Insert(f, "tool_calls", a), Insert(g, "tool_calls", b));
  }

  lemma {:induction false} NoTools(m: map<nat, Fields>, n: map<nat, Fields>)
    requires AlikeTools(m, n)
    ensures m == map[] <==> n == map[]
  {
    assert m == map[] <==> m.Keys == {};
    assert n == map[] <==> n.Keys == {};
  }

  lemma {:induction false} FinishAlike(s: Stream, t: Stream, parse: string -> Option<Value>)
    requires AlikeStream(s, t)
    ensures SameOutcome(Finish(s, parse), Finish(t, parse))
  {
    assert s.chatMessage == [] <==> t.chatMessage == [] by {
      if s.chatMessage != [] { assert Find(s.chatMessage, s.chatMessage[0].0).Some?; }
      if t.chatMessage != [] { assert Find(t.chatMessage, t.chatMessage[0].0).Some?; }
    }
    NoTools(s.chatTools, t.chatTools);
    if s.chatMessage != [] || s.chatTools != map[] { ChatAlike(s, t); }
  }
}
