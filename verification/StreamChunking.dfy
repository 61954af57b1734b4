/** How a stream is cut into events does not show in the document it gives
    (src/conversation.rs:557-731). */
module StreamChunking {
  import opened Json
  import opened ReturnStream
  import opened StreamAlike

  // ------------------------------------------------------------------ fragments

  /** Two string fragments in a row stand for one, or a field is not there. */
  ghost predicate Joins(whole: Option<Value>, first: Option<Value>, second: Option<Value>)
  {
    var (w, a, b) := (AsStr(whole), AsStr(first), AsStr(second));
    if a.Some? && b.Some? then w == Some(a.value + b.value)
    else w == OrElse(a, b)
  }

  lemma {:induction false} AppendJoined(target: Fields, key: string, whole: Option<Value>, first: Option<Value>,
                                        second: Option<Value>)
    requires Joins(whole, first, second)
    ensures AppendString(AppendString(target, key, first), key, second) == AppendString(target, key, whole)
  {
    var a, b := AsStr(first), AsStr(second);
    if a.Some? && b.Some? {
      var old_ := GetOr(AsStr(Find(target, key)), "");
      InsertTwice(target, key, String(old_ + a.value), String(old_ + a.value + b.value));
      assert old_ + a.value + b.value == old_ + (a.value + b.value);
    }
  }

  lemma {:induction false} AppendedJoined(old_: Option<Value>, whole: Option<Value>, first: Option<Value>,
                                          second: Option<Value>)
    requires Joins(whole, first, second)
    ensures Appended(Appended(old_, first), second) == Appended(old_, whole)
  {
    var a, b, was := AsStr(first), AsStr(second), GetOr(AsStr(old_), "");
    if a.Some? && b.Some? { assert was + a.value + b.value == was + (a.value + b.value); }
  }

  /** A tool call fragment cut anywhere: in its id, its name or its arguments, or
      between them, whichever comes first; of two types the later one stays. */
  ghost predicate SplitCall(call: Value, first: Value, second: Value)
  {
    && CallIndex(first) == CallIndex(second) == CallIndex(call)
    && Get(call, "type") == OrElse(Get(second, "type"), Get(first, "type"))
    && Joins(Get(call, "id"), Get(first, "id"), Get(second, "id"))
    && Joins(FunctionField(call, "name"), FunctionField(first, "name"), FunctionField(second, "name"))
    && Joins(FunctionField(call, "arguments"), FunctionField(first, "arguments"), FunctionField(second, "arguments"))
  }

  lemma {:induction false} InnerSplit(f: Fields, g: Fields, call: Value, first: Value, second: Value)
    requires Alike(f, g) && SplitCall(call, first, second)
    ensures Alike(Inner(Inner(f, first), second), Inner(g, call))
  {
    InnerReads(f, first);
    InnerReads(Inner(f, first), second);
    InnerReads(g, call);
    AppendedJoined(Find(f, "name"), FunctionField(call, "name"), FunctionField(first, "name"),
                   FunctionField(second, "name"));
    AppendedJoined(Find(f, "arguments"), FunctionField(call, "arguments"), FunctionField(first, "arguments"),
                   FunctionField(second, "arguments"));
  }

  lemma {:induction false} FunctionSplit(x: Option<Value>, y: Option<Value>, call: Value, first: Value, second: Value)
    requires AlikeFunction(x, y) && SplitCall(call, first, second)
    ensures AlikeFunction(FunctionAfter(FunctionAfter(x, first), second), FunctionAfter(y, call))
  {
    if x.None? || x.value.Object? {
      InnerSplit(GetOr(x, Object([])).fields, GetOr(y, Object([])).fields, call, first, second);
    }
  }

  lemma {:induction false} FieldSplit(old_: Option<Value>, key: string, call: Value, first: Value, second: Value)
    requires key != "function" && SplitCall(call, first, second)
    ensures FieldAfter(FieldAfter(old_, key, first), key, second) == FieldAfter(old_, key, call)
  {
    AppendedJoined(old_, Get(call, "id"), Get(first, "id"), Get(second, "id"));
  }

  lemma {:induction false} FragmentTwice(f: Fields, first: Value, second: Value)
    requires UniqueKeys(f)
    ensures var (half, bad1) := ApplyFragment(f, first);
            var (both, bad2) := ApplyFragment(half, second);
            && UniqueKeys(both)
            && (forall key :: Find(both, key) == FieldAfter(FieldAfter(Find(f, key), key, first), key, second))
            && (bad1 || bad2 <==> Find(f, "function").Some? && !Find(f, "function").value.Object?)
  {
    FragmentReads(f, first);
    FragmentReads(ApplyFragment(f, first).0, second);
  }

  lemma {:induction false} FieldsSplit(f: Fields, g: Fields, call: Value, first: Value, second: Value, both: Fields,
                                       whole: Fields)
    requires AlikeTool(f, g) && SplitCall(call, first, second) && UniqueKeys(both) && UniqueKeys(whole)
    requires forall key :: Find(both, key) == FieldAfter(FieldAfter(Find(f, key), key, first), key, second)
    requires forall key :: Find(whole, key) == FieldAfter(Find(g, key), key, call)
    ensures AlikeTool(both, whole)
  {
    forall key | key != "function" ensures Find(both, key) == Find(whole, key) {
      FieldSplit(Find(f, key), key, call, first, second);
    }
    FunctionSplit(Find(f, "function"), Find(g, "function"), call, first, second);
  }

  lemma {:induction false} FragmentSplit(f: Fields, g: Fields, call: Value, first: Value, second: Value)
    requires AlikeTool(f, g) && SplitCall(call, first, second)
    ensures var (half, bad1) := ApplyFragment(f, first);
            var (both, bad2) := ApplyFragment(half, second);
            AlikeTool(both, ApplyFragment(g, call).0) && (bad1 || bad2 <==> ApplyFragment(g, call).1)
  {
    FragmentTwice(f, first, second);
    FragmentReads(g, call);
    var both := ApplyFragment(ApplyFragment(f, first).0, second).0;
    FieldsSplit(f, g, call, first, second, both, ApplyFragment(g, call).0);
  }

  lemma {:induction false} CallTwice(s: Stream, first: Value, second: Value, i: nat)
    requires CallIndex(first) == CallIndex(second) == Some(i)
    ensures var f := if i in s.chatTools then s.chatTools[i] else [];
            var (half, bad1) := ApplyFragment(f, first);
            var (both, bad2) := ApplyFragment(half, second);
            ApplyCall(ApplyCall(s, first), second)
            == s.(chatTools := s.chatTools[i := both], panicked := s.panicked || bad1 || bad2)
  {
    var f := if i in s.chatTools then s.chatTools[i] else [];
    var half := ApplyFragment(f, first).0;
    var both := ApplyFragment(half, second).0;
    assert s.chatTools[i := half][i := both] == s.chatTools[i := both];
  }

  lemma {:induction false} CallSplit(s: Stream, t: Stream, call: Value, first: Value, second: Value)
    requires AlikeStream(s, t) && SplitCall(call, first, second)
    ensures AlikeStream(ApplyCall(ApplyCall(s, first), second), ApplyCall(t, call))
  {
    var index := CallIndex(call);
    if index.Some? {
      var i := index.value;
      var f := if i in s.chatTools then s.chatTools[i] else [];
      var g := if i in t.chatTools then t.chatTools[i] else [];
      CallTwice(s, first, second, i);
      FragmentSplit(f, g, call, first, second);
      ToolsWith(s.chatTools, t.chatTools, i, ApplyFragment(ApplyFragment(f, first).0, second).0,
                ApplyFragment(g, call).0);
    }
  }

  lemma {:induction false} CallsConcat(st: Stream, a: seq<Value>, b: seq<Value>)
    ensures ApplyCalls(ApplyCalls(st, a), b) == ApplyCalls(st, a + b)
    decreases |a|
  {
    if a == [] {
      assert a + b == b;
    } else {
      CallsConcat(ApplyCall(st, a[0]), a[1..], b);
      assert (a + b)[0] == a[0] && (a + b)[1..] == a[1..] + b;
    }
  }

  /** A call list cut between two calls, or inside one. */
  ghost predicate SplitCalls(calls: seq<Value>, first: seq<Value>, second: seq<Value>)
  {
    || calls == first + second
    || (&& first != [] && second != [] && |calls| == |first| + |second| - 1
        && calls[..|first| - 1] == first[..|first| - 1]
        && calls[|first|..] == second[1..]
        && SplitCall(calls[|first| - 1], first[|first| - 1], second[0]))
  }

  lemma {:induction false} CallsCons(st: Stream, call: Value, rest: seq<Value>)
    ensures ApplyCalls(st, [call] + rest) == ApplyCalls(ApplyCall(st, call), rest)
    ensures ApplyCalls(st, [call]) == ApplyCall(st, call)
  {
    assert ([call] + rest)[1..] == rest;
    assert [call][1..] == [];
  }

  lemma {:induction false} CallCut(s: Stream, t: Stream, a: seq<Value>, call: Value, first: Value, second: Value,
                                   b: seq<Value>)
    requires AlikeStream(s, t) && SplitCall(call, first, second)
    ensures AlikeStream(ApplyCalls(ApplyCalls(s, a + [first]), [second] + b), ApplyCalls(t, a + ([call] + b)))
  {
    var x, y := ApplyCalls(s, a), ApplyCalls(t, a);
    CallsConcat(s, a, [first]);
    CallsConcat(t, a, [call] + b);
    CallsCons(x, first, []);
    CallsCons(y, call, b);
    CallsCons(ApplyCall(x, first), second, b);
    CallsAlike(s, t, a);
    CallSplit(x, y, call, first, second);
    CallsAlike(ApplyCall(ApplyCall(x, first), second), ApplyCall(y, call), b);
  }

  lemma {:induction false} CallsSplit(s: Stream, t: Stream, calls: seq<Value>, first: seq<Value>, second: seq<Value>)
    requires AlikeStream(s, t) && SplitCalls(calls, first, second)
    ensures AlikeStream(ApplyCalls(ApplyCalls(s, first), second), ApplyCalls(t, calls))
  {
    if calls == first + second {
      CallsConcat(s, first, second);
      CallsAlike(s, t, calls);
    } else {
      var n := |first| - 1;
      CallCut(s, t, calls[..n], calls[n], first[n], second[0], second[1..]);
      assert first == calls[..n] + [first[n]];
      assert second == [second[0]] + second[1..];
      assert calls == calls[..n] + ([calls[n]] + second[1..]);
    }
  }

  // --------------------------------------------------------------------- deltas

  /** Tool fragments leave everything but the tools alone. */
  lemma {:induction false} CallsFrame(st: Stream, calls: seq<Value>, message: Fields)
    ensures ApplyCalls(st.(chatMessage := message), calls) == ApplyCalls(st, calls).(chatMessage := message)
    ensures ApplyCalls(st, calls).chatMessage == st.chatMessage
    decreases |calls|
  {
    if calls != [] { CallsFrame(ApplyCall(st, calls[0]), calls[1..], message); }
  }

  /** A chat delta cut in two: content and calls are cut anywhere, and of two roles
      the later one stays. */
  ghost predicate SplitDelta(delta: Value, first: Value, second: Value)
  {
    && Get(delta, "role") == OrElse(Get(second, "role"), Get(first, "role"))
    && Joins(Get(delta, "content"), Get(first, "content"), Get(second, "content"))
    && SplitCalls(CallsOf(delta), CallsOf(first), CallsOf(second))
  }

  lemma {:induction false} MessageSplit(message: Fields, delta: Value, first: Value, second: Value)
    requires UniqueKeys(message) && SplitDelta(delta, first, second)
    ensures Alike(MessageAfter(MessageAfter(message, first), second), MessageAfter(message, delta))
  {
    MessageReads(message, delta);
    MessageReads(message, first);
    MessageReads(MessageAfter(message, first), second);
    AppendedJoined(Find(message, "content"), Get(delta, "content"), Get(first, "content"), Get(second, "content"));
  }

  lemma {:induction false} DeltaSplit(st: Stream, delta: Value, first: Value, second: Value)
    requires AlikeStream(st, st) && SplitDelta(delta, first, second)
    ensures AlikeStream(ApplyDelta(ApplyDelta(st, first), second), ApplyDelta(st, delta))
  {
    var half := MessageAfter(st.chatMessage, first);
    var both, whole := MessageAfter(half, second), MessageAfter(st.chatMessage, delta);
    DeltaParts(st, delta);
    DeltaParts(st, first);
    DeltaParts(ApplyDelta(st, first), second);
    CallsFrame(st, CallsOf(first), half);
    CallsFrame(st.(chatMessage := half), CallsOf(first), both);
    MessageSplit(st.chatMessage, delta, first, second);
    CallsSplit(st.(chatMessage := both), st.(chatMessage := whole), CallsOf(delta), CallsOf(first), CallsOf(second));
  }

  // --------------------------------------------------------------------- events

  /** The choices of index 0, the only ones that count. */
  function Relevant(choices: seq<Value>): seq<Value>
  {
    if choices == [] then []
    else (if GetOr(AsU64(Get(choices[0], "index")), 0) == 0 then [choices[0]] else []) + Relevant(choices[1..])
  }

  lemma {:induction false} OnlyRelevant(st: Stream, choices: seq<Value>)
    ensures ApplyChoices(st, choices) == ApplyChoices(st, Relevant(choices))
    decreases |choices|
  {
    if choices != [] {
      OnlyRelevant(ApplyChoice(st, choices[0]), choices[1..]);
      if GetOr(AsU64(Get(choices[0], "index")), 0) == 0 {
        assert Relevant(choices)[0] == choices[0] && Relevant(choices)[1..] == Relevant(choices[1..]);
      } else {
        assert Relevant(choices) == Relevant(choices[1..]);
      }
    }
  }

  /** An event whose one relevant choice is this delta, whatever else it holds. */
  ghost predicate IsChatDelta(event: Value, delta: Value)
  {
    && CompletedIn(event).None?
    && AsArray(Get(event, "choices")).Some?
    && |Relevant(AsArray(Get(event, "choices")).value)| == 1
    && var choice := Relevant(AsArray(Get(event, "choices")).value)[0];
       !(Get(choice, "message").Some? && Get(choice, "message").value.Object?) && Get(choice, "delta") == Some(delta)
  }

  lemma {:induction false} RelevantIndex(choices: seq<Value>)
    ensures forall c | c in Relevant(choices) :: GetOr(AsU64(Get(c, "index")), 0) == 0
  {
    if choices != [] { RelevantIndex(choices[1..]); }
  }

  lemma {:induction false} ChatDeltaStep(st: Stream, event: Value, delta: Value)
    requires IsChatDelta(event, delta)
    ensures Step(st, event) == ApplyDelta(st, delta)
  {
    var choices := AsArray(Get(event, "choices")).value;
    OnlyRelevant(st, choices);
    RelevantIndex(choices);
    var choice := Relevant(choices)[0];
    assert choice in Relevant(choices);
    assert Relevant(choices) == [choice];
    assert ApplyChoices(st, [choice]) == ApplyChoice(st, choice);
  }

  /** An event that falls through to the block or text deltas. */
  predicate Bare(event: Value)
  {
    CompletedIn(event).None? && AsArray(Get(event, "choices")).None?
  }

  predicate IsBlockDelta(event: Value)
  {
    Bare(event) && GetStr(event, "type") == Some("content_block_delta")
  }

  ghost predicate IsTextDelta(event: Value, fragment: string)
  {
    && Bare(event)
    && (GetStr(event, "type").Some? ==>
          GetStr(event, "type").value !in {"message_start", "content_block_start", "content_block_delta"})
    && ApplyText(Start, event) == Start.(text := fragment)
  }

  ghost predicate ChatEventCut(event: Value, first: Value, second: Value)
  {
    exists d, d1, d2 ::
      IsChatDelta(event, d) && IsChatDelta(first, d1) && IsChatDelta(second, d2) && SplitDelta(d, d1, d2)
  }

  ghost predicate BlockEventCut(event: Value, first: Value, second: Value)
  {
    && IsBlockDelta(event) && IsBlockDelta(first) && IsBlockDelta(second)
    && AsU64(Get(first, "index")) == AsU64(Get(second, "index")) == AsU64(Get(event, "index"))
    && Joins(DeltaField(event, "text"), DeltaField(first, "text"), DeltaField(second, "text"))
    && Joins(DeltaField(event, "partial_json"), DeltaField(first, "partial_json"), DeltaField(second, "partial_json"))
  }

  ghost predicate TextEventCut(event: Value, first: Value, second: Value)
  {
    exists s, t :: IsTextDelta(event, s + t) && IsTextDelta(first, s) && IsTextDelta(second, t)
  }

  /** One event cut into two, for each wire format. */
  ghost predicate SplitEvent(event: Value, first: Value, second: Value)
  {
    ChatEventCut(event, first, second) || BlockEventCut(event, first, second) || TextEventCut(event, first, second)
  }

  lemma {:induction false} BlockSplit(st: Stream, event: Value, first: Value, second: Value)
    requires AsU64(Get(first, "index")) == AsU64(Get(second, "index")) == AsU64(Get(event, "index"))
    requires Joins(DeltaField(event, "text"), DeltaField(first, "text"), DeltaField(second, "text"))
    requires Joins(DeltaField(event, "partial_json"), DeltaField(first, "partial_json"),
                   DeltaField(second, "partial_json"))
    ensures ApplyBlockDelta(ApplyBlockDelta(st, first), second) == ApplyBlockDelta(st, event)
  {
    var index := AsU64(Get(event, "index"));
    if index.Some? && index.value in st.blocks && st.blocks[index.value].Object? {
      var i := index.value;
      var block := st.blocks[i].fields;
      AppendJoined(block, "text", DeltaField(event, "text"), DeltaField(first, "text"), DeltaField(second, "text"));
      InputsJoined(st.toolInputs, i, DeltaField(event, "partial_json"),
                   DeltaField(first, "partial_json"), DeltaField(second, "partial_json"));
      var half := Object(AppendString(block, "text", DeltaField(first, "text")));
      var whole := Object(AppendString(block, "text", DeltaField(event, "text")));
      assert st.blocks[i := half][i := whole] == st.blocks[i := whole];
    }
  }

  lemma {:induction false} InputsJoined(inputs: map<nat, string>, i: nat, whole: Option<Value>,
                                        first: Option<Value>, second: Option<Value>)
    requires Joins(whole, first, second)
    ensures AppendInput(AppendInput(inputs, i, first), i, second) == AppendInput(inputs, i, whole)
  {
    var a, b := AsStr(first), AsStr(second);
    if a.Some? && b.Some? {
      var was := if i in inputs then inputs[i] else "";
      assert was + a.value + b.value == was + (a.value + b.value);
    }
  }

  lemma {:induction false} ChatSplit(st: Stream, event: Value, first: Value, second: Value)
    requires AlikeStream(st, st) && ChatEventCut(event, first, second)
    ensures AlikeStream(Step(Step(st, first), second), Step(st, event))
  {
    var d, d1, d2 :|
      IsChatDelta(event, d) && IsChatDelta(first, d1) && IsChatDelta(second, d2) && SplitDelta(d, d1, d2);
    ChatDeltaStep(st, event, d);
    ChatDeltaStep(st, first, d1);
    ChatDeltaStep(Step(st, first), second, d2);
    DeltaSplit(st, d, d1, d2);
  }

  lemma {:induction false} BlockDeltaStep(st: Stream, event: Value)
    requires IsBlockDelta(event)
    ensures Step(st, event) == ApplyBlockDelta(st, event)
  {
  }

  lemma {:induction false} BlockEventSplit(st: Stream, event: Value, first: Value, second: Value)
    requires BlockEventCut(event, first, second)
    ensures Step(Step(st, first), second) == Step(st, event)
  {
    BlockDeltaStep(st, event);
    BlockDeltaStep(st, first);
    BlockDeltaStep(Step(st, first), second);
    BlockSplit(st, event, first, second);
  }

  lemma {:induction false} TextSplit(st: Stream, event: Value, first: Value, second: Value)
    requires TextEventCut(event, first, second)
    ensures Step(Step(st, first), second) == Step(st, event)
  {
    var s, t :| IsTextDelta(event, s + t) && IsTextDelta(first, s) && IsTextDelta(second, t);
    TextSplitAt(st, event, first, second, s, t);
  }

  lemma {:induction false} TextSplitAt(st: Stream, event: Value, first: Value, second: Value, s: string, t: string)
    requires IsTextDelta(event, s + t) && IsTextDelta(first, s) && IsTextDelta(second, t)
    ensures Step(Step(st, first), second) == Step(st, event)
  {
    var half := Step(st, first);
    assert half == st.(text := st.text + s) by { TextStep(st, first, s); }
    assert Step(half, second) == st.(text := st.text + s + t) by { TextStep(half, second, t); }
    assert Step(st, event) == st.(text := st.text + (s + t)) by { TextStep(st, event, s + t); }
    assert st.text + s + t == st.text + (s + t);
  }

  lemma {:induction false} EventSplit(st: Stream, event: Value, first: Value, second: Value)
    requires AlikeStream(st, st) && SplitEvent(event, first, second)
    ensures AlikeStream(Step(Step(st, first), second), Step(st, event))
  {
    if ChatEventCut(event, first, second) {
      ChatSplit(st, event, first, second);
    } else if BlockEventCut(event, first, second) {
      BlockEventSplit(st, event, first, second);
      OtherStepAlike(st, st, event);
    } else {
      TextSplit(st, event, first, second);
      IsBare(event, first, second);
      OtherStepAlike(st, st, event);
    }
  }

  lemma {:induction false} IsBare(event: Value, first: Value, second: Value)
    requires TextEventCut(event, first, second)
    ensures Bare(event)
  {
  }

  lemma {:induction false} TextStep(st: Stream, event: Value, fragment: string)
    requires IsTextDelta(event, fragment)
    ensures Step(st, event) == st.(text := st.text + fragment)
  {
    assert ApplyText(Start, event).text == fragment;
  }

  lemma {:induction false} RunConcat(st: Stream, a: seq<Value>, b: seq<Value>)
    ensures Run(st, a + b) == Run(Run(st, a), b)
    decreases |a|
  {
    if a == [] {
      assert a + b == b;
    } else {
      RunConcat(Step(st, a[0]), a[1..], b);
      assert (a + b)[0] == a[0] && (a + b)[1..] == a[1..] + b;
    }
  }

  lemma {:induction false} RunCons(st: Stream, a: Value, rest: seq<Value>)
    ensures Run(st, [a] + rest) == Run(Step(st, a), rest)
    ensures Run(st, [a]) == Step(st, a)
  {
    assert ([a] + rest)[1..] == rest;
    assert [a][1..] == [];
  }

  lemma {:induction false} RunPair(st: Stream, a: Value, b: Value)
    ensures Run(st, [a, b]) == Step(Step(st, a), b)
  {
    RunCons(st, a, [b]);
    RunCons(Step(st, a), b, []);
    assert [a, b] == [a] + [b];
  }

  /** Cutting any fragment of any stream in two leaves the document unchanged. A parsed
      event has each key of an object once. */
  lemma {:induction false} SplitInvariant(before: seq<Value>, event: Value, first: Value, second: Value,
                                          after: seq<Value>, parse: string -> Option<Value>)
    requires SplitEvent(event, first, second)
    requires forall e | e in before + after :: WellFormed(e)
    ensures SameOutcome(DocumentOf(before + [first, second] + after, parse),
                        DocumentOf(before + [event] + after, parse))
  {
    var st := Run(Start, before);
    RunConcat(Start, before + [first, second], after);
    RunConcat(Start, before, [first, second]);
    RunConcat(Start, before + [event], after);
    RunConcat(Start, before, [event]);
    RunPair(st, first, second);
    RunCons(st, event, []);
    RunAlike(Start, Start, before);
    EventSplit(st, event, first, second);
    RunAlike(Step(Step(st, first), second), Step(st, event), after);
    FinishAlike(Run(Start, before + [first, second] + after), Run(Start, before + [event] + after), parse);
  }

  // --------------------------------------------------------------- interleaving

  /** Fragments of two different tools. */
  ghost predicate Apart(a: Value, b: Value)
  {
    CallIndex(a).None? || CallIndex(b).None? || CallIndex(a) != CallIndex(b)
  }

  lemma {:induction false} CallSwap(st: Stream, a: Value, b: Value)
    requires Apart(a, b)
    ensures ApplyCall(ApplyCall(st, a), b) == ApplyCall(ApplyCall(st, b), a)
  {
    if CallIndex(a).Some? && CallIndex(b).Some? {
      var i, j := CallIndex(a).value, CallIndex(b).value;
      var x := ApplyFragment(if i in st.chatTools then st.chatTools[i] else [], a).0;
      var y := ApplyFragment(if j in st.chatTools then st.chatTools[j] else [], b).0;
      assert st.chatTools[i := x][j := y] == st.chatTools[j := y][i := x];
    }
  }

  lemma {:induction false} CallPastCalls(st: Stream, a: Value, calls: seq<Value>)
    requires forall b | b in calls :: Apart(a, b)
    ensures ApplyCalls(ApplyCall(st, a), calls) == ApplyCall(ApplyCalls(st, calls), a)
    decreases |calls|
  {
    if calls != [] {
      CallSwap(st, a, calls[0]);
      CallPastCalls(ApplyCall(st, calls[0]), a, calls[1..]);
    }
  }

  lemma {:induction false} CallsSwap(st: Stream, a: seq<Value>, b: seq<Value>)
    requires forall x, y | x in a && y in b :: Apart(x, y)
    ensures ApplyCalls(ApplyCalls(st, a), b) == ApplyCalls(ApplyCalls(st, b), a)
    decreases |a|
  {
    if a != [] {
      CallsSwap(ApplyCall(st, a[0]), a[1..], b);
      CallPastCalls(st, a[0], b);
    }
  }

  /** A delta of tool fragments only. */
  ghost predicate ToolsOnly(delta: Value)
  {
    Get(delta, "role").None? && AsStr(Get(delta, "content")).None?
  }

  /** Neighbouring events that work on different tools or different blocks. */
  ghost predicate Independent(a: Value, b: Value)
  {
    || (exists d, e :: IsChatDelta(a, d) && IsChatDelta(b, e) && ToolsOnly(d) && ToolsOnly(e)
                       && forall x, y | x in CallsOf(d) && y in CallsOf(e) :: Apart(x, y))
    || (IsBlockDelta(a) && IsBlockDelta(b) && AsU64(Get(a, "index")) != AsU64(Get(b, "index")))
  }

  lemma {:induction false} BlockSwap(st: Stream, a: Value, b: Value)
    requires AsU64(Get(a, "index")) != AsU64(Get(b, "index"))
    ensures ApplyBlockDelta(ApplyBlockDelta(st, a), b) == ApplyBlockDelta(ApplyBlockDelta(st, b), a)
  {
    var x, y := AsU64(Get(a, "index")), AsU64(Get(b, "index"));
    if x.Some? && y.Some? && x.value in st.blocks && y.value in st.blocks
       && st.blocks[x.value].Object? && st.blocks[y.value].Object?
    {
      var i, j := x.value, y.value;
      var m := Object(AppendString(st.blocks[i].fields, "text", DeltaField(a, "text")));
      var n := Object(AppendString(st.blocks[j].fields, "text", DeltaField(b, "text")));
      assert st.blocks[i := m][j := n] == st.blocks[j := n][i := m];
      InputsSwap(st.toolInputs, i, j, DeltaField(a, "partial_json"), DeltaField(b, "partial_json"));
    }
  }

  lemma {:induction false} InputsSwap(inputs: map<nat, string>, i: nat, j: nat, a: Option<Value>, b: Option<Value>)
    requires i != j
    ensures AppendInput(AppendInput(inputs, i, a), j, b) == AppendInput(AppendInput(inputs, j, b), i, a)
  {
  }

  lemma {:induction false} EventSwap(st: Stream, a: Value, b: Value)
    requires Independent(a, b)
    ensures Step(Step(st, a), b) == Step(Step(st, b), a)
  {
    if IsBlockDelta(a) && IsBlockDelta(b) && AsU64(Get(a, "index")) != AsU64(Get(b, "index")) {
      BlockDeltaStep(st, a);
      BlockDeltaStep(st, b);
      BlockDeltaStep(Step(st, a), b);
      BlockDeltaStep(Step(st, b), a);
      BlockSwap(st, a, b);
    } else {
      var d, e :| IsChatDelta(a, d) && IsChatDelta(b, e) && ToolsOnly(d) && ToolsOnly(e)
                  && forall x, y | x in CallsOf(d) && y in CallsOf(e) :: Apart(x, y);
      ChatDeltaStep(st, a, d);
      ChatDeltaStep(st, b, e);
      ChatDeltaStep(Step(st, a), b, e);
      ChatDeltaStep(Step(st, b), a, d);
      CallsSwap(st, CallsOf(d), CallsOf(e));
    }
  }

  /** Interleaving fragments of different tools or blocks differently leaves the
      document unchanged. */
  lemma {:induction false} SwapInvariant(before: seq<Value>, a: Value, b: Value, after: seq<Value>,
                                         parse: string -> Option<Value>)
    requires Independent(a, b)
    ensures DocumentOf(before + [a, b] + after, parse) == DocumentOf(before + [b, a] + after, parse)
  {
    var st := Run(Start, before);
    RunConcat(Start, before + [a, b], after);
    RunConcat(Start, before, [a, b]);
    RunConcat(Start, before + [b, a], after);
    RunConcat(Start, before, [b, a]);
    RunPair(st, a, b);
    RunPair(st, b, a);
    EventSwap(st, a, b);
  }

  // ------------------------------------------------------------------ completed

  function LastCompleted(events: seq<Value>): Option<Value>
  {
    if events == [] then None
    else OrElse(LastCompleted(events[1..]), CompletedIn(events[0]))
  }

  lemma {:induction false} ChoicesKeepCompleted(st: Stream, choices: seq<Value>)
    ensures ApplyChoices(st, choices).completed == st.completed
    decreases |choices|
  {
    if choices != [] {
      var choice := choices[0];
      if Get(choice, "delta").Some? {
        CallsKeepCompleted(st, CallsOf(Get(choice, "delta").value));
        DeltaKeepsCompleted(st, Get(choice, "delta").value);
      }
      ChoicesKeepCompleted(ApplyChoice(st, choice), choices[1..]);
    }
  }

  lemma {:induction false} DeltaKeepsCompleted(st: Stream, delta: Value)
    ensures ApplyDelta(st, delta).completed == st.completed
  {
    var role := Get(delta, "role");
    var withRole := if role.Some? then Insert(st.chatMessage, "role", role.value) else st.chatMessage;
    CallsKeepCompleted(st.(chatMessage := AppendString(withRole, "content", Get(delta, "content"))), CallsOf(delta));
  }

  lemma {:induction false} CallsKeepCompleted(st: Stream, calls: seq<Value>)
    ensures ApplyCalls(st, calls).completed == st.completed
    decreases |calls|
  {
    if calls != [] { CallsKeepCompleted(ApplyCall(st, calls[0]), calls[1..]); }
  }

  lemma {:induction false} RunCompleted(st: Stream, events: seq<Value>)
    ensures Run(st, events).completed == OrElse(LastCompleted(events), st.completed)
    decreases |events|
  {
    if events != [] {
      RunCompleted(Step(st, events[0]), events[1..]);
      if AsArray(Get(events[0], "choices")).Some? {
        ChoicesKeepCompleted(st, AsArray(Get(events[0], "choices")).value);
      }
    }
  }
}
