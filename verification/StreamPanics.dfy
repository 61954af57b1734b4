/** When reassembling a streamed reply panics, told from its events alone
    (src/conversation.rs:598-631, 676-702). */
module StreamPanics {
  import opened Json
  import opened ReturnStream
  import opened StreamAlike
  import opened StreamChunking

  // ------------------------------------------------------------ what chat events do

  function ChoicesIn(event: Value): seq<Value>
  {
    var choices := AsArray(Get(event, "choices"));
    if CompletedIn(event).Some? || choices.None? then [] else Relevant(choices.value)
  }

  /** The choices of a stream that count, in order. */
  function ChatChoices(events: seq<Value>): seq<Value>
  {
    if events == [] then []
    else ChatChoices(events[..|events| - 1]) + ChoicesIn(events[|events| - 1])
  }

  predicate IsSnapshot(choice: Value)
  {
    Get(choice, "message").Some? && Get(choice, "message").value.Object?
  }

  predicate IsDelta(choice: Value)
  {
    !IsSnapshot(choice) && Get(choice, "delta").Some?
  }

  function DeltaCalls(choice: Value): seq<Value>
  {
    if IsDelta(choice) then CallsOf(Get(choice, "delta").value) else []
  }

  /** The tool calls of the latest whole message. */
  function LatestCalls(choices: seq<Value>): seq<Value>
  {
    if choices == [] then []
    else
      var last := choices[|choices| - 1];
      if IsSnapshot(last) then CallsOf(Get(last, "message").value) else LatestCalls(choices[..|choices| - 1])
  }

  /** A whole call whose `function` is there and is not an object. */
  predicate OddTool(calls: seq<Value>, i: nat)
  {
    i < |calls| && Get(calls[i], "function").Some? && !Get(calls[i], "function").value.Object?
  }

  predicate ReachesOdd(calls: seq<Value>, fragment: Value)
  {
    CallIndex(fragment).Some? && OddTool(calls, CallIndex(fragment).value)
  }

  /** A fragment of choice `k` reaches a tool that the latest whole message before it
      gave a `function` that is not an object. */
  predicate ReachesOddTool(choices: seq<Value>, k: nat)
  {
    k < |choices| && exists call :: call in DeltaCalls(choices[k]) && ReachesOdd(LatestCalls(choices[..k]), call)
  }

  predicate BreaksChat(choices: seq<Value>)
  {
    exists k :: 0 <= k < |choices| && ReachesOddTool(choices, k)
  }

  predicate Speaks(delta: Value)
  {
    || Get(delta, "role").Some? || AsStr(Get(delta, "content")).Some?
    || exists call :: call in CallsOf(delta) && CallIndex(call).Some?
  }

  /** Nothing was said since the latest whole message, and that one was empty. */
  predicate Silent(choices: seq<Value>)
  {
    if choices == [] then true
    else
      var last, before := choices[|choices| - 1], choices[..|choices| - 1];
      if IsSnapshot(last) then Get(last, "message").value.fields == []
      else Silent(before) && !(IsDelta(last) && Speaks(Get(last, "delta").value))
  }

  predicate OddFunction(tool: Fields)
  {
    Find(tool, "function").Some? && !Find(tool, "function").value.Object?
  }

  ghost predicate ToolsMatch(st: Stream, calls: seq<Value>)
  {
    forall i: nat :: (i in st.chatTools && OddFunction(st.chatTools[i])) <==> OddTool(calls, i)
  }

  predicate Quiet(st: Stream)
  {
    st.chatMessage == [] && st.chatTools == map[]
  }

  lemma {:induction false} CallTracks(st: Stream, call: Value, calls: seq<Value>)
    requires ToolsMatch(st, calls)
    ensures var r := ApplyCall(st, call);
            && ToolsMatch(r, calls)
            && (r.panicked <==> st.panicked || ReachesOdd(calls, call))
            && (Quiet(r) <==> Quiet(st) && CallIndex(call).None?)
  {
    var index := CallIndex(call);
    if index.Some? {
      var target := if index.value in st.chatTools then st.chatTools[index.value] else [];
      FragmentParts(target, call);
      OuterReads(target, call);
      var (fields, bad) := ApplyFragment(target, call);
      assert bad <==> OddFunction(target);
      assert bad <==> OddFunction(fields);
      assert OddFunction(target) <==> OddTool(calls, index.value);
      var r := ApplyCall(st, call);
      assert index.value in r.chatTools;
    }
  }

  lemma {:induction false} CallsTrack(st: Stream, list: seq<Value>, calls: seq<Value>)
    requires ToolsMatch(st, calls)
    ensures var r := ApplyCalls(st, list);
            && ToolsMatch(r, calls)
            && (r.panicked <==> st.panicked || exists call :: call in list && ReachesOdd(calls, call))
            && (Quiet(r) <==> Quiet(st) && forall call :: call in list ==> CallIndex(call).None?)
    decreases |list|
  {
    if list != [] {
      CallTracks(st, list[0], calls);
      CallsTrack(ApplyCall(st, list[0]), list[1..], calls);
      assert list == [list[0]] + list[1..];
    }
  }

  /** The chat accumulators of a state, told from the choices so far. */
  ghost predicate Tracks(st: Stream, choices: seq<Value>)
  {
    && ToolsMatch(st, LatestCalls(choices))
    && (st.panicked <==> BreaksChat(choices))
    && (Quiet(st) <==> Silent(choices))
  }

  lemma {:induction false} BreaksSnoc(choices: seq<Value>, choice: Value)
    ensures BreaksChat(choices + [choice]) <==>
      BreaksChat(choices) || exists call :: call in DeltaCalls(choice) && ReachesOdd(LatestCalls(choices), call)
  {
    var all := choices + [choice];
    forall k | 0 <= k < |choices| ensures ReachesOddTool(all, k) <==> ReachesOddTool(choices, k) {
      assert all[..k] == choices[..k] && all[k] == choices[k];
    }
    assert all[..|choices|] == choices && all[|choices|] == choice;
    assert ReachesOddTool(all, |choices|) <==>
      exists call :: call in DeltaCalls(choice) && ReachesOdd(LatestCalls(choices), call);
    if BreaksChat(choices) {
      var k :| 0 <= k < |choices| && ReachesOddTool(choices, k);
      assert ReachesOddTool(all, k);
    }
  }

  lemma {:induction false} DeltaTracks(st: Stream, choices: seq<Value>, delta: Value)
    requires Tracks(st, choices)
    ensures var r := ApplyDelta(st, delta);
            && ToolsMatch(r, LatestCalls(choices))
            && (r.panicked <==>
                  st.panicked || exists call :: call in CallsOf(delta) && ReachesOdd(LatestCalls(choices), call))
            && (Quiet(r) <==> Silent(choices) && !Speaks(delta))
  {
    var role := Get(delta, "role");
    var withRole := if role.Some? then Insert(st.chatMessage, "role", role.value) else st.chatMessage;
    var message := AppendString(withRole, "content", Get(delta, "content"));
    assert message == [] <==> st.chatMessage == [] && role.None? && AsStr(Get(delta, "content")).None?;
    CallsTrack(st.(chatMessage := message), CallsOf(delta), LatestCalls(choices));
  }

  lemma {:induction false} ChoiceTracks(st: Stream, choices: seq<Value>, choice: Value)
    requires Tracks(st, choices) && GetOr(AsU64(Get(choice, "index")), 0) == 0
    ensures Tracks(ApplyChoice(st, choice), choices + [choice])
  {
    var all := choices + [choice];
    assert all[..|all| - 1] == choices && all[|all| - 1] == choice;
    BreaksSnoc(choices, choice);
    if IsSnapshot(choice) {
      var message := Get(choice, "message").value;
      var calls := CallsOf(message);
      assert LatestCalls(all) == calls;
      forall i: nat
        ensures (i in ObjectCalls(calls) && OddFunction(ObjectCalls(calls)[i])) <==> OddTool(calls, i)
      {
      }
      assert message.fields == [] ==> calls == [];
    } else if IsDelta(choice) {
      DeltaTracks(st, choices, Get(choice, "delta").value);
    }
  }

  lemma {:induction false} ChoicesTrack(st: Stream, choices: seq<Value>, more: seq<Value>)
    requires Tracks(st, choices) && forall c | c in more :: GetOr(AsU64(Get(c, "index")), 0) == 0
    ensures Tracks(ApplyChoices(st, more), choices + more)
    decreases |more|
  {
    if more == [] {
      assert choices + more == choices;
    } else {
      ChoiceTracks(st, choices, more[0]);
      ChoicesTrack(ApplyChoice(st, more[0]), choices + [more[0]], more[1..]);
      assert choices + more == choices + [more[0]] + more[1..];
    }
  }

  // ----------------------------------------------------------- what block events do

  predicate StartsBlock(event: Value, i: nat)
  {
    && Bare(event) && GetStr(event, "type") == Some("content_block_start")
    && AsU64(Get(event, "index")) == Some(i) && Get(event, "content_block").Some?
  }

  /** The block most recently started at an index. */
  function BlockAt(events: seq<Value>, i: nat): Option<Value>
  {
    if events == [] then None
    else
      var last := events[|events| - 1];
      if StartsBlock(last, i) then Get(last, "content_block") else BlockAt(events[..|events| - 1], i)
  }

  /** The tool input collected at an index: fragments count that came while the block
      there was an object. */
  function Collected(events: seq<Value>, i: nat): Option<string>
  {
    if events == [] then None
    else
      var last, before := events[|events| - 1], events[..|events| - 1];
      var fragment := AsStr(DeltaField(last, "partial_json"));
      if IsBlockDelta(last) && AsU64(Get(last, "index")) == Some(i) && fragment.Some?
         && BlockAt(before, i).Some? && BlockAt(before, i).value.Object?
      then Some(GetOr(Collected(before, i), "") + fragment.value)
      else Collected(before, i)
  }

  /** The message of the latest `message_start`, which may have none. */
  function Started(events: seq<Value>): Option<Value>
  {
    if events == [] then None
    else
      var last := events[|events| - 1];
      if Bare(last) && GetStr(last, "type") == Some("message_start") then Get(last, "message")
      else Started(events[..|events| - 1])
  }

  predicate Assignable(v: Value)
  {
    v.Object? || v.Null?
  }

  /** The block accumulators of a state, told from the events so far. */
  ghost predicate Holds(st: Stream, events: seq<Value>)
  {
    && st.anthropic == Started(events)
    && (forall i: nat :: i in st.blocks <==> BlockAt(events, i).Some?)
    && (forall i: nat | i in st.blocks ::
          && (st.blocks[i].Object? <==> BlockAt(events, i).value.Object?)
          && (st.blocks[i].Null? <==> BlockAt(events, i).value.Null?))
    && (forall i: nat :: if i in st.toolInputs then Collected(events, i) == Some(st.toolInputs[i])
                         else Collected(events, i).None?)
  }

  predicate SameBlocks(a: Stream, b: Stream)
  {
    a.anthropic == b.anthropic && a.blocks == b.blocks && a.toolInputs == b.toolInputs
  }

  predicate SameChat(a: Stream, b: Stream)
  {
    a.chatMessage == b.chatMessage && a.chatTools == b.chatTools && a.panicked == b.panicked
  }

  lemma {:induction false} CallsKeepBlocks(st: Stream, calls: seq<Value>)
    ensures SameBlocks(ApplyCalls(st, calls), st)
    decreases |calls|
  {
    if calls != [] { CallsKeepBlocks(ApplyCall(st, calls[0]), calls[1..]); }
  }

  lemma {:induction false} DeltaKeepsBlocks(st: Stream, delta: Value)
    ensures SameBlocks(ApplyDelta(st, delta), st)
  {
    var role := Get(delta, "role");
    var withRole := if role.Some? then Insert(st.chatMessage, "role", role.value) else st.chatMessage;
    CallsKeepBlocks(st.(chatMessage := AppendString(withRole, "content", Get(delta, "content"))), CallsOf(delta));
  }

  lemma {:induction false} ChoicesKeepBlocks(st: Stream, choices: seq<Value>)
    ensures SameBlocks(ApplyChoices(st, choices), st)
    decreases |choices|
  {
    if choices != [] {
      if Get(choices[0], "delta").Some? { DeltaKeepsBlocks(st, Get(choices[0], "delta").value); }
      ChoicesKeepBlocks(ApplyChoice(st, choices[0]), choices[1..]);
    }
  }

  /** An event that is no chat event leaves the chat accumulators alone. */
  lemma {:induction false} OthersKeepChat(st: Stream, event: Value)
    requires CompletedIn(event).Some? || AsArray(Get(event, "choices")).None?
    ensures SameChat(Step(st, event), st)
  {
  }

  lemma {:induction false} BlockDeltaHolds(st: Stream, before: seq<Value>, event: Value)
    requires Holds(st, before) && IsBlockDelta(event)
    ensures Holds(ApplyBlockDelta(st, event), before + [event])
  {
    var all := before + [event];
    assert all[..|all| - 1] == before && all[|all| - 1] == event;
    var r := ApplyBlockDelta(st, event);
    forall i: nat ensures BlockAt(all, i) == BlockAt(before, i) {}
    forall i: nat
      ensures i in r.blocks <==> i in st.blocks
      ensures i in r.blocks ==>
        (r.blocks[i].Object? <==> st.blocks[i].Object?) && (r.blocks[i].Null? <==> st.blocks[i].Null?)
    {
    }
  }

  lemma {:induction false} StartHolds(st: Stream, before: seq<Value>, event: Value)
    requires Holds(st, before) && Bare(event) && GetStr(event, "type") == Some("content_block_start")
    ensures Holds(Step(st, event), before + [event])
  {
    var all := before + [event];
    assert all[..|all| - 1] == before && all[|all| - 1] == event;
    forall i: nat ensures Collected(all, i) == Collected(before, i) {}
    forall i: nat
      ensures BlockAt(all, i) == if StartsBlock(event, i) then Get(event, "content_block") else BlockAt(before, i)
    {
    }
  }

  /** The events that start nothing and fill no block. */
  predicate Passing(event: Value)
  {
    !Bare(event) || GetStr(event, "type").None?
    || GetStr(event, "type").value !in {"message_start", "content_block_start", "content_block_delta"}
  }

  lemma {:induction false} PassingHolds(st: Stream, before: seq<Value>, event: Value)
    requires Holds(st, before) && Passing(event)
    ensures Holds(Step(st, event), before + [event])
  {
    var all := before + [event];
    assert all[..|all| - 1] == before && all[|all| - 1] == event;
    forall i: nat ensures BlockAt(all, i) == BlockAt(before, i) && Collected(all, i) == Collected(before, i) {}
    if CompletedIn(event).None? && AsArray(Get(event, "choices")).Some? {
      ChoicesKeepBlocks(st, AsArray(Get(event, "choices")).value);
    }
    assert SameBlocks(Step(st, event), st);
  }

  lemma {:induction false} StepHolds(st: Stream, before: seq<Value>, event: Value)
    requires Holds(st, before)
    ensures Holds(Step(st, event), before + [event])
  {
    if Passing(event) {
      PassingHolds(st, before, event);
    } else if GetStr(event, "type") == Some("content_block_delta") {
      BlockDeltaStep(st, event);
      BlockDeltaHolds(st, before, event);
    } else if GetStr(event, "type") == Some("content_block_start") {
      StartHolds(st, before, event);
    } else {
      var all := before + [event];
      assert all[..|all| - 1] == before && all[|all| - 1] == event;
      forall i: nat ensures BlockAt(all, i) == BlockAt(before, i) && Collected(all, i) == Collected(before, i) {}
    }
  }

  lemma {:induction false} StepTracks(st: Stream, before: seq<Value>, event: Value)
    requires Tracks(st, ChatChoices(before))
    ensures Tracks(Step(st, event), ChatChoices(before + [event]))
  {
    var all := before + [event];
    assert all[..|all| - 1] == before && all[|all| - 1] == event;
    var choices := AsArray(Get(event, "choices"));
    if CompletedIn(event).None? && choices.Some? {
      OnlyRelevant(st, choices.value);
      RelevantIndex(choices.value);
      ChoicesTrack(st, ChatChoices(before), Relevant(choices.value));
    } else {
      OthersKeepChat(st, event);
      assert ChatChoices(before) + [] == ChatChoices(before);
    }
  }

  /** Every accumulator of a run is told by its events. */
  lemma {:induction false} RunTracks(events: seq<Value>)
    ensures Tracks(Run(Start, events), ChatChoices(events))
    ensures Holds(Run(Start, events), events)
    ensures Run(Start, events).completed == LastCompleted(events)
  {
    RunCompleted(Start, events);
    if events != [] {
      var n := |events| - 1;
      RunTracks(events[..n]);
      assert events == events[..n] + [events[n]];
      RunConcat(Start, events[..n], [events[n]]);
      RunCons(Run(Start, events[..n]), events[n], []);
      StepTracks(Run(Start, events[..n]), events[..n], events[n]);
      StepHolds(Run(Start, events[..n]), events[..n], events[n]);
    }
  }

  // -------------------------------------------------------------------- when it panics

  /** A block that is neither object nor null replaced one that had collected an input
      that parses. */
  ghost predicate BadInput(events: seq<Value>, parse: string -> Option<Value>)
  {
    exists i: nat ::
      && BlockAt(events, i).Some? && !Assignable(BlockAt(events, i).value)
      && Collected(events, i).Some? && parse(Collected(events, i).value).Some?
  }

  /** A started message that is neither object nor null, with a block to put into it. */
  ghost predicate BadMessage(events: seq<Value>)
  {
    && Started(events).Some? && !Assignable(Started(events).value)
    && exists i: nat :: BlockAt(events, i).Some?
  }

  lemma {:induction false} FinishPanics(events: seq<Value>, parse: string -> Option<Value>)
    requires LastCompleted(events).None? && !BreaksChat(ChatChoices(events)) && Silent(ChatChoices(events))
    ensures DocumentOf(events, parse) == Panic <==> BadInput(events, parse) || BadMessage(events)
  {
    RunTracks(events);
    var st := Run(Start, events);
    assert WithInputs(st.blocks, st.toolInputs, parse).None? <==> BadInput(events, parse) by {
      if BadInput(events, parse) {
        var i: nat :| BlockAt(events, i).Some? && !Assignable(BlockAt(events, i).value)
                      && Collected(events, i).Some? && parse(Collected(events, i).value).Some?;
        assert i in st.blocks && i in st.toolInputs;
      }
    }
    if BadMessage(events) {
      var i: nat :| BlockAt(events, i).Some?;
      assert i in st.blocks;
    }
    if st.blocks != map[] {
      var i :| i in st.blocks;
      assert BlockAt(events, i).Some?;
    }
  }

  /** Reassembly panics exactly when a fragment reaches a tool whose `function` is not
      an object, or when nothing better was found and a block's input or the blocks
      themselves have nowhere to go. */
  lemma {:induction false} PanicsExactly(events: seq<Value>, parse: string -> Option<Value>)
    ensures DocumentOf(events, parse) == Panic <==>
      || BreaksChat(ChatChoices(events))
      || (&& LastCompleted(events).None? && Silent(ChatChoices(events))
          && (BadInput(events, parse) || BadMessage(events)))
  {
    RunTracks(events);
    if !BreaksChat(ChatChoices(events)) && LastCompleted(events).None? && Silent(ChatChoices(events)) {
      FinishPanics(events, parse);
    }
  }

  /** If any event carries a whole document, the last such document is the answer,
      whatever deltas the stream also held; unless one of them reaches a tool whose
      latest `function` is not an object, and then there is no answer. */
  lemma {:induction false} CompletedWins(events: seq<Value>, parse: string -> Option<Value>)
    requires LastCompleted(events).Some?
    ensures DocumentOf(events, parse)
            == if BreaksChat(ChatChoices(events)) then Panic else Reply(LastCompleted(events))
  {
    RunTracks(events);
  }

  // ------------------------------------------------------------------------ instances

  function Chat(choice: Value): Value
  {
    Object([("choices", Array([choice]))])
  }

  lemma {:induction false} OneField(key: string, value: Value)
    ensures forall k :: Find([(key, value)], k) == if k == key then Some(value) else None
  {
    assert [(key, value)][1..] == [];
  }

  /** A whole message whose only tool has a text for a function, then a fragment of
      that tool: even a completed response does not save this stream. */
  lemma {:induction false} FunctionIsText(parse: string -> Option<Value>)
    ensures var call := Object([("function", String("x"))]);
            var whole := Object([("message", Object([("tool_calls", Array([call]))]))]);
            var fragment := Object([("index", Number(0))]);
            var delta := Object([("delta", Object([("tool_calls", Array([fragment]))]))]);
            var events := [Chat(whole), Chat(delta), Object([("output", Array([]))])];
            LastCompleted(events).Some? && DocumentOf(events, parse) == Panic
  {
    var call := Object([("function", String("x"))]);
    var message := Object([("tool_calls", Array([call]))]);
    var fragment := Object([("index", Number(0))]);
    var partial := Object([("tool_calls", Array([fragment]))]);
    var whole, delta := Object([("message", message)]), Object([("delta", partial)]);
    var last := Object([("output", Array([]))]);
    var events := [Chat(whole), Chat(delta), last];
    OneField("function", String("x"));
    OneField("tool_calls", Array([call]));
    OneField("index", Number(0));
    OneField("tool_calls", Array([fragment]));
    OneField("message", message);
    OneField("delta", partial);
    OneField("output", Array([]));
    ChatEvent(whole);
    ChatEvent(delta);
    ThreeChoices(events[0], events[1], last);
    var choices := ChatChoices(events);
    assert choices == [whole, delta];
    assert choices[..1] == [whole] && [whole][..0] == [];
    assert LatestCalls([whole]) == [call];
    assert fragment in DeltaCalls(delta) && ReachesOdd([call], fragment);
    assert ReachesOddTool(choices, 1);
    CompletedAt([events[0], events[1]], last);
    assert events == [events[0], events[1]] + [last];
    CompletedWins(events, parse);
  }

  lemma {:induction false} ChatEvent(choice: Value)
    requires Get(choice, "index").None?
    ensures CompletedIn(Chat(choice)).None? && ChoicesIn(Chat(choice)) == [choice]
  {
    OneField("choices", Array([choice]));
    assert Relevant([choice]) == [choice] + Relevant([]) by { assert [choice][1..] == []; }
  }

  lemma {:induction false} ThreeChoices(a: Value, b: Value, c: Value)
    ensures ChatChoices([a, b, c]) == ChoicesIn(a) + ChoicesIn(b) + ChoicesIn(c)
  {
    assert [a, b, c][..2] == [a, b] && [a, b][..1] == [a] && [a][..0] == [];
    assert ChatChoices([a]) == [] + ChoicesIn(a) == ChoicesIn(a);
    assert ChatChoices([a, b]) == ChoicesIn(a) + ChoicesIn(b);
  }

  lemma {:induction false} CompletedAt(before: seq<Value>, event: Value)
    requires CompletedIn(event).Some?
    ensures LastCompleted(before + [event]) == CompletedIn(event)
  {
    if before == [] {
      assert [event][1..] == [] && before + [event] == [event];
    } else {
      CompletedAt(before[1..], event);
      assert (before + [event])[1..] == before[1..] + [event];
    }
  }

  function BlockStart(i: nat, block: Value): Value
  {
    Object([("type", String("content_block_start")), ("index", Number(i)), ("content_block", block)])
  }

  function BlockInput(i: nat, fragment: string): Value
  {
    Object([("type", String("content_block_delta")), ("index", Number(i)),
            ("delta", Object([("partial_json", String(fragment))]))])
  }

  function FirstOf(field: Field, key: string, other: Option<Value>): Option<Value>
  {
    if key == field.0 then Some(field.1) else other
  }

  lemma {:induction false} ThreeFields(fields: Fields)
    requires |fields| == 3
    ensures forall k :: Find(fields, k) == FirstOf(fields[0], k, FirstOf(fields[1], k, FirstOf(fields[2], k, None)))
  {
    forall k
      ensures Find(fields[1..], k) == FirstOf(fields[1], k, FirstOf(fields[2], k, None))
    {
      assert fields[1..][1..] == [fields[2]] && [fields[2]][1..] == [];
      assert Find([fields[2]], k) == FirstOf(fields[2], k, None);
    }
  }

  lemma {:induction false} BlockStartReads(i: nat, block: Value)
    requires i < 0x1_0000_0000_0000_0000
    ensures var e := BlockStart(i, block);
            && Bare(e) && !IsBlockDelta(e) && StartsBlock(e, i) && Get(e, "content_block") == Some(block)
            && GetStr(e, "type") != Some("message_start")
  {
    ThreeFields(BlockStart(i, block).fields);
  }

  lemma {:induction false} BlockInputReads(i: nat, fragment: string)
    requires i < 0x1_0000_0000_0000_0000
    ensures var e := BlockInput(i, fragment);
            && IsBlockDelta(e) && AsU64(Get(e, "index")) == Some(i)
            && DeltaField(e, "partial_json") == Some(String(fragment))
            && forall j: nat :: !StartsBlock(e, j)
  {
    ThreeFields(BlockInput(i, fragment).fields);
    OneField("partial_json", String(fragment));
  }

  /** A tool block with its input, then a text started at the same index. */
  lemma {:induction false} InputHasNoBlock(parse: string -> Option<Value>)
    requires parse("1").Some?
    ensures DocumentOf([BlockStart(0, Object([])), BlockInput(0, "1"), BlockStart(0, String("x"))], parse) == Panic
  {
    var a, b, c := BlockStart(0, Object([])), BlockInput(0, "1"), BlockStart(0, String("x"));
    BlockStartReads(0, Object([]));
    BlockInputReads(0, "1");
    BlockStartReads(0, String("x"));
    Overwritten(a, b, c, "1", parse);
  }

  lemma {:induction false} Overwritten(a: Value, b: Value, c: Value, input: string, parse: string -> Option<Value>)
    requires StartsBlock(a, 0) && Get(a, "content_block").value.Object? && !IsBlockDelta(a)
    requires IsBlockDelta(b) && AsU64(Get(b, "index")) == Some(0) && !StartsBlock(b, 0)
    requires DeltaField(b, "partial_json") == Some(String(input)) && parse(input).Some?
    requires StartsBlock(c, 0) && !Assignable(Get(c, "content_block").value) && !IsBlockDelta(c)
    ensures DocumentOf([a, b, c], parse) == Panic
  {
    var events := [a, b, c];
    Unchatty(events);
    assert events[..2] == [a, b] && [a, b][..1] == [a] && [a][..0] == [];
    assert BlockAt([a], 0) == Get(a, "content_block");
    assert Collected([a], 0).None?;
    assert "" + input == input;
    assert Collected([a, b], 0) == Some(input);
    assert Collected(events, 0) == Some(input) && BlockAt(events, 0) == Get(c, "content_block");
    PanicsExactly(events, parse);
  }

  /** A message started as a text, and a block to put into it. */
  lemma {:induction false} MessageIsText(parse: string -> Option<Value>)
    ensures var start := Object([("type", String("message_start")), ("message", String("x"))]);
            DocumentOf([start, BlockStart(0, Object([]))], parse) == Panic
  {
    var start := Object([("type", String("message_start")), ("message", String("x"))]);
    assert start.fields[1..] == [start.fields[1]] && [start.fields[1]][1..] == [];
    var block := BlockStart(0, Object([]));
    BlockStartReads(0, Object([]));
    var events := [start, block];
    Unchatty(events);
    assert events[..1] == [start];
    assert Started([start]) == Some(String("x"));
    assert BlockAt(events, 0) == Some(Object([])) && Started(events) == Some(String("x"));
    PanicsExactly(events, parse);
  }

  lemma {:induction false} Unchatty(events: seq<Value>)
    requires forall e | e in events :: Bare(e)
    ensures ChatChoices(events) == [] && LastCompleted(events).None?
  {
    NoChoices(events);
    NoneCompleted(events);
  }

  lemma {:induction false} NoChoices(events: seq<Value>)
    requires forall e | e in events :: Bare(e)
    ensures ChatChoices(events) == []
  {
    if events != [] {
      NoChoices(events[..|events| - 1]);
      assert events[|events| - 1] in events;
    }
  }

  lemma {:induction false} NoneCompleted(events: seq<Value>)
    requires forall e | e in events :: Bare(e)
    ensures LastCompleted(events).None?
  {
    if events != [] {
      NoneCompleted(events[1..]);
      assert events[0] in events;
    }
  }
}
