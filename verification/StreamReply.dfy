/** What the document of a streamed reply holds when no whole response came, told from
    the events alone: a text, or a chat message with its tool calls
    (src/conversation.rs:557-731). */
module StreamReply {
  import opened Json
  import opened ReturnStream
  import opened StreamAlike
  import opened StreamChunking
  import opened StreamPanics

  // ----------------------------------------------------------------- what is read

  predicate Has(v: Value, key: string)
  {
    v.Object? && Find(v.fields, key).Some?
  }

  function Part(v: Value, key: string): Option<Value>
  {
    if v.Object? then Find(v.fields, key) else None
  }

  function Inside(v: Value, outer: string, key: string): Option<Value>
  {
    if Has(v, outer) then Part(Find(v.fields, outer).value, key) else None
  }

  /** The event is a whole response, or carries one. */
  function Whole(event: Value): Option<Value>
  {
    if Has(event, "response")
       && (Inside(event, "response", "output").Some? || Inside(event, "response", "choices").Some?)
    then Part(event, "response")
    else if Has(event, "output") || (Has(event, "role") && Has(event, "content")) then Some(event)
    else None
  }

  predicate HasChoices(event: Value)
  {
    Has(event, "choices") && Find(event.fields, "choices").value.Array?
  }

  predicate TypeIs(event: Value, kind: string)
  {
    Part(event, "type") == Some(String(kind))
  }

  /** The strings among these, one after the other. */
  function Concat(pieces: seq<Option<Value>>): string
  {
    if pieces == [] then ""
    else
      var last := pieces[|pieces| - 1];
      Concat(pieces[..|pieces| - 1]) + if last.Some? && last.value.String? then last.value.s else ""
  }

  predicate AnyString(pieces: seq<Option<Value>>)
  {
    exists i | 0 <= i < |pieces| :: pieces[i].Some? && pieces[i].value.String?
  }

  /** A field to which these pieces were joined. */
  function Joined(old_: Option<Value>, pieces: seq<Option<Value>>): Option<Value>
  {
    if AnyString(pieces) then
      Some(String((if old_.Some? && old_.value.String? then old_.value.s else "") + Concat(pieces)))
    else old_
  }

  /** The last of these that is there. */
  function LastGiven(old_: Option<Value>, values: seq<Option<Value>>): Option<Value>
  {
    if values == [] then old_
    else if values[|values| - 1].Some? then values[|values| - 1]
    else LastGiven(old_, values[..|values| - 1])
  }

  function Pick(values: seq<Value>, key: string): (r: seq<Option<Value>>)
    ensures |r| == |values|
  {
    seq(|values|, i requires 0 <= i < |values| => Part(values[i], key))
  }

  function PickInside(values: seq<Value>, outer: string, key: string): (r: seq<Option<Value>>)
    ensures |r| == |values|
  {
    seq(|values|, i requires 0 <= i < |values| => Inside(values[i], outer, key))
  }

  lemma {:induction false} WholeIsCompleted(event: Value)
    ensures Whole(event) == CompletedIn(event)
    ensures HasChoices(event) <==> AsArray(Get(event, "choices")).Some?
  {
  }

  lemma {:induction false} InsideIsField(call: Value, key: string)
    requires key != "0"
    ensures Inside(call, "function", key) == FunctionField(call, key)
    ensures Inside(call, "delta", key) == DeltaField(call, key)
  {
  }

  lemma {:induction false} JoinedOn(old_: Option<Value>, pieces: seq<Option<Value>>, piece: Option<Value>)
    ensures Joined(old_, pieces + [piece]) == Appended(Joined(old_, pieces), piece)
    ensures Joined(old_, []) == old_
  {
    var all, was := pieces + [piece], GetOr(AsStr(old_), "");
    assert all[..|pieces|] == pieces && all[|pieces|] == piece;
    StringsOn(pieces, piece);
    if !AnyString(pieces) { NoString(pieces); }
    if AsStr(piece).Some? { assert was + Concat(pieces) + piece.value.s == was + (Concat(pieces) + piece.value.s); }
    assert Concat(pieces) + "" == Concat(pieces) && was + "" == was;
  }

  lemma {:induction false} StringsOn(pieces: seq<Option<Value>>, piece: Option<Value>)
    ensures AnyString(pieces + [piece]) <==> AnyString(pieces) || AsStr(piece).Some?
  {
    var all := pieces + [piece];
    if AnyString(pieces) {
      var i :| 0 <= i < |pieces| && pieces[i].Some? && pieces[i].value.String?;
      assert all[i] == pieces[i];
    }
    if AsStr(piece).Some? { assert all[|pieces|] == piece; }
  }

  lemma {:induction false} NoString(pieces: seq<Option<Value>>)
    requires !AnyString(pieces)
    ensures Concat(pieces) == ""
  {
    if pieces != [] {
      var before := pieces[..|pieces| - 1];
      assert forall i | 0 <= i < |before| :: before[i] == pieces[i];
      NoString(before);
    }
  }

  lemma {:induction false} LastGivenOn(old_: Option<Value>, values: seq<Option<Value>>, value: Option<Value>)
    ensures LastGiven(old_, values + [value]) == OrElse(value, LastGiven(old_, values))
  {
    assert (values + [value])[..|values|] == values;
  }

  lemma {:induction false} PickOn(values: seq<Value>, value: Value, outer: string, key: string)
    ensures Pick(values + [value], key) == Pick(values, key) + [Part(value, key)]
    ensures PickInside(values + [value], outer, key) == PickInside(values, outer, key) + [Inside(value, outer, key)]
  {
  }

  // ------------------------------------------------------------------------ text

  /** The delta, or else its content, or else its text. */
  function Fragment(event: Value): string
  {
    match Part(event, "delta")
    case Some(String(s)) => s
    case _ =>
      match Inside(event, "delta", "content")
      case Some(String(s)) => s
      case _ =>
        match Inside(event, "delta", "text")
        case Some(String(s)) => s
        case _ => ""
  }

  /** What an event adds to the plain text. */
  function TextOf(event: Value): string
  {
    if Whole(event).Some? || HasChoices(event) || TypeIs(event, "message_start")
       || TypeIs(event, "content_block_start") || TypeIs(event, "content_block_delta")
    then "" else Fragment(event)
  }

  function TextHeard(events: seq<Value>): string
  {
    if events == [] then "" else TextHeard(events[..|events| - 1]) + TextOf(events[|events| - 1])
  }

  lemma {:induction false} CallsKeepText(st: Stream, calls: seq<Value>)
    ensures ApplyCalls(st, calls).text == st.text
    decreases |calls|
  {
    if calls != [] { CallsKeepText(ApplyCall(st, calls[0]), calls[1..]); }
  }

  lemma {:induction false} ChoicesKeepText(st: Stream, choices: seq<Value>)
    ensures ApplyChoices(st, choices).text == st.text
    decreases |choices|
  {
    if choices != [] {
      if Get(choices[0], "delta").Some? {
        DeltaParts(st, Get(choices[0], "delta").value);
        var delta := Get(choices[0], "delta").value;
        CallsKeepText(st.(chatMessage := MessageAfter(st.chatMessage, delta)), CallsOf(delta));
      }
      ChoicesKeepText(ApplyChoice(st, choices[0]), choices[1..]);
    }
  }

  lemma {:induction false} FragmentAdds(st: Stream, event: Value)
    ensures ApplyText(st, event).text == st.text + Fragment(event)
  {
    InsideIsField(event, "content");
    InsideIsField(event, "text");
  }

  lemma {:induction false} StepText(st: Stream, event: Value)
    ensures Step(st, event).text == st.text + TextOf(event)
  {
    WholeIsCompleted(event);
    FragmentAdds(st, event);
    if Whole(event).None? && HasChoices(event) { ChoicesKeepText(st, AsArray(Get(event, "choices")).value); }
  }

  lemma {:induction false} RunText(events: seq<Value>)
    ensures Run(Start, events).text == TextHeard(events)
  {
    if events != [] {
      var n := |events| - 1;
      RunText(events[..n]);
      assert events == events[..n] + [events[n]];
      RunConcat(Start, events[..n], [events[n]]);
      RunCons(Run(Start, events[..n]), events[n], []);
      StepText(Run(Start, events[..n]), events[n]);
    }
  }

  /** An assistant's message with one text. */
  predicate SaysText(document: Value, text: string)
  {
    document == Object([("output", Array([Object([
      ("type", String("message")), ("role", String("assistant")),
      ("content", Array([Object([("type", String("output_text")), ("text", String(text))])]))])]))])
  }

  predicate NoWhole(events: seq<Value>)
  {
    forall i | 0 <= i < |events| :: Whole(events[i]).None?
  }

  lemma {:induction false} NoWholeNoCompleted(events: seq<Value>)
    ensures NoWhole(events) <==> LastCompleted(events).None?
  {
    if events != [] {
      NoWholeNoCompleted(events[1..]);
      WholeIsCompleted(events[0]);
      assert forall i | 0 < i < |events| :: events[i] == events[1..][i - 1];
      if NoWhole(events[1..]) && Whole(events[0]).None? {
        assert forall i | 0 <= i < |events| :: i == 0 || events[i] == events[1..][i - 1];
      }
      if NoWhole(events) { assert forall i | 0 <= i < |events| - 1 :: events[1..][i] == events[i + 1]; }
    }
  }

  lemma {:induction false} LastWhole(events: seq<Value>, i: nat)
    requires i < |events| && Whole(events[i]).Some? && NoWhole(events[i + 1..])
    ensures LastCompleted(events) == Whole(events[i])
    decreases i
  {
    if i == 0 {
      NoWholeNoCompleted(events[1..]);
      WholeIsCompleted(events[0]);
    } else {
      assert events[1..][i - 1] == events[i] && events[1..][i..] == events[i + 1..];
      LastWhole(events[1..], i - 1);
    }
  }

  /** The last whole response is the reply, whatever else was heard. */
  lemma {:induction false} WholeReply(events: seq<Value>, parse: string -> Option<Value>, i: nat)
    requires i < |events| && Whole(events[i]).Some? && NoWhole(events[i + 1..])
    ensures DocumentOf(events, parse) == if BreaksChat(ChatChoices(events)) then Panic else Reply(Whole(events[i]))
  {
    LastWhole(events, i);
    CompletedWins(events, parse);
  }

  /** Neither a chat message nor blocks came: the reply is the text that was heard, and
      there is none without any. */
  lemma {:induction false} TextReply(events: seq<Value>, parse: string -> Option<Value>)
    requires NoWhole(events) && Silent(ChatChoices(events)) && !BreaksChat(ChatChoices(events))
    requires Started(events).None? && forall i: nat :: BlockAt(events, i).None?
    ensures var outcome := DocumentOf(events, parse);
            if TextHeard(events) == "" then outcome == Reply(None)
            else outcome.Reply? && outcome.document.Some? && SaysText(outcome.document.value, TextHeard(events))
  {
    NoWholeNoCompleted(events);
    RunTracks(events);
    RunText(events);
    var st := Run(Start, events);
    assert forall i: nat :: i !in st.blocks;
    assert st.blocks == map[];
  }

  // ------------------------------------------------------------------------ chat

  /** The fields of the latest whole message. */
  function Head(choices: seq<Value>): Fields
  {
    if choices == [] then []
    else
      var last := choices[|choices| - 1];
      if IsSnapshot(last) then Get(last, "message").value.fields else Head(choices[..|choices| - 1])
  }

  /** The deltas after it. */
  function Tail(choices: seq<Value>): seq<Value>
  {
    if choices == [] then []
    else
      var last, before := choices[|choices| - 1], choices[..|choices| - 1];
      if IsSnapshot(last) then []
      else if IsDelta(last) then Tail(before) + [Get(last, "delta").value]
      else Tail(before)
  }

  /** Their tool call fragments, in order. */
  function AllCalls(deltas: seq<Value>): seq<Value>
  {
    if deltas == [] then []
    else
      var calls := Part(deltas[|deltas| - 1], "tool_calls");
      AllCalls(deltas[..|deltas| - 1]) + if calls.Some? && calls.value.Array? then calls.value.items else []
  }

  predicate OfTool(call: Value, i: nat)
  {
    i < 0x1_0000_0000_0000_0000 && Part(call, "index") == Some(Number(i))
  }

  /** Those of one tool. */
  function Fragments(calls: seq<Value>, i: nat): seq<Value>
  {
    if calls == [] then []
    else
      var last := calls[|calls| - 1];
      Fragments(calls[..|calls| - 1], i) + if OfTool(last, i) then [last] else []
  }

  /** The tool at this position of the latest whole message. */
  function Given(head: Fields, i: nat): Option<Fields>
  {
    var calls := Find(head, "tool_calls");
    if calls.Some? && calls.value.Array? && i < |calls.value.items| && calls.value.items[i].Object?
    then Some(calls.value.items[i].fields) else None
  }

  predicate ToolThere(head: Fields, calls: seq<Value>, i: nat)
  {
    Given(head, i).Some? || Fragments(calls, i) != []
  }

  /** The tool's function: what was given, with the name and the arguments of the
      fragments joined to it. */
  ghost predicate FunctionIs(function_: Option<Value>, given: Option<Value>, fragments: seq<Value>)
  {
    if fragments == [] || (given.Some? && !given.value.Object?) then function_ == given
    else
      var fields := if given.Some? then given.value.fields else [];
      && function_.Some? && function_.value.Object?
      && forall key ::
           Find(function_.value.fields, key)
           == if key in {"name", "arguments"} then Joined(Find(fields, key), PickInside(fragments, "function", key))
              else Find(fields, key)
  }

  /** A field of a tool: the id joined, the last type, the rest as it was given. */
  function ToolField(given: Fields, fragments: seq<Value>, key: string): Option<Value>
  {
    if key == "id" then Joined(Find(given, "id"), Pick(fragments, "id"))
    else if key == "type" then LastGiven(Find(given, "type"), Pick(fragments, "type"))
    else Find(given, key)
  }

  /** A tool with its id joined, its last type, and its function. */
  ghost predicate ToolIs(tool: Fields, head: Fields, calls: seq<Value>, i: nat)
  {
    var given, fragments := GetOr(Given(head, i), []), Fragments(calls, i);
    && FunctionIs(Find(tool, "function"), Find(given, "function"), fragments)
    && forall key | key != "function" :: Find(tool, key) == ToolField(given, fragments, key)
  }

  ghost predicate ToolsAre(tools: map<nat, Fields>, head: Fields, calls: seq<Value>)
  {
    && (forall i: nat :: i in tools <==> ToolThere(head, calls, i))
    && forall i | i in tools :: ToolIs(tools[i], head, calls, i)
  }

  /** A field of the message: the role last given, the content joined, the rest as it
      was in the latest whole message. */
  function MessageField(head: Fields, deltas: seq<Value>, key: string): Option<Value>
  {
    if key == "role" then LastGiven(Find(head, "role"), Pick(deltas, "role"))
    else if key == "content" then Joined(Find(head, "content"), Pick(deltas, "content"))
    else Find(head, key)
  }

  ghost predicate ChatIs(st: Stream, choices: seq<Value>)
  {
    && (forall key :: Find(st.chatMessage, key) == MessageField(Head(choices), Tail(choices), key))
    && ToolsAre(st.chatTools, Head(choices), AllCalls(Tail(choices)))
  }

  lemma {:induction false} FragmentsOn(calls: seq<Value>, call: Value, i: nat)
    ensures Fragments(calls + [call], i) == Fragments(calls, i) + if OfTool(call, i) then [call] else []
    ensures OfTool(call, i) <==> CallIndex(call) == Some(i)
  {
    assert (calls + [call])[..|calls|] == calls;
  }

  lemma {:induction false} FunctionOn(function_: Option<Value>, given: Option<Value>, fragments: seq<Value>,
                                      call: Value)
    requires FunctionIs(function_, given, fragments)
    ensures FunctionIs(FunctionAfter(function_, call), given, fragments + [call])
  {
    if !(given.Some? && !given.value.Object?) {
      var fields := if given.Some? then given.value.fields else [];
      var was := GetOr(function_, Object([])).fields;
      InnerReads(was, call);
      forall key | key in {"name", "arguments"}
        ensures Joined(Find(fields, key), PickInside(fragments + [call], "function", key))
                == Appended(Joined(Find(fields, key), PickInside(fragments, "function", key)), FunctionField(call, key))
      {
        InsideIsField(call, key);
        PickOn(fragments, call, "function", key);
        JoinedOn(Find(fields, key), PickInside(fragments, "function", key), Inside(call, "function", key));
      }
      if fragments == [] {
        forall key | key in {"name", "arguments"}
          ensures Joined(Find(fields, key), PickInside(fragments, "function", key)) == Find(fields, key)
        {
          JoinedOn(Find(fields, key), [], None);
          assert PickInside(fragments, "function", key) == [];
        }
      }
    }
  }

  /** A fragment reaches its tool. */
  lemma {:induction false} ToolOn(tool: Fields, head: Fields, calls: seq<Value>, call: Value, i: nat)
    requires ToolIs(tool, head, calls, i) && CallIndex(call) == Some(i)
    ensures ToolIs(ApplyFragment(tool, call).0, head, calls + [call], i)
  {
    var given, fragments := GetOr(Given(head, i), []), Fragments(calls, i);
    FragmentsOn(calls, call, i);
    FragmentReads(tool, call);
    FunctionOn(Find(tool, "function"), Find(given, "function"), fragments, call);
    forall key | key != "function"
      ensures ToolField(given, fragments + [call], key) == FieldAfter(ToolField(given, fragments, key), key, call)
    {
      ToolFieldOn(given, fragments, call, key);
    }
  }

  lemma {:induction false} ToolFieldOn(given: Fields, fragments: seq<Value>, call: Value, key: string)
    requires key != "function"
    ensures ToolField(given, fragments + [call], key) == FieldAfter(ToolField(given, fragments, key), key, call)
  {
    PickOn(fragments, call, "", key);
    JoinedOn(Find(given, key), Pick(fragments, key), Part(call, key));
    LastGivenOn(Find(given, key), Pick(fragments, key), Part(call, key));
  }

  lemma {:induction false} NewTool(head: Fields, calls: seq<Value>, i: nat)
    requires !ToolThere(head, calls, i)
    ensures ToolIs([], head, calls, i)
  {
    JoinedOn(None, [], None);
    assert Pick(Fragments(calls, i), "id") == [] && Pick(Fragments(calls, i), "type") == [];
  }

  lemma {:induction false} OtherTool(tool: Fields, head: Fields, calls: seq<Value>, call: Value, i: nat)
    requires ToolIs(tool, head, calls, i) && CallIndex(call) != Some(i)
    ensures ToolIs(tool, head, calls + [call], i)
  {
    FragmentsOn(calls, call, i);
    assert Fragments(calls, i) + [] == Fragments(calls, i);
  }

  lemma {:induction false} CallOn(st: Stream, head: Fields, calls: seq<Value>, call: Value)
    requires ToolsAre(st.chatTools, head, calls)
    ensures ToolsAre(ApplyCall(st, call).chatTools, head, calls + [call])
  {
    var after := ApplyCall(st, call).chatTools;
    forall i: nat ensures i in after <==> ToolThere(head, calls + [call], i) { FragmentsOn(calls, call, i); }
    forall i | i in after ensures ToolIs(after[i], head, calls + [call], i) {
      if CallIndex(call) == Some(i) {
        if i !in st.chatTools { NewTool(head, calls, i); }
        ToolOn(if i in st.chatTools then st.chatTools[i] else [], head, calls, call, i);
      } else {
        OtherTool(after[i], head, calls, call, i);
      }
    }
  }

  lemma {:induction false} CallsOn(st: Stream, head: Fields, calls: seq<Value>, more: seq<Value>)
    requires ToolsAre(st.chatTools, head, calls)
    ensures ToolsAre(ApplyCalls(st, more).chatTools, head, calls + more)
    decreases |more|
  {
    if more == [] {
      assert calls + more == calls;
    } else {
      CallOn(st, head, calls, more[0]);
      CallsOn(ApplyCall(st, more[0]), head, calls + [more[0]], more[1..]);
      assert calls + more == calls + [more[0]] + more[1..];
    }
  }

  lemma {:induction false} DeltaOn(st: Stream, choices: seq<Value>, choice: Value)
    requires ChatIs(st, choices) && IsDelta(choice)
    ensures ChatIs(ApplyDelta(st, Get(choice, "delta").value), choices + [choice])
  {
    var delta, head, deltas := Get(choice, "delta").value, Head(choices), Tail(choices);
    var all := choices + [choice];
    assert all[..|choices|] == choices && all[|choices|] == choice;
    DeltaParts(st, delta);
    MessageReads(st.chatMessage, delta);
    var begun := st.(chatMessage := MessageAfter(st.chatMessage, delta));
    CallsFrame(begun, CallsOf(delta), begun.chatMessage);
    CallsOn(begun, head, AllCalls(deltas), CallsOf(delta));
    assert (deltas + [delta])[..|deltas|] == deltas;
    assert AllCalls(Tail(all)) == AllCalls(deltas) + CallsOf(delta);
    PickOn(deltas, delta, "", "role");
    PickOn(deltas, delta, "", "content");
    LastGivenOn(Find(head, "role"), Pick(deltas, "role"), Part(delta, "role"));
    JoinedOn(Find(head, "content"), Pick(deltas, "content"), Part(delta, "content"));
  }

  lemma {:induction false} SnapshotOn(st: Stream, choices: seq<Value>, choice: Value)
    requires IsSnapshot(choice)
    ensures ChatIs(ApplyMessage(st, Get(choice, "message").value), choices + [choice])
  {
    var message := Get(choice, "message").value;
    var all := choices + [choice];
    assert all[..|choices|] == choices && all[|choices|] == choice;
    var tools := ObjectCalls(CallsOf(message));
    forall key ensures Find(message.fields, key) == MessageField(message.fields, [], key) {
      JoinedOn(Find(message.fields, key), [], None);
      assert Pick([], key) == [];
    }
    forall i: nat ensures i in tools <==> ToolThere(message.fields, [], i) {}
    forall i | i in tools ensures ToolIs(tools[i], message.fields, [], i) {
      JoinedOn(Find(tools[i], "id"), [], None);
      assert Pick([], "id") == [] && Pick([], "type") == [];
    }
  }

  lemma {:induction false} ChoiceOn(st: Stream, choices: seq<Value>, choice: Value)
    requires ChatIs(st, choices) && GetOr(AsU64(Get(choice, "index")), 0) == 0
    ensures ChatIs(ApplyChoice(st, choice), choices + [choice])
  {
    var all := choices + [choice];
    assert all[..|choices|] == choices && all[|choices|] == choice;
    if IsSnapshot(choice) { SnapshotOn(st, choices, choice); }
    else if IsDelta(choice) { DeltaOn(st, choices, choice); }
  }

  lemma {:induction false} ChoicesOn(st: Stream, choices: seq<Value>, more: seq<Value>)
    requires ChatIs(st, choices) && forall c | c in more :: GetOr(AsU64(Get(c, "index")), 0) == 0
    ensures ChatIs(ApplyChoices(st, more), choices + more)
    decreases |more|
  {
    if more == [] {
      assert choices + more == choices;
    } else {
      ChoiceOn(st, choices, more[0]);
      ChoicesOn(ApplyChoice(st, more[0]), choices + [more[0]], more[1..]);
      assert choices + more == choices + [more[0]] + more[1..];
    }
  }

  lemma {:induction false} ChatStep(st: Stream, before: seq<Value>, event: Value)
    requires ChatIs(st, ChatChoices(before))
    ensures ChatIs(Step(st, event), ChatChoices(before + [event]))
  {
    var all := before + [event];
    assert all[..|all| - 1] == before && all[|all| - 1] == event;
    var choices := AsArray(Get(event, "choices"));
    if CompletedIn(event).None? && choices.Some? {
      OnlyRelevant(st, choices.value);
      RelevantIndex(choices.value);
      ChoicesOn(st, ChatChoices(before), Relevant(choices.value));
    } else {
      OthersKeepChat(st, event);
      assert ChatChoices(before) + [] == ChatChoices(before);
    }
  }

  lemma {:induction false} ChatStart()
    ensures ChatIs(Start, [])
  {
    forall key ensures MessageField([], [], key).None? {
      JoinedOn(None, [], None);
      assert Pick([], key) == [];
    }
  }

  lemma {:induction false} RunChat(events: seq<Value>)
    ensures ChatIs(Run(Start, events), ChatChoices(events))
  {
    if events == [] {
      ChatStart();
    } else {
      var n := |events| - 1;
      RunChat(events[..n]);
      assert events == events[..n] + [events[n]];
      RunConcat(Start, events[..n], [events[n]]);
      RunCons(Run(Start, events[..n]), events[n], []);
      ChatStep(Run(Start, events[..n]), events[..n], events[n]);
    }
  }

  // -------------------------------------------------------------- the chat document

  ghost predicate Rising(indices: seq<nat>)
  {
    forall k, l | 0 <= k < l < |indices| :: indices[k] < indices[l]
  }

  lemma {:induction false} LeastFirst<T>(m: map<nat, T>)
    requires m != map[]
    ensures var k := Least(m.Keys);
            && ByIndex(m) == [m[k]] + ByIndex(m - {k}) && (m - {k}).Keys == m.Keys - {k} && |m - {k}| < |m|
            && forall i | i in m - {k} :: k < i
  {
    var k := Least(m.Keys);
    assert (m - {k}).Keys == m.Keys - {k};
    assert |(m - {k}).Keys| == |m - {k}| && |m.Keys| == |m|;
  }

  ghost predicate ByRising<T>(m: map<nat, T>, values: seq<T>, indices: seq<nat>)
  {
    && Rising(indices) && |indices| == |values| && (forall i: nat :: i in indices <==> i in m)
    && forall k | 0 <= k < |indices| :: indices[k] in m && values[k] == m[indices[k]]
  }

  lemma {:induction false} RisesCons<T>(m: map<nat, T>, least: nat, values: seq<T>, rest: seq<nat>)
    requires least in m && (forall i | i in m - {least} :: least < i)
    requires ByRising(m - {least}, values, rest)
    ensures ByRising(m, [m[least]] + values, [least] + rest)
  {
    var indices, all := [least] + rest, [m[least]] + values;
    forall k, l | 0 <= k < l < |indices| ensures indices[k] < indices[l] {
      assert indices[l] == rest[l - 1] && rest[l - 1] in rest;
      if k > 0 { assert indices[k] == rest[k - 1]; }
    }
    forall k | 0 <= k < |indices| ensures indices[k] in m && all[k] == m[indices[k]] {
      if k > 0 { assert indices[k] == rest[k - 1]; }
    }
    forall i: nat ensures i in indices <==> i in m {
      assert i in indices <==> i == least || i in rest;
    }
  }

  /** The values of a map, by rising index. */
  lemma {:induction false} ByIndexRises<T>(m: map<nat, T>) returns (indices: seq<nat>)
    ensures ByRising(m, ByIndex(m), indices)
    decreases |m|
  {
    if m == map[] {
      indices := [];
    } else {
      LeastFirst(m);
      var least := Least(m.Keys);
      var rest := ByIndexRises(m - {least});
      indices := [least] + rest;
      RisesCons(m, least, ByIndex(m - {least}), rest);
    }
  }

  /** One call per tool, by rising index. */
  ghost predicate CallsAre(calls: seq<Value>, head: Fields, fragments: seq<Value>)
  {
    exists indices ::
      && Rising(indices) && |indices| == |calls| && (forall i: nat :: i in indices <==> ToolThere(head, fragments, i))
      && forall k | 0 <= k < |calls| :: calls[k].Object? && ToolIs(calls[k].fields, head, fragments, indices[k])
  }

  ghost predicate ChatMessageIs(message: Fields, choices: seq<Value>)
  {
    var head, deltas := Head(choices), Tail(choices);
    && Find(message, "role") == OrElse(MessageField(head, deltas, "role"), Some(String("assistant")))
    && (forall key | key !in {"role", "tool_calls"} :: Find(message, key) == MessageField(head, deltas, key))
    && CallsField(Find(message, "tool_calls"), head, AllCalls(deltas))
  }

  ghost predicate AnyTool(head: Fields, fragments: seq<Value>)
  {
    exists i: nat :: ToolThere(head, fragments, i)
  }

  /** The calls of the tools, or the field as it was when there is no tool. */
  ghost predicate CallsField(calls: Option<Value>, head: Fields, fragments: seq<Value>)
  {
    if AnyTool(head, fragments) then calls.Some? && calls.value.Array? && CallsAre(calls.value.items, head, fragments)
    else calls == Find(head, "tool_calls")
  }

  lemma {:induction false} ToolCallsAre(tools: map<nat, Fields>, head: Fields, fragments: seq<Value>)
    requires ToolsAre(tools, head, fragments)
    ensures ToolCalls(tools).Array? && CallsAre(ToolCalls(tools).items, head, fragments)
  {
    var indices := ByIndexRises(tools);
    var calls := ToolCalls(tools).items;
    forall k | 0 <= k < |calls| ensures calls[k].Object? && ToolIs(calls[k].fields, head, fragments, indices[k]) {
      assert calls[k] == Object(ByIndex(tools)[k]);
    }
  }

  lemma {:induction false} ChatMessageReads(st: Stream)
    ensures var message := ChatMessage(st);
            && Find(message, "role") == OrElse(Find(st.chatMessage, "role"), Some(String("assistant")))
            && Find(message, "tool_calls")
               == (if st.chatTools == map[] then Find(st.chatMessage, "tool_calls") else Some(ToolCalls(st.chatTools)))
            && forall key | key !in {"role", "tool_calls"} :: Find(message, key) == Find(st.chatMessage, key)
  {
    InsertReads(st.chatMessage, "role", String("assistant"));
    InsertReads(WithRole(st.chatMessage), "tool_calls", ToolCalls(st.chatTools));
  }

  lemma {:induction false} ToolsThere(tools: map<nat, Fields>, head: Fields, fragments: seq<Value>)
    requires ToolsAre(tools, head, fragments)
    ensures tools != map[] <==> AnyTool(head, fragments)
  {
    if tools == map[] {
      assert forall i: nat :: i !in tools;
    } else {
      var i :| i in tools;
      assert ToolThere(head, fragments, i);
    }
  }

  lemma {:induction false} CallsFieldIs(tools: map<nat, Fields>, head: Fields, fragments: seq<Value>)
    requires ToolsAre(tools, head, fragments)
    ensures CallsField(if tools == map[] then Find(head, "tool_calls") else Some(ToolCalls(tools)), head, fragments)
  {
    ToolsThere(tools, head, fragments);
    ToolCallsAre(tools, head, fragments);
  }

  lemma {:induction false} MessageFrom(message: Fields, chat: Fields, choices: seq<Value>)
    requires Find(message, "role") == OrElse(Find(chat, "role"), Some(String("assistant")))
    requires forall key | key !in {"role", "tool_calls"} :: Find(message, key) == Find(chat, key)
    requires forall key :: Find(chat, key) == MessageField(Head(choices), Tail(choices), key)
    requires CallsField(Find(message, "tool_calls"), Head(choices), AllCalls(Tail(choices)))
    ensures ChatMessageIs(message, choices)
  {
  }

  lemma {:induction false} MessageWithCalls(st: Stream, choices: seq<Value>, calls: Option<Value>)
    requires forall key :: Find(st.chatMessage, key) == MessageField(Head(choices), Tail(choices), key)
    requires calls == if st.chatTools == map[] then Find(st.chatMessage, "tool_calls")
                      else Some(ToolCalls(st.chatTools))
    requires CallsField(calls, Head(choices), AllCalls(Tail(choices)))
    ensures ChatMessageIs(ChatMessage(st), choices)
  {
    var message := ChatMessage(st);
    ChatMessageReads(st);
    assert Find(message, "tool_calls") == calls;
    MessageFrom(message, st.chatMessage, choices);
  }

  lemma {:induction false} MessageIs(st: Stream, choices: seq<Value>)
    requires forall key :: Find(st.chatMessage, key) == MessageField(Head(choices), Tail(choices), key)
    requires CallsField(if st.chatTools == map[] then Find(Head(choices), "tool_calls")
                        else Some(ToolCalls(st.chatTools)),
                        Head(choices), AllCalls(Tail(choices)))
    ensures ChatMessageIs(ChatMessage(st), choices)
  {
    assert Find(st.chatMessage, "tool_calls") == MessageField(Head(choices), Tail(choices), "tool_calls");
    if st.chatTools == map[] { MessageWithCalls(st, choices, Find(Head(choices), "tool_calls")); }
    else { MessageWithCalls(st, choices, Some(ToolCalls(st.chatTools))); }
  }

  function ChatMessage(st: Stream): Fields
  {
    var withRole := WithRole(st.chatMessage);
    if st.chatTools == map[] then withRole else Insert(withRole, "tool_calls", ToolCalls(st.chatTools))
  }

  /** A chat reply: one message with the last role, the joined content and one call per
      tool, by rising index, with joined id, name and arguments. */
  lemma {:induction false} ChatReply(events: seq<Value>, parse: string -> Option<Value>) returns (message: Fields)
    requires NoWhole(events) && !Silent(ChatChoices(events)) && !BreaksChat(ChatChoices(events))
    ensures DocumentOf(events, parse)
            == Reply(Some(Object([("choices", Array([Object([("message", Object(message))])]))])))
    ensures ChatMessageIs(message, ChatChoices(events))
  {
    NoWholeNoCompleted(events);
    RunTracks(events);
    RunChat(events);
    message := ChatMessage(Run(Start, events));
    CallsFieldIs(Run(Start, events).chatTools, Head(ChatChoices(events)), AllCalls(Tail(ChatChoices(events))));
    MessageIs(Run(Start, events), ChatChoices(events));
  }
}
