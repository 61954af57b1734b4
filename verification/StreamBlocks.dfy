/** What the document of a stream of content blocks holds, told from the events alone
    (src/conversation.rs:633-663, 687-704). */
module StreamBlocks {
  import opened Json
  import opened ReturnStream
  import opened StreamAlike
  import opened StreamChunking
  import opened StreamPanics
  import opened StreamReply

  /** An event for the block at this index, neither a whole response nor a chat event. */
  predicate BlockEvent(event: Value, kind: string, i: nat)
  {
    && Whole(event).None? && !HasChoices(event) && TypeIs(event, kind)
    && i < 0x1_0000_0000_0000_0000 && Part(event, "index") == Some(Number(i))
  }

  predicate BlockStarts(event: Value, i: nat)
  {
    BlockEvent(event, "content_block_start", i) && Has(event, "content_block")
  }

  /** The block last started at an index. */
  function StartedBlock(events: seq<Value>, i: nat): Option<Value>
  {
    if events == [] then None
    else
      var last := events[|events| - 1];
      if BlockStarts(last, i) then Part(last, "content_block") else StartedBlock(events[..|events| - 1], i)
  }

  predicate ReachesBlock(before: seq<Value>, event: Value, i: nat)
  {
    && BlockEvent(event, "content_block_delta", i)
    && StartedBlock(before, i).Some? && StartedBlock(before, i).value.Object?
  }

  /** The text fragments it got since. */
  function BlockTexts(events: seq<Value>, i: nat): seq<Option<Value>>
  {
    if events == [] then []
    else
      var last, before := events[|events| - 1], events[..|events| - 1];
      if BlockStarts(last, i) then []
      else if ReachesBlock(before, last, i) then BlockTexts(before, i) + [Inside(last, "delta", "text")]
      else BlockTexts(before, i)
  }

  /** The input fragments that ever came for a block object at this index. */
  function InputPieces(events: seq<Value>, i: nat): seq<Option<Value>>
  {
    if events == [] then []
    else
      var last, before := events[|events| - 1], events[..|events| - 1];
      InputPieces(before, i) + if ReachesBlock(before, last, i) then [Inside(last, "delta", "partial_json")] else []
  }

  /** The tool input they make, if any is a string. */
  function InputText(events: seq<Value>, i: nat): Option<string>
  {
    if AnyString(InputPieces(events, i)) then Some(Concat(InputPieces(events, i))) else None
  }

  /** The message of the last `message_start`. */
  function StartedMessage(events: seq<Value>): Option<Value>
  {
    if events == [] then None
    else
      var last := events[|events| - 1];
      if Whole(last).None? && !HasChoices(last) && TypeIs(last, "message_start") then Part(last, "message")
      else StartedMessage(events[..|events| - 1])
  }

  /** A block with its text joined. */
  ghost predicate TextJoined(block: Value, started: Value, texts: seq<Option<Value>>)
  {
    if !started.Object? then block == started
    else
      block.Object? && forall key ::
        Find(block.fields, key)
        == if key == "text" then Joined(Find(started.fields, "text"), texts) else Find(started.fields, key)
  }

  ghost predicate BlocksAre(st: Stream, events: seq<Value>)
  {
    && st.anthropic == StartedMessage(events)
    && (forall i: nat :: i in st.blocks <==> StartedBlock(events, i).Some?)
    && (forall i | i in st.blocks :: TextJoined(st.blocks[i], StartedBlock(events, i).value, BlockTexts(events, i)))
    && forall i: nat :: (if i in st.toolInputs then Some(st.toolInputs[i]) else None) == InputText(events, i)
  }

  lemma {:induction false} InputOn(pieces: seq<Option<Value>>, piece: Option<Value>)
    ensures AnyString(pieces + [piece]) <==> AnyString(pieces) || AsStr(piece).Some?
    ensures AnyString(pieces + [piece]) ==>
      Concat(pieces + [piece]) == (if AnyString(pieces) then Concat(pieces) else "") + GetOr(AsStr(piece), "")
  {
    StringsOn(pieces, piece);
    var all := pieces + [piece];
    assert all[..|pieces|] == pieces && all[|pieces|] == piece;
    if !AnyString(pieces) { NoString(pieces); }
    assert Concat(pieces) + "" == Concat(pieces);
  }

  lemma {:induction false} EventsAre(event: Value, i: nat)
    ensures BlockStarts(event, i) <==> StartsBlock(event, i)
    ensures BlockEvent(event, "content_block_delta", i) <==>
      IsBlockDelta(event) && AsU64(Get(event, "index")) == Some(i)
    ensures Whole(event).None? && !HasChoices(event) <==> Bare(event)
  {
    WholeIsCompleted(event);
  }

  lemma {:induction false} DeltaTold(before: seq<Value>, event: Value, i: nat, j: nat)
    requires BlockEvent(event, "content_block_delta", i)
    ensures var all := before + [event];
            && StartedBlock(all, j) == StartedBlock(before, j) && StartedMessage(all) == StartedMessage(before)
            && (if j == i && ReachesBlock(before, event, i) then
                  && BlockTexts(all, j) == BlockTexts(before, j) + [Inside(event, "delta", "text")]
                  && InputPieces(all, j) == InputPieces(before, j) + [Inside(event, "delta", "partial_json")]
                else BlockTexts(all, j) == BlockTexts(before, j) && InputPieces(all, j) == InputPieces(before, j))
  {
    var all := before + [event];
    assert all[..|before|] == before && all[|before|] == event;
    assert InputPieces(before, j) + [] == InputPieces(before, j);
  }

  lemma {:induction false} TextOnBlock(block: Value, started: Value, texts: seq<Option<Value>>, text: Option<Value>)
    requires TextJoined(block, started, texts) && started.Object?
    ensures block.Object? && TextJoined(Object(AppendString(block.fields, "text", text)), started, texts + [text])
  {
    AppendReads(block.fields, "text", text);
    JoinedOn(Find(started.fields, "text"), texts, text);
  }

  /** What a block delta does to the accumulators. */
  lemma {:induction false} DeltaDoes(st: Stream, event: Value, i: nat)
    requires BlockEvent(event, "content_block_delta", i)
    ensures var r := ApplyBlockDelta(st, event);
            && r.anthropic == st.anthropic
            && if i in st.blocks && st.blocks[i].Object? then
                 && r.blocks == st.blocks[i := Object(AppendString(st.blocks[i].fields, "text",
                                                                   Inside(event, "delta", "text")))]
                 && r.toolInputs == AppendInput(st.toolInputs, i, Inside(event, "delta", "partial_json"))
               else r.blocks == st.blocks && r.toolInputs == st.toolInputs
  {
    InsideIsField(event, "text");
    InsideIsField(event, "partial_json");
  }

  lemma {:induction false} InputsTold(inputs: map<nat, string>, i: nat, pieces: seq<Option<Value>>,
                                      piece: Option<Value>)
    requires (if i in inputs then Some(inputs[i]) else None)
             == (if AnyString(pieces) then Some(Concat(pieces)) else None)
    ensures var r := AppendInput(inputs, i, piece); var all := pieces + [piece];
            (if i in r then Some(r[i]) else None) == (if AnyString(all) then Some(Concat(all)) else None)
  {
    InputOn(pieces, piece);
    assert Concat(pieces) + "" == Concat(pieces);
    if AsStr(piece).Some? { assert "" + piece.value.s == piece.value.s; }
  }

  /** An event that reaches the block. */
  lemma {:induction false} DeltaOnBlock(st: Stream, before: seq<Value>, event: Value, i: nat)
    requires BlocksAre(st, before) && BlockEvent(event, "content_block_delta", i)
    ensures BlocksAre(ApplyBlockDelta(st, event), before + [event])
  {
    var all, r := before + [event], ApplyBlockDelta(st, event);
    DeltaDoes(st, event, i);
    DeltaTold(before, event, i, i);
    assert i in st.blocks && st.blocks[i].Object? <==> ReachesBlock(before, event, i);
    forall j: nat ensures j in r.blocks <==> StartedBlock(all, j).Some? { DeltaTold(before, event, i, j); }
    forall j | j in r.blocks ensures TextJoined(r.blocks[j], StartedBlock(all, j).value, BlockTexts(all, j)) {
      DeltaTold(before, event, i, j);
      if j == i && ReachesBlock(before, event, i) {
        TextOnBlock(st.blocks[i], StartedBlock(before, i).value, BlockTexts(before, i), Inside(event, "delta", "text"));
      }
    }
    forall j: nat ensures (if j in r.toolInputs then Some(r.toolInputs[j]) else None) == InputText(all, j) {
      DeltaTold(before, event, i, j);
      assert (if j in st.toolInputs then Some(st.toolInputs[j]) else None) == InputText(before, j);
      InputsTold(st.toolInputs, i, InputPieces(before, i), Inside(event, "delta", "partial_json"));
    }
  }

  lemma {:induction false} StartOnBlock(st: Stream, before: seq<Value>, event: Value, i: nat)
    requires BlocksAre(st, before) && BlockStarts(event, i)
    ensures BlocksAre(Step(st, event), before + [event])
  {
    var all := before + [event];
    assert all[..|before|] == before && all[|before|] == event;
    EventsAre(event, i);
    forall j: nat ensures InputText(all, j) == InputText(before, j) {
      assert InputPieces(before, j) + [] == InputPieces(before, j);
    }
    var block := Part(event, "content_block").value;
    if block.Object? { JoinedOn(Find(block.fields, "text"), [], None); }
  }

  /** An event that has nothing to do with blocks. */
  lemma {:induction false} ToldUnchanged(before: seq<Value>, event: Value)
    requires forall i: nat :: !BlockStarts(event, i) && !BlockEvent(event, "content_block_delta", i)
    ensures forall i: nat ::
      && StartedBlock(before + [event], i) == StartedBlock(before, i)
      && BlockTexts(before + [event], i) == BlockTexts(before, i)
      && InputText(before + [event], i) == InputText(before, i)
  {
    var all := before + [event];
    assert all[..|before|] == before && all[|before|] == event;
    forall i: nat ensures InputPieces(all, i) == InputPieces(before, i) {
      assert InputPieces(before, i) + [] == InputPieces(before, i);
    }
  }

  lemma {:induction false} OtherOnBlocks(st: Stream, before: seq<Value>, event: Value)
    requires BlocksAre(st, before)
    requires forall i: nat :: !BlockStarts(event, i) && !BlockEvent(event, "content_block_delta", i)
    ensures BlocksAre(Step(st, event), before + [event])
  {
    ToldUnchanged(before, event);
    var all := before + [event];
    assert all[..|before|] == before && all[|before|] == event;
    WholeIsCompleted(event);
    OtherStepBlocks(st, event);
  }

  lemma {:induction false} OtherStepBlocks(st: Stream, event: Value)
    requires forall i: nat :: !BlockStarts(event, i) && !BlockEvent(event, "content_block_delta", i)
    ensures var r := Step(st, event);
            && r.blocks == st.blocks && r.toolInputs == st.toolInputs
            && r.anthropic == (if Whole(event).None? && !HasChoices(event) && TypeIs(event, "message_start")
                               then Part(event, "message") else st.anthropic)
  {
    WholeIsCompleted(event);
    if CompletedIn(event).None? && HasChoices(event) { ChoicesKeepBlocks(st, AsArray(Get(event, "choices")).value); }
    var index := AsU64(Get(event, "index"));
    if index.Some? {
      assert !BlockStarts(event, index.value) && !BlockEvent(event, "content_block_delta", index.value);
    }
  }

  lemma {:induction false} StepBlocks(st: Stream, before: seq<Value>, event: Value)
    requires BlocksAre(st, before)
    ensures BlocksAre(Step(st, event), before + [event])
  {
    if i: nat :| BlockStarts(event, i) {
      StartOnBlock(st, before, event, i);
    } else if i: nat :| BlockEvent(event, "content_block_delta", i) {
      EventsAre(event, i);
      DeltaOnBlock(st, before, event, i);
      BlockDeltaStep(st, event);
    } else {
      OtherOnBlocks(st, before, event);
    }
  }

  lemma {:induction false} RunBlocks(events: seq<Value>)
    ensures BlocksAre(Run(Start, events), events)
  {
    if events != [] {
      var n := |events| - 1;
      RunBlocks(events[..n]);
      assert events == events[..n] + [events[n]];
      RunConcat(Start, events[..n], [events[n]]);
      RunCons(Run(Start, events[..n]), events[n], []);
      StepBlocks(Run(Start, events[..n]), events[..n], events[n]);
    }
  }

  // ---------------------------------------------------------------- the document

  /** The block as it is delivered: its text joined, and its input parsed when it can be. */
  ghost predicate BlockIs(block: Value, events: seq<Value>, i: nat, parse: string -> Option<Value>)
  {
    var started, text := StartedBlock(events, i), InputText(events, i);
    && started.Some?
    && if text.Some? && parse(text.value).Some? then
         && (started.value.Object? || started.value.Null?) && block.Object?
         && forall key ::
              Find(block.fields, key)
              == if key == "input" then parse(text.value)
                 else if started.value.Null? then None
                 else if key == "text" then Joined(Find(started.value.fields, "text"), BlockTexts(events, i))
                 else Find(started.value.fields, key)
       else TextJoined(block, started.value, BlockTexts(events, i))
  }

  ghost predicate ContentIs(blocks: seq<Value>, events: seq<Value>, parse: string -> Option<Value>)
  {
    exists indices ::
      && Rising(indices) && |indices| == |blocks| && (forall i: nat :: i in indices <==> StartedBlock(events, i).Some?)
      && forall k | 0 <= k < |blocks| :: BlockIs(blocks[k], events, indices[k], parse)
  }

  /** The started message, or a plain assistant's. */
  function Opening(events: seq<Value>): Value
  {
    if StartedMessage(events).Some? then StartedMessage(events).value else Object([("role", String("assistant"))])
  }

  /** The message with the blocks for its content. */
  ghost predicate MessageWith(message: Value, opening: Value, blocks: seq<Value>)
  {
    message.Object? && forall key ::
      Find(message.fields, key)
      == if key == "content" then Some(Array(blocks)) else if opening.Object? then Find(opening.fields, key) else None
  }

  lemma {:induction false} AssignReads(v: Value, key: string, x: Value)
    requires Assign(v, key, x).Some?
    ensures var r := Assign(v, key, x).value;
            r.Object? && forall other ::
              Find(r.fields, other)
              == if other == key then Some(x) else if v.Object? then Find(v.fields, other) else None
  {
    if v.Object? {
      InsertReads(v.fields, key, x);
    } else {
      InsertReads([], key, x);
    }
  }

  lemma {:induction false} DeliveredBlock(st: Stream, events: seq<Value>, i: nat, parse: string -> Option<Value>)
    requires BlocksAre(st, events) && i in st.blocks && WithInputs(st.blocks, st.toolInputs, parse).Some?
    ensures i in WithInputs(st.blocks, st.toolInputs, parse).value
    ensures BlockIs(WithInputs(st.blocks, st.toolInputs, parse).value[i], events, i, parse)
  {
    var started := StartedBlock(events, i).value;
    assert TextJoined(st.blocks[i], started, BlockTexts(events, i));
    if i in st.toolInputs && parse(st.toolInputs[i]).Some? {
      AssignReads(st.blocks[i], "input", parse(st.toolInputs[i]).value);
    }
  }

  lemma {:induction false} ContentAre(st: Stream, events: seq<Value>, parse: string -> Option<Value>)
    requires BlocksAre(st, events) && WithInputs(st.blocks, st.toolInputs, parse).Some?
    ensures ContentIs(ByIndex(WithInputs(st.blocks, st.toolInputs, parse).value), events, parse)
  {
    var delivered := WithInputs(st.blocks, st.toolInputs, parse).value;
    assert forall i :: i in delivered <==> i in st.blocks;
    forall i | i in delivered ensures BlockIs(delivered[i], events, i, parse) {
      DeliveredBlock(st, events, i, parse);
    }
    ContentFrom(delivered, events, parse);
  }

  lemma {:induction false} ContentFrom(delivered: map<nat, Value>, events: seq<Value>, parse: string -> Option<Value>)
    requires forall i: nat :: i in delivered <==> StartedBlock(events, i).Some?
    requires forall i | i in delivered :: BlockIs(delivered[i], events, i, parse)
    ensures ContentIs(ByIndex(delivered), events, parse)
  {
    var indices := ByIndexRises(delivered);
    var blocks := ByIndex(delivered);
    forall k | 0 <= k < |blocks| ensures BlockIs(blocks[k], events, indices[k], parse) {
      assert blocks[k] == delivered[indices[k]];
    }
  }

  ghost predicate AnyBlock(events: seq<Value>)
  {
    exists i: nat :: StartedBlock(events, i).Some?
  }

  /** What is delivered when blocks came. */
  ghost predicate DeliveredAs(message: Value, events: seq<Value>, parse: string -> Option<Value>)
  {
    exists blocks :: MessageWith(message, Opening(events), blocks) && ContentIs(blocks, events, parse)
  }

  lemma {:induction false} DocumentInBlocks(st: Stream, opening: Value, parse: string -> Option<Value>)
    returns (blocks: seq<Value>, message: Value)
    requires !st.panicked && st.completed.None? && st.chatMessage == [] && st.chatTools == map[] && st.blocks != map[]
    requires opening == GetOr(st.anthropic, Object([("role", String("assistant"))])) && Finish(st, parse) != Panic
    ensures WithInputs(st.blocks, st.toolInputs, parse).Some?
    ensures blocks == ByIndex(WithInputs(st.blocks, st.toolInputs, parse).value)
    ensures Finish(st, parse) == Reply(Some(message)) && MessageWith(message, opening, blocks)
  {
    blocks := ByIndex(WithInputs(st.blocks, st.toolInputs, parse).value);
    message := Assign(opening, "content", Array(blocks)).value;
    AssignReads(opening, "content", Array(blocks));
  }

  /** A reply in blocks: the started message, with the blocks by rising index for its
      content, each with its text joined and its input parsed. Without a block it is the
      started message itself. */
  lemma {:induction false} BlockReply(events: seq<Value>, parse: string -> Option<Value>) returns (message: Value)
    requires NoWhole(events) && Silent(ChatChoices(events)) && DocumentOf(events, parse) != Panic
    requires StartedMessage(events).Some? || AnyBlock(events)
    ensures DocumentOf(events, parse) == Reply(Some(message))
    ensures if AnyBlock(events) then DeliveredAs(message, events, parse) else Some(message) == StartedMessage(events)
  {
    NoWholeNoCompleted(events);
    RunTracks(events);
    RunBlocks(events);
    var st := Run(Start, events);
    if st.blocks == map[] {
      assert forall i: nat :: i !in st.blocks;
      message := st.anthropic.value;
      assert WithInputs(st.blocks, st.toolInputs, parse).Some?;
    } else {
      var i :| i in st.blocks;
      assert StartedBlock(events, i).Some?;
      var blocks;
      blocks, message := DocumentInBlocks(st, Opening(events), parse);
      ContentAre(st, events, parse);
    }
  }
}
