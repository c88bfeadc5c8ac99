/** The stateful translator itself and its read loop (internal/gateway/responses.go:404-727),
    writing through the gated writer. */
module ResponsesStream {
  import opened Chunks
  import opened Gate
  import opened Responses

  class RespStreamTranslator {
    const w: GatedWriter
    const canon: string -> string
    const render: Event -> string
    var head: Head
    var seqNo: int
    var started: bool
    var cur: Cursor
    var nextOut: nat
    var toolSeen: set<int>
    var output: seq<Item>
    ghost var events: seq<Event>

    /** Everything emitted so far, and nothing else, was handed to the writer. */
    ghost predicate Valid()
      reads this`events, w
    {
      w.Valid() && w.offered == Rendered(render, events)
    }

    ghost function View(): State
      reads this
    {
      State(head, seqNo, started, cur, nextOut, toolSeen, output, events)
    }

    constructor (w: GatedWriter, canon: string -> string, render: Event -> string, model: string)
      requires w.Valid() && w.offered == ""
      ensures View() == Start(model)
      ensures Valid()
      ensures this.w == w && this.canon == canon && this.render == render
    {
      this.w, this.canon, this.render := w, canon, render;
      head, seqNo, started, cur, nextOut, toolSeen := Head(model, None, false), 0, false, NO_ITEM, 0, {};
      output, events := [], [];
    }

    method EmitEvent(body: Body)
      requires Valid()
      modifies this`seqNo, this`events, w
      ensures View() == Emit(old(View()), body)
      ensures Valid() && old(w.sent) <= w.sent
    {
      hide Rendered;
      var e := Event(seqNo, body);
      seqNo := seqNo + 1;
      var n := w.Write(render(e));
      w.Flush();
      RenderedSnoc(render, events, e);
      events := events + [e];
    }

    method EnsureStarted()
      requires Valid()
      modifies this, w
      ensures View() == EnsureStart(old(View()))
      ensures Valid() && old(w.sent) <= w.sent
    {
      hide Emit, Skeleton;
      if started { return; }
      started := true;
      EmitEvent(Created(Skeleton(head, output, InProgress, None)));
    }

    method Close()
      requires Valid()
      modifies this, w
      ensures View() == CloseItem(canon, old(View()))
      ensures Valid() && old(w.sent) <= w.sent
    {
      hide Emit;
      if cur.idx < 0 { return; }
      var c := cur;
      cur := cur.(idx := -1, kind := NoKind);
      var item: Item;
      match c.kind {
        case Reasoning =>
          EmitEvent(ReasoningDone(c.msgId, c.idx, c.rsBuf));
          item := ReasoningItem(c.msgId, c.rsBuf);
        case Message =>
          EmitEvent(TextDone(c.msgId, c.idx, c.textBuf));
          EmitEvent(PartDone(c.msgId, c.idx, c.textBuf));
          item := MessageItem(c.msgId, c.textBuf);
        case _ =>
          var args := canon(c.argsBuf);
          EmitEvent(ArgsDone(c.fcId, c.idx, args));
          item := FunctionItem(c.fcId, c.fcName, c.callId, args);
      }
      output := output + [item];
      EmitEvent(ItemDone(c.idx, item));
    }

    method StartReasoning()
      requires Valid()
      modifies this, w
      ensures View() == OpenReasoning(canon, old(View()))
      ensures Valid()
    {
      hide Emit, CloseItem, EnsureStart, Decimal, Rendered;
      EnsureStarted();
      if cur.kind == Reasoning { return; }
      Close();
      cur := cur.(idx := nextOut, kind := Reasoning, msgId := "rs_" + Decimal(nextOut), rsBuf := "");
      nextOut := nextOut + 1;
      EmitEvent(ItemAdded(cur.idx, ReasoningItem(cur.msgId, "")));
    }

    method StartMessage()
      requires Valid()
      modifies this, w
      ensures View() == OpenMessage(canon, old(View()))
      ensures Valid()
    {
      hide Emit, CloseItem, EnsureStart, Decimal, Rendered;
      EnsureStarted();
      if cur.kind == Message { return; }
      Close();
      var idx, id := nextOut, "msg_" + Decimal(nextOut);
      cur := cur.(idx := idx, kind := Message, msgId := id, textBuf := "");
      nextOut := nextOut + 1;
      EmitEvent(ItemAdded(idx, MessageItem(id, "")));
      EmitEvent(PartAdded(id, idx));
    }

    method StartFunctionCall(id0: string, name: string)
      requires Valid()
      modifies this, w
      ensures View() == OpenFunctionCall(canon, old(View()), id0, name)
      ensures Valid()
    {
      hide Emit, CloseItem, EnsureStart, Decimal, Rendered;
      EnsureStarted();
      Close();
      var id := if id0 == "" then "call_" + Decimal(nextOut) else id0;
      cur := cur.(idx := nextOut, kind := FunctionCall, fcId := "fc_" + Decimal(nextOut), callId := id, fcName := name,
                  argsBuf := "");
      nextOut := nextOut + 1;
      EmitEvent(ItemAdded(cur.idx, FunctionItem(cur.fcId, name, id, "")));
    }

    method Tool(tc: ToolFragment)
      requires Valid()
      modifies this, w
      ensures View() == HandleTool(canon, old(View()), tc)
      ensures Valid()
    {
      hide Emit, OpenFunctionCall;
      var cont := tc.index.Some? && tc.name == "" && tc.index.value in toolSeen && cur.kind == FunctionCall;
      if !cont && (tc.id != "" || tc.name != "" || cur.kind != FunctionCall) {
        StartFunctionCall(tc.id, tc.name);
        if tc.index.Some? {
          toolSeen := toolSeen + {tc.index.value};
        }
      }
      if tc.args != "" {
        cur := cur.(argsBuf := cur.argsBuf + tc.args);
        EmitEvent(ArgsDelta(cur.fcId, cur.idx, tc.args));
      }
    }

    method OneChoice(ch: Choice)
      requires Valid()
      modifies this, w
      ensures View() == HandleChoice(canon, old(View()), ch)
      ensures Valid()
    {
      hide Emit, OpenReasoning, OpenMessage, HandleTool;
      if ch.finish == "length" { head := head.(incomplete := true); }
      ghost var s0 := View();
      if ch.reasoning != "" {
        StartReasoning();
        cur := cur.(rsBuf := cur.rsBuf + ch.reasoning);
        EmitEvent(ReasoningDelta(cur.msgId, cur.idx, ch.reasoning));
      }
      ghost var s1 := View();
      if ch.content != "" {
        StartMessage();
        cur := cur.(textBuf := cur.textBuf + ch.content);
        EmitEvent(TextDelta(cur.msgId, cur.idx, ch.content));
      }
      assert View() == HandleFragment(canon, HandleFragment(canon, s0, Think(ch.reasoning)), Say(ch.content));
      Tools(ch.tools);
      ChoiceInOrder(canon, s0, ch);
    }

    method Tools(tools: seq<ToolFragment>)
      requires Valid()
      modifies this, w
      ensures View() == HandleFragments(canon, old(View()), ToolFragments(tools))
      ensures Valid()
    {
      hide Emit, HandleTool;
      ghost var fs := ToolFragments(tools);
      for i := 0 to |tools|
        invariant View() == HandleFragments(canon, old(View()), fs[..i])
        invariant Valid()
      {
        Tool(tools[i]);
        assert fs[..i + 1] == fs[..i] + [Call(tools[i])];
        HandleFragmentsSnoc(canon, old(View()), fs[..i], Call(tools[i]));
      }
      assert fs[..|tools|] == fs;
    }

    /** Translates one upstream chunk. */
    method HandleChunk(chunk: Chunk)
      requires Valid()
      modifies this, w
      ensures View() == Handle(canon, old(View()), chunk)
      ensures Valid()
    {
      hide HandleChoice;
      if chunk.model != "" { head := head.(model := chunk.model); }
      if chunk.usage.Some? { head := head.(usage := chunk.usage); }
      ghost var s0 := View();
      for i := 0 to |chunk.choices|
        invariant View() == HandleChoices(canon, s0, chunk.choices[..i])
        invariant Valid()
      {
        OneChoice(chunk.choices[i]);
        assert chunk.choices[..i + 1][..i] == chunk.choices[..i];
      }
      assert chunk.choices[..|chunk.choices|] == chunk.choices;
    }

    method Done()
      requires Valid()
      modifies this, w
      ensures View() == Finish(canon, old(View()))
      ensures Valid() && old(w.sent) <= w.sent
    {
      hide Emit, CloseItem, EnsureStart, Decimal, Rendered;
      EnsureStarted();
      Close();
      EmitEvent(ResponseCompleted(Skeleton(head, output, Completed, None)));
    }

    method Abort(message: string)
      requires Valid()
      modifies this, w
      ensures View() == Fail(old(View()), message)
      ensures Valid() && old(w.sent) <= w.sent
    {
      hide Emit;
      EmitEvent(ResponseFailed(Skeleton(head, output, Failed, Some(message))));
    }
  }
}
