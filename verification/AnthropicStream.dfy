/** The stateful translator to Anthropic events (internal/gateway/anthropic.go:498-720), writing
    through the gated writer. */
module AnthropicStream {
  import opened Chunks
  import opened Gate
  import opened Anthropic

  class AnthStreamTranslator {
    const w: GatedWriter
    const render: Event -> string
    var model: string
    var started: bool
    var openIdx: int
    var openKind: Kind
    var nextIdx: nat
    var toolMap: map<int, int>
    var sawTool: bool
    var usage: Option<Usage>
    var stop: string
    ghost var events: seq<Event>

    /** Everything emitted so far, and nothing else, was handed to the writer. */
    ghost predicate Valid()
      reads this`events, w
    {
      w.Valid() && w.offered == Rendered(render, events)
    }

    ghost function View(): State
      reads this
    {
      State(model, started, openIdx, openKind, nextIdx, toolMap, sawTool, usage, stop, events)
    }

    constructor (w: GatedWriter, render: Event -> string, model: string)
      requires w.Valid() && w.offered == ""
      ensures View() == Start(model)
      ensures Valid()
      ensures this.w == w && this.render == render
    {
      this.w, this.render, this.model := w, render, model;
      started, openIdx, openKind, nextIdx, toolMap := false, -1, NoKind, 0, map[];
      sawTool, usage, stop, events := false, None, "", [];
    }

    method EmitEvent(e: Event)
      requires Valid()
      modifies this`events, w
      ensures View() == Emit(old(View()), e)
      ensures Valid() && old(w.sent) <= w.sent
    {
      var n := w.Write(render(e));
      w.Flush();
      RenderedSnoc(render, events, e);
      events := events + [e];
    }

    method EnsureStarted()
      requires Valid()
      modifies this, w
      ensures View() == EnsureStart(old(View()))
      ensures Valid() && old(w.sent) <= w.sent
    {
      hide Emit;
      if started { return; }
      started := true;
      EmitEvent(MessageStart(model));
    }

    method Close()
      requires Valid()
      modifies this, w
      ensures View() == CloseBlock(old(View()))
      ensures Valid() && old(w.sent) <= w.sent
    {
      hide Emit;
      if openIdx < 0 { return; }
      var idx := openIdx;
      openIdx, openKind := -1, NoKind;
      EmitEvent(BlockStop(idx));
    }

    method StartText()
      requires Valid()
      modifies this, w
      ensures View() == OpenText(old(View()))
      ensures Valid()
    {
      hide Emit, CloseBlock, EnsureStart, Decimal, Rendered;
      EnsureStarted();
      if openKind == Text { return; }
      Close();
      openIdx, openKind, nextIdx := nextIdx, Text, nextIdx + 1;
      EmitEvent(BlockStart(openIdx, TextBlock));
    }

    method StartTool(id0: string, name: string) returns (idx: int)
      requires Valid()
      modifies this, w
      ensures View() == OpenTool(old(View()), id0, name)
      ensures idx == openIdx
      ensures Valid()
    {
      hide Emit, CloseBlock, EnsureStart, Decimal2;
      EnsureStarted();
      Close();
      var id := id0;
      if id == "" { id := "toolu_" + Decimal2(nextIdx); }
      openIdx, openKind, nextIdx := nextIdx, Tool, nextIdx + 1;
      sawTool := true;
      EmitEvent(BlockStart(openIdx, ToolUse(id, name)));
      idx := openIdx;
    }

    /** A fragment with an index that is mapped and neither id nor name is a continuation: the branch
        that would open its block again is never reached. */
    method Fragment(tc: ToolFragment)
      requires Valid()
      modifies this, w
      ensures View() == HandleTool(old(View()), tc)
      ensures Valid()
    {
      hide Emit, OpenTool;
      var idx, cont := 0, false;
      if tc.index.Some? {
        if tc.index.value in toolMap && tc.name == "" {
          idx, cont := toolMap[tc.index.value], true;
        }
      }
      if !cont {
        if tc.id != "" || tc.name != "" {
          idx := StartTool(tc.id, tc.name);
          if tc.index.Some? { toolMap := toolMap[tc.index.value := idx]; }
        } else if tc.index.Some? {
          if tc.index.value in toolMap {
            assert false;
          } else {
            idx := StartTool("", "");
            toolMap := toolMap[tc.index.value := idx];
          }
        } else {
          idx := StartTool("", "");
        }
      }
      if tc.args != "" {
        EmitEvent(JsonDelta(idx, tc.args));
      }
    }

    method OneChoice(ch: Choice)
      requires Valid()
      modifies this, w
      ensures View() == HandleChoice(old(View()), ch)
      ensures Valid()
    {
      hide Emit, OpenText, HandleTool;
      if ch.finish != "" { stop := StopReason(ch.finish); }
      ghost var s0 := View();
      if ch.content != "" {
        StartText();
        EmitEvent(TextDelta(openIdx, ch.content));
      }
      assert View() == HandleFragment(s0, Say(ch.content));
      Tools(ch.tools);
      ChoiceInOrder(s0, ch);
    }

    method Tools(tools: seq<ToolFragment>)
      requires Valid()
      modifies this, w
      ensures View() == HandleFragments(old(View()), ToolFragments(tools))
      ensures Valid()
    {
      hide Emit, HandleTool;
      ghost var fs := ToolFragments(tools);
      for i := 0 to |tools|
        invariant View() == HandleFragments(old(View()), fs[..i])
        invariant Valid()
      {
        Fragment(tools[i]);
        assert fs[..i + 1] == fs[..i] + [Call(tools[i])];
        HandleFragmentsSnoc(old(View()), fs[..i], Call(tools[i]));
      }
      assert fs[..|tools|] == fs;
    }

    /** Translates one upstream chunk. */
    method HandleChunk(chunk: Chunk)
      requires Valid()
      modifies this, w
      ensures View() == Handle(old(View()), chunk)
      ensures Valid()
    {
      hide HandleChoice;
      if chunk.model != "" { model := chunk.model; }
      if chunk.usage.Some? { usage := chunk.usage; }
      ghost var s0 := View();
      for i := 0 to |chunk.choices|
        invariant View() == HandleChoices(s0, chunk.choices[..i])
        invariant Valid()
      {
        OneChoice(chunk.choices[i]);
        assert chunk.choices[..i + 1][..i] == chunk.choices[..i];
      }
      assert chunk.choices[..|chunk.choices|] == chunk.choices;
    }

    method Done()
      requires Valid()
      modifies this, w
      ensures View() == Finish(old(View()))
      ensures Valid() && old(w.sent) <= w.sent
    {
      hide Emit, CloseBlock, EnsureStart, Decimal, Rendered;
      EnsureStarted();
      Close();
      var reason := stop;
      if reason == "" {
        if sawTool { reason := "tool_use"; } else { reason := "end_turn"; }
      }
      EmitEvent(MessageDelta(reason, FinalUsage(usage)));
      EmitEvent(MessageStop);
    }

    method Abort(message: string)
      requires Valid()
      modifies this, w
      ensures View() == Fail(old(View()), message)
      ensures Valid() && old(w.sent) <= w.sent
    {
      hide Emit;
      EmitEvent(ErrorEvent(message));
    }
  }
}
