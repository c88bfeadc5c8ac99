/** The event language of an Anthropic stream, read the way a client reads it, and what the
    translator's streams mean in it. */
module AnthropicGrammar {
  import opened Chunks
  import opened Anthropic

  /** What a client has after some events: the blocks received so far, by index; only the last can
      be open. */
  datatype Phase =
    | Fresh
    | Reading(blocks: seq<Content>, open: bool)
    | Stopping(blocks: seq<Content>, stopReason: string, usage: StreamUsage)
    | Over(blocks: seq<Content>, stopReason: string, usage: StreamUsage)
    | Aborted
    | Bad

  function EmptyBlock(b: Block): Content {
    match b
    case TextBlock => TextContent("")
    case ToolUse(id, name) => ToolContent(id, name, "")
  }

  function Grown(c: Content, more: string): Content {
    match c
    case TextContent(t) => TextContent(t + more)
    case ToolContent(id, name, json) => ToolContent(id, name, json + more)
  }

  function Grow(blocks: seq<Content>, i: nat, more: string): seq<Content>
    requires i < |blocks|
  {
    blocks[i := Grown(blocks[i], more)]
  }

  /** One event. A strict reader insists that argument pieces name the open block; a lenient one
      takes them for any tool block already started. */
  function Next(strict: bool, p: Phase, e: Event): Phase {
    match e
    case MessageStart(_) => if p.Fresh? then Reading([], false) else Bad
    case BlockStart(i, b) =>
      if p.Reading? && !p.open && i == |p.blocks| then Reading(p.blocks + [EmptyBlock(b)], true) else Bad
    case TextDelta(i, text) =>
      if p.Reading? && p.open && 0 <= i == |p.blocks| - 1 && p.blocks[i].TextContent? && text != ""
      then Reading(Grow(p.blocks, i, text), true) else Bad
    case JsonDelta(i, json) =>
      if p.Reading? && 0 <= i < |p.blocks| && p.blocks[i].ToolContent? && json != ""
         && (strict ==> p.open && i == |p.blocks| - 1)
      then Reading(Grow(p.blocks, i, json), p.open) else Bad
    case BlockStop(i) =>
      if p.Reading? && p.open && i == |p.blocks| - 1 then Reading(p.blocks, false) else Bad
    case MessageDelta(stop, usage) =>
      if p.Reading? && !p.open && stop != "" then Stopping(p.blocks, stop, usage) else Bad
    case MessageStop => if p.Stopping? then Over(p.blocks, p.stopReason, p.usage) else Bad
    case ErrorEvent(_) => if p.Fresh? || p.Reading? then Aborted else Bad
  }

  function Run(strict: bool, events: seq<Event>): Phase {
    if events == [] then Fresh
    else Next(strict, Run(strict, events[..|events| - 1]), events[|events| - 1])
  }

  // ---- What a stream says, fragment by fragment ----

  /** The blocks spelt so far, and the block each tool index was last opened as. */
  datatype Page = Page(blocks: seq<Content>, latest: map<int, int>)

  const BLANK := Page([], map[])

  function Write(p: Page, f: Fragment): Page {
    match f
    case Think(_) => p
    case Say(text) =>
      if text == "" then p
      else if p.blocks != [] && p.blocks[|p.blocks| - 1].TextContent?
      then p.(blocks := Grow(p.blocks, |p.blocks| - 1, text))
      else p.(blocks := p.blocks + [TextContent(text)])
    case Call(t) =>
      if Continues(p.latest.Keys, t) then
        var k := p.latest[t.index.value];
        if 0 <= k < |p.blocks| then p.(blocks := Grow(p.blocks, k, t.args)) else p
      else
        Page(p.blocks + [ToolContent(ToolId(t.id, |p.blocks|), t.name, t.args)],
             if t.index.Some? then p.latest[t.index.value := |p.blocks|] else p.latest)
  }

  function WriteAll(p: Page, fs: seq<Fragment>): Page {
    if fs == [] then p else Write(WriteAll(p, fs[..|fs| - 1]), fs[|fs| - 1])
  }

  /** The fragment adds arguments to a block that is no longer the open one. */
  predicate Stray(p: Page, f: Fragment) {
    f.Call? && f.tool.args != "" && Continues(p.latest.Keys, f.tool) && p.latest[f.tool.index.value] != |p.blocks| - 1
  }

  /** No fragment of the stream is stray. */
  predicate Tidy(p: Page, fs: seq<Fragment>) {
    fs == [] || (Tidy(p, fs[..|fs| - 1]) && !Stray(WriteAll(p, fs[..|fs| - 1]), fs[|fs| - 1]))
  }

  lemma WriteAllConcat(p: Page, fs: seq<Fragment>, gs: seq<Fragment>)
    ensures WriteAll(p, fs + gs) == WriteAll(WriteAll(p, fs), gs)
    ensures Tidy(p, fs + gs) <==> Tidy(p, fs) && Tidy(WriteAll(p, fs), gs)
  {
    if gs == [] {
      assert fs + gs == fs;
    } else {
      WriteAllConcat(p, fs, gs[..|gs| - 1]);
      assert (fs + gs)[..|fs + gs| - 1] == fs + gs[..|gs| - 1];
    }
  }

  // ---- The translator keeps its client on this page ----

  predicate MapsToTools(p: Page) {
    forall i :: i in p.latest ==> 0 <= p.latest[i] < |p.blocks| && p.blocks[p.latest[i]].ToolContent?
  }

  function KindOf(c: Content): Kind {
    if c.TextContent? then Text else Tool
  }

  /** The translator's bookkeeping matches the page: block |blocks|-1 is open, if there is one. */
  ghost predicate Mirrors(s: State, p: Page) {
    && s.nextIdx == |p.blocks| && s.openIdx == |p.blocks| - 1
    && s.openKind == (if p.blocks == [] then NoKind else KindOf(p.blocks[|p.blocks| - 1]))
    && s.toolMap == p.latest && MapsToTools(p)
    && (s.sawTool <==> exists i :: 0 <= i < |p.blocks| && p.blocks[i].ToolContent?)
    && (!s.started ==> s.events == [] && p.blocks == [])
    && (s.started ==> p.blocks != [])
  }

  ghost predicate OnTrack(strict: bool, s: State, p: Page) {
    && Mirrors(s, p)
    && Run(strict, s.events) == if s.started then Reading(p.blocks, true) else Fresh
  }

  ghost predicate Lost(s: State) {
    Run(true, s.events).Bad?
  }

  lemma EmitRun(strict: bool, s: State, e: Event)
    ensures Run(strict, Emit(s, e).events) == Next(strict, Run(strict, s.events), e)
  {
    assert Emit(s, e).events[..|s.events|] == s.events;
  }

  /** Announcing the message if need be and closing the open block leaves all blocks closed. */
  lemma Closed(strict: bool, s: State, p: Page)
    requires OnTrack(strict, s, p)
    ensures var t := CloseBlock(EnsureStart(s));
            && Run(strict, t.events) == Reading(p.blocks, false)
            && t == s.(started := true, openIdx := -1, openKind := NoKind, events := t.events)
  {
    hide Run;
    if !s.started {
      EmitRun(strict, s.(started := true), MessageStart(s.model));
    } else {
      EmitRun(strict, s.(openIdx := -1, openKind := NoKind), BlockStop(s.openIdx));
    }
  }

  lemma SayOnTrack(strict: bool, s: State, p: Page, text: string)
    requires OnTrack(strict, s, p) && text != ""
    ensures OnTrack(strict, HandleFragment(s, Say(text)), Write(p, Say(text)))
  {
    hide Run, OpenText;
    var n := |p.blocks|;
    if n > 0 && p.blocks[n - 1].TextContent? {
      assert OpenText(s) == s by { TextStaysOpen(s); }
      EmitRun(strict, s, TextDelta(n - 1, text));
      SameTools(p.blocks, Grow(p.blocks, n - 1, text));
    } else {
      OpenTextOnTrack(strict, s, p);
      EmitRun(strict, OpenText(s), TextDelta(n, text));
      var wider := p.blocks + [TextContent("")];
      assert "" + text == text;
      assert Grow(wider, n, text) == p.blocks + [TextContent(text)];
      SameTools(wider, Grow(wider, n, text));
    }
  }

  lemma TextStaysOpen(s: State)
    requires s.started && s.openKind == Text
    ensures OpenText(s) == s
  {
  }

  lemma OpenTextOnTrack(strict: bool, s: State, p: Page)
    requires OnTrack(strict, s, p) && s.openKind != Text
    ensures OnTrack(strict, OpenText(s), p.(blocks := p.blocks + [TextContent("")]))
    ensures OpenText(s).openIdx == |p.blocks|
  {
    hide Run, CloseBlock;
    Closed(strict, s, p);
    var t, n := CloseBlock(EnsureStart(s)), |p.blocks|;
    EmitRun(strict, t.(openIdx := n, openKind := Text, nextIdx := n + 1), BlockStart(n, TextBlock));
    var wider := p.blocks + [TextContent("")];
    assert forall i :: 0 <= i < n ==> wider[i] == p.blocks[i];
    assert (exists i :: 0 <= i < n && p.blocks[i].ToolContent?)
        <==> (exists i :: 0 <= i < |wider| && wider[i].ToolContent?);
  }

  /** Growing a block does not change which blocks are tools. */
  lemma SameTools(a: seq<Content>, b: seq<Content>)
    requires |a| == |b| && forall i :: 0 <= i < |a| ==> (a[i].ToolContent? <==> b[i].ToolContent?)
    ensures (exists i :: 0 <= i < |a| && a[i].ToolContent?) <==> (exists i :: 0 <= i < |b| && b[i].ToolContent?)
  {
    if i :| 0 <= i < |a| && a[i].ToolContent? {
      assert b[i].ToolContent?;
    }
    if i :| 0 <= i < |b| && b[i].ToolContent? {
      assert a[i].ToolContent?;
    }
  }

  lemma OpenToolOnTrack(strict: bool, s: State, p: Page, id: string, name: string)
    requires OnTrack(strict, s, p)
    ensures OnTrack(strict, OpenTool(s, id, name),
                    p.(blocks := p.blocks + [ToolContent(ToolId(id, |p.blocks|), name, "")]))
  {
    hide Run, CloseBlock;
    Closed(strict, s, p);
    var t, n := CloseBlock(EnsureStart(s)), |p.blocks|;
    var b := ToolUse(ToolId(id, n), name);
    EmitRun(strict, t.(openIdx := n, openKind := Tool, nextIdx := n + 1, sawTool := true), BlockStart(n, b));
    assert (p.blocks + [EmptyBlock(b)])[n].ToolContent?;
  }

  lemma NewToolOnTrack(strict: bool, s: State, p: Page, f: ToolFragment)
    requires OnTrack(strict, s, p) && !Continues(p.latest.Keys, f)
    ensures OnTrack(strict, HandleTool(s, f), Write(p, Call(f)))
  {
    hide Run, OpenTool, ToolId;
    var n := |p.blocks|;
    var wider := p.blocks + [ToolContent(ToolId(f.id, n), f.name, "")];
    OpenToolOnTrack(strict, s, p, f.id, f.name);
    var o := OpenTool(s, f.id, f.name);
    OpenToolFrame(s, f.id, f.name);
    var t := if f.index.Some? then o.(toolMap := o.toolMap[f.index.value := o.openIdx]) else o;
    var q := Page(wider, if f.index.Some? then p.latest[f.index.value := n] else p.latest);
    assert OnTrack(strict, t, q);
    assert Write(p, Call(f)).blocks == Grow(wider, n, f.args) by { assert "" + f.args == f.args; }
    if f.args != "" {
      EmitRun(strict, t, JsonDelta(n, f.args));
      SameTools(wider, Grow(wider, n, f.args));
    } else {
      assert Grow(wider, n, "") == wider;
    }
  }

  lemma OpenToolFrame(s: State, id: string, name: string)
    ensures OpenTool(s, id, name).toolMap == s.toolMap && OpenTool(s, id, name).openIdx == s.nextIdx
  {
  }

  lemma MoreArgs(strict: bool, s: State, p: Page, f: ToolFragment)
    requires OnTrack(strict, s, p) && Continues(p.latest.Keys, f)
    ensures !strict || !Stray(p, Call(f)) ==> OnTrack(strict, HandleTool(s, f), Write(p, Call(f)))
    ensures strict && Stray(p, Call(f)) ==> Lost(HandleTool(s, f))
  {
    hide Run;
    var i: int := f.index.value;
    assert i in p.latest;
    var k := p.latest[i];
    assert p.blocks[k].ToolContent?;
    if f.args == "" {
      assert Grown(p.blocks[k], "") == p.blocks[k];
      assert Grow(p.blocks, k, "") == p.blocks;
    } else {
      EmitRun(strict, s, JsonDelta(k, f.args));
      SameTools(p.blocks, Grow(p.blocks, k, f.args));
    }
  }

  lemma FragmentOnTrack(strict: bool, s: State, p: Page, f: Fragment)
    requires OnTrack(strict, s, p)
    ensures !strict || !Stray(p, f) ==> OnTrack(strict, HandleFragment(s, f), Write(p, f))
    ensures strict && Stray(p, f) ==> Lost(HandleFragment(s, f))
  {
    hide Run, OnTrack, HandleTool, Write;
    match f {
      case Think(_) => NothingWritten(p, f);
      case Say(text) => if text != "" { SayOnTrack(strict, s, p, text); } else { NothingWritten(p, f); }
      case Call(t) =>
        if Continues(p.latest.Keys, t) { MoreArgs(strict, s, p, t); } else { NewToolOnTrack(strict, s, p, t); }
    }
  }

  lemma NothingWritten(p: Page, f: Fragment)
    requires f.Think? || f == Say("")
    ensures Write(p, f) == p
  {
  }

  // ---- Nothing is forgiven a strict reader ----

  lemma FragmentOnlyAppends(s: State, f: Fragment)
    ensures s.events <= HandleFragment(s, f).events
  {
    assert EnsureStart(s).events <= CloseBlock(EnsureStart(s)).events;
  }

  lemma {:induction false} BadForever(strict: bool, events: seq<Event>, n: nat)
    requires n <= |events| && Run(strict, events[..n]).Bad?
    ensures Run(strict, events).Bad?
  {
    if n == |events| {
      assert events[..n] == events;
    } else {
      assert events[..|events| - 1][..n] == events[..n];
      BadForever(strict, events[..|events| - 1], n);
    }
  }

  lemma LostForever(s: State, t: State)
    requires Lost(s) && s.events <= t.events
    ensures Lost(t)
  {
    assert t.events[..|s.events|] == s.events;
    BadForever(true, t.events, |s.events|);
  }

  /** The client's state after a run of fragments: on the page, or, for a strict reader of a
      stream with a stray fragment, lost. */
  ghost predicate After(strict: bool, s: State, p: Page, tidy: bool) {
    if !strict || tidy then OnTrack(strict, s, p) else Lost(s)
  }

  lemma {:induction false} FragmentsAfter(strict: bool, s: State, p: Page, tidy: bool, fs: seq<Fragment>)
    requires After(strict, s, p, tidy)
    ensures After(strict, HandleFragments(s, fs), WriteAll(p, fs), tidy && Tidy(p, fs))
  {
    hide OnTrack, Lost, HandleFragment, Write, Stray;
    if fs != [] {
      var k := |fs| - 1;
      FragmentsAfter(strict, s, p, tidy, fs[..k]);
      var s', p' := HandleFragments(s, fs[..k]), WriteAll(p, fs[..k]);
      if strict && !(tidy && Tidy(p, fs[..k])) {
        FragmentOnlyAppends(s', fs[k]);
        LostForever(s', HandleFragment(s', fs[k]));
      } else {
        FragmentOnTrack(strict, s', p', fs[k]);
      }
    }
  }

  lemma FieldsIrrelevant(strict: bool, s: State, p: Page, tidy: bool, model: string, usage: Option<Usage>, stop: string)
    requires After(strict, s, p, tidy)
    ensures After(strict, s.(model := model, usage := usage, stop := stop), p, tidy)
  {
  }

  lemma {:induction false} ChoicesAfter(strict: bool, s: State, p: Page, tidy: bool, cs: seq<Choice>)
    requires After(strict, s, p, tidy)
    ensures After(strict, HandleChoices(s, cs), WriteAll(p, Fragments(cs)), tidy && Tidy(p, Fragments(cs)))
  {
    hide After, HandleFragments;
    if cs != [] {
      var k := |cs| - 1;
      ChoicesAfter(strict, s, p, tidy, cs[..k]);
      var t, q, ok := HandleChoices(s, cs[..k]), WriteAll(p, Fragments(cs[..k])), tidy && Tidy(p, Fragments(cs[..k]));
      var stop := if cs[k].finish != "" then StopReason(cs[k].finish) else t.stop;
      FieldsIrrelevant(strict, t, q, ok, t.model, t.usage, stop);
      FragmentsAfter(strict, t.(stop := stop), q, ok, ChoiceFragments(cs[k]));
      WriteAllConcat(p, Fragments(cs[..k]), ChoiceFragments(cs[k]));
    }
  }

  lemma {:induction false} StreamAfter(strict: bool, model: string, chunks: seq<Chunk>)
    ensures After(strict, HandleAll(Start(model), chunks), WriteAll(BLANK, StreamFragments(chunks)),
                  Tidy(BLANK, StreamFragments(chunks)))
  {
    hide HandleChoices;
    if chunks != [] {
      var k := |chunks| - 1;
      StreamAfter(strict, model, chunks[..k]);
      var t, fs := HandleAll(Start(model), chunks[..k]), StreamFragments(chunks[..k]);
      var n := Noted(t, chunks[k]);
      FieldsIrrelevant(strict, t, WriteAll(BLANK, fs), Tidy(BLANK, fs), n.model, n.usage, t.stop);
      ChoicesAfter(strict, n, WriteAll(BLANK, fs), Tidy(BLANK, fs), chunks[k].choices);
      WriteAllConcat(BLANK, fs, Fragments(chunks[k].choices));
    }
  }

  lemma FinishRun(strict: bool, s: State, p: Page)
    requires OnTrack(strict, s, p)
    ensures Run(strict, Finish(s).events) == Over(p.blocks, FinalStop(s), FinalUsage(s.usage))
  {
    hide Run, CloseBlock, EnsureStart;
    Closed(strict, s, p);
    var t := CloseBlock(EnsureStart(s));
    EmitRun(strict, t, MessageDelta(FinalStop(s), FinalUsage(s.usage)));
    EmitRun(strict, Emit(t, MessageDelta(FinalStop(s), FinalUsage(s.usage))), MessageStop);
    assert FinalStop(t) == FinalStop(s) && FinalStop(s) != "" by { StopReasonsNamed(s); }
  }

  lemma StopReasonsNamed(s: State)
    ensures FinalStop(s) != ""
  {
  }

  /** Whatever chunks arrive, a stream that ends cleanly is a sentence of the event language, and
      the client ends up with the blocks the fragments spell. */
  lemma StreamIsWellFormed(model: string, chunks: seq<Chunk>)
    ensures var s := HandleAll(Start(model), chunks);
            Run(false, Finish(s).events)
            == Over(WriteAll(BLANK, StreamFragments(chunks)).blocks, FinalStop(s), FinalUsage(s.usage))
  {
    hide HandleAll, Finish;
    StreamAfter(false, model, chunks);
    FinishRun(false, HandleAll(Start(model), chunks), WriteAll(BLANK, StreamFragments(chunks)));
  }

  /** Every delta names the block open at that moment exactly when no argument fragment comes for
      a call whose block has been closed. */
  lemma DeltasNameOpenBlockExactly(model: string, chunks: seq<Chunk>)
    ensures !Run(true, Finish(HandleAll(Start(model), chunks)).events).Bad? <==> Tidy(BLANK, StreamFragments(chunks))
  {
    hide HandleAll, Finish, Run;
    var s := HandleAll(Start(model), chunks);
    StreamAfter(true, model, chunks);
    if Tidy(BLANK, StreamFragments(chunks)) {
      FinishRun(true, s, WriteAll(BLANK, StreamFragments(chunks)));
    } else {
      FinishOnlyAppends(s);
      LostForever(s, Finish(s));
    }
  }

  lemma FinishOnlyAppends(s: State)
    ensures s.events <= Finish(s).events
  {
    assert EnsureStart(s).events <= CloseBlock(EnsureStart(s)).events;
  }
}
