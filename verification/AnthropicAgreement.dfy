/** What Anthropic streams deliver, against the arguments the upstream meant and against the
    non-streaming encoder. */
module AnthropicAgreement {
  import opened Chunks
  import opened Assembly
  import opened Anthropic
  import opened AnthropicGrammar

  // ---- What a tool fragment does to the page ----

  /** A fragment with a name, without an index or with one not seen starts a tool block with its id, or
      one made up from its place. */
  lemma StartWritten(p: Page, t: ToolFragment)
    requires t.name != "" || t.index.None? || t.index.value !in p.latest.Keys
    ensures Write(p, Call(t)).blocks
         == p.blocks + [ToolContent(if t.id == "" then "toolu_" + Decimal2(|p.blocks|) else t.id, t.name, t.args)]
    ensures Write(p, Call(t)).latest == if t.index.Some? then p.latest[t.index.value := |p.blocks|] else p.latest
    ensures !Stray(p, Call(t))
  {
    hide Decimal2;
  }

  /** A nameless fragment whose index came before goes on with the latest block of that index, whatever
      id it repeats. */
  lemma PieceWritten(p: Page, t: ToolFragment)
    requires t.name == "" && t.index.Some? && t.index.value in p.latest.Keys
    requires 0 <= p.latest[t.index.value] < |p.blocks| && p.blocks[p.latest[t.index.value]].ToolContent?
    ensures var k := p.latest[t.index.value]; var b := p.blocks[k];
            Write(p, Call(t)) == p.(blocks := p.blocks[k := b.(json := b.json + t.args)])
  {
  }

  function GivenId(id: string, place: nat): string { if id == "" then "toolu_" + Decimal2(place) else id }

  /** The calls as blocks from some place on, with made-up ids for those sent without. */
  function RawTools(calls: seq<ToolCall>, from: nat): seq<Content> {
    seq(|calls|, i requires 0 <= i < |calls| =>
          ToolContent(GivenId(calls[i].id, from + i), calls[i].name, calls[i].args))
  }

  lemma RawToolsSnoc(calls: seq<ToolCall>, c: ToolCall, from: nat)
    ensures |RawTools(calls, from)| == |calls|
    ensures RawTools(calls + [c], from)
         == RawTools(calls, from) + [ToolContent(GivenId(c.id, from + |calls|), c.name, c.args)]
  {
    hide GivenId;
  }

  // ---- Tagged tool fragments reach their call, interleaved or not ----

  lemma {:induction false} ArgumentsReachTheirCall(ts: seq<ToolFragment>)
    requires ByIndex(ts, false).Some?
    ensures WriteAll(BLANK, ToolFragments(ts)).blocks == RawTools(ByIndex(ts, false).value.calls, 0)
    ensures WriteAll(BLANK, ToolFragments(ts)).latest == ByIndex(ts, false).value.latest
  {
    hide Write;
    if ts == [] {
      assert ToolFragments(ts) == [];
    } else {
      var k := |ts| - 1;
      ArgumentsReachTheirCall(ts[..k]);
      assert ToolFragments(ts)[..k] == ToolFragments(ts[..k]);
      TaggedStep(WriteAll(BLANK, ToolFragments(ts[..k])), ByIndex(ts[..k], false).value, ts[k]);
    }
  }

  lemma TaggedStep(p: Page, l: Ledger, t: ToolFragment)
    requires p.blocks == RawTools(l.calls, 0) && p.latest == l.latest && AddTagged(l, t, false).Some?
    ensures var l' := AddTagged(l, t, false).value;
            Write(p, Call(t)).blocks == RawTools(l'.calls, 0) && Write(p, Call(t)).latest == l'.latest
  {
    hide Write, GivenId;
    if StartsCall(l.latest.Keys, t) {
      assert Write(p, Call(t)).blocks == p.blocks + [ToolContent(GivenId(t.id, |p.blocks|), t.name, t.args)] by {
        StartedAs(p, t);
      }
      StartWritten(p, t);
      RawToolsSnoc(l.calls, ToolCall(t.id, t.name, t.args), 0);
    } else {
      var index: int := t.index.value;
      assert index in p.latest.Keys;
      PieceWritten(p, t);
    }
  }

  lemma StartedAs(p: Page, t: ToolFragment)
    requires t.name != "" || t.index.None? || t.index.value !in p.latest.Keys
    ensures Write(p, Call(t)).blocks == p.blocks + [ToolContent(GivenId(t.id, |p.blocks|), t.name, t.args)]
  {
    hide Decimal2;
    StartWritten(p, t);
  }

  // ---- In-order streams agree with the encoder ----

  function TextOf(p: Progress): seq<Content> { if p.words != "" then [TextContent(p.words)] else [] }

  function BlocksOf(p: Progress): seq<Content> {
    TextOf(p) + RawTools(p.calls, |TextOf(p)|)
  }

  ghost predicate Follows(page: Page, p: Progress) {
    && page.blocks == BlocksOf(p)
    && page.latest.Keys == p.seen
    && (p.stage < 2 ==> p.calls == [])
    && (p.stage == 0 ==> p.words == "")
    && (p.stage == 1 ==> p.words != "")
    && (p.stage >= 2 ==> p.calls != [])
    && (p.stage >= 2 && p.index.Some? ==>
          p.index.value in page.latest.Keys && page.latest[p.index.value] == |page.blocks| - 1)
  }

  lemma {:induction false} InOrderBlocks(fs: seq<Fragment>)
    requires Assemble(fs, false).Some?
    ensures Follows(WriteAll(BLANK, fs), Assemble(fs, false).value) && Tidy(BLANK, fs)
  {
    hide Write, Stray;
    if fs != [] {
      var k := |fs| - 1;
      InOrderBlocks(fs[..k]);
      InOrderStep(WriteAll(BLANK, fs[..k]), Assemble(fs[..k], false).value, fs[k]);
    }
  }

  lemma InOrderStep(page: Page, p: Progress, f: Fragment)
    requires Follows(page, p) && Add(p, f, false).Some?
    ensures Follows(Write(page, f), Add(p, f, false).value) && !Stray(page, f)
  {
    match f {
      case Think(_) =>
      case Say(text) =>
        hide GivenId;
        assert p.words == "" ==> p.words + text == text;
        assert text != "" && p.words != "" ==> page.blocks == [TextContent(p.words)];
      case Call(t) =>
        hide Follows, Write, Stray;
        if StartsCall(p.seen, t) { CallStarts(page, p, t); } else { CallContinues(page, p, t); }
    }
  }

  lemma CallStarts(page: Page, p: Progress, t: ToolFragment)
    requires Follows(page, p) && StartsCall(p.seen, t)
    ensures Follows(Write(page, Call(t)), Add(p, Call(t), false).value) && !Stray(page, Call(t))
  {
    hide Write, RawTools, GivenId;
    StartedAs(page, t);
    StartWritten(page, t);
    RawToolsSnoc(p.calls, ToolCall(t.id, t.name, t.args), |TextOf(p)|);
  }

  lemma CallContinues(page: Page, p: Progress, t: ToolFragment)
    requires Follows(page, p) && p.stage == 2 && p.calls != []
    requires t.name == "" && t.index.Some? && t.index == p.index
    ensures Follows(Write(page, Call(t)), p.(calls := AddArgs(p.calls, t.args))) && !Stray(page, Call(t))
  {
    hide GivenId;
    var n, k, from := |page.blocks| - 1, |p.calls| - 1, |TextOf(p)|;
    assert page.blocks[n] == RawTools(p.calls, from)[k];
    PieceWritten(page, t);
    hide Write;
    assert RawTools(AddArgs(p.calls, t.args), from) == RawTools(p.calls, from)[k := Grown(page.blocks[n], t.args)];
    assert Grow(page.blocks, n, t.args) == BlocksOf(p.(calls := AddArgs(p.calls, t.args)));
  }

  /** The blocks a client holds, with each tool input normalized as the encoder does. */
  function Normalized(canon: string -> string, blocks: seq<Content>): seq<Content> {
    seq(|blocks|, i requires 0 <= i < |blocks| =>
          if blocks[i].ToolContent? then blocks[i].(json := canon(blocks[i].json)) else blocks[i])
  }

  /** Blocks in which every call without an id has been given one. */
  function Filled(blocks: seq<Content>): seq<Content> {
    seq(|blocks|, i requires 0 <= i < |blocks| =>
          if blocks[i].ToolContent? then blocks[i].(id := GivenId(blocks[i].id, i)) else blocks[i])
  }

  lemma SameCall(canon: string -> string, p: Progress, finish: string, i: nat)
    requires i < |p.calls|
    ensures var streamed, encoded := Normalized(canon, BlocksOf(p)), ContentOf(canon, ChoiceOf(p, finish));
            var n := |TextOf(p)|;
            && |streamed| == |encoded| == n + |p.calls|
            && encoded[n + i] == ToolContent(p.calls[i].id, p.calls[i].name, canon(p.calls[i].args))
            && streamed[n + i] == ToolContent(GivenId(p.calls[i].id, n + i), p.calls[i].name, canon(p.calls[i].args))
  {
    hide GivenId;
    var n := |TextOf(p)|;
    assert BlocksOf(p)[n + i] == RawTools(p.calls, n)[i];
    assert ContentOf(canon, ChoiceOf(p, finish))[n + i] == ToolContents(canon, p.calls)[i];
  }

  lemma SameText(canon: string -> string, p: Progress, finish: string)
    ensures var streamed, encoded := Normalized(canon, BlocksOf(p)), ContentOf(canon, ChoiceOf(p, finish));
            var n := |TextOf(p)|;
            && |streamed| == |encoded| == n + |p.calls| && n <= 1
            && (n > 0 ==> streamed[0] == encoded[0] && encoded[0].TextContent?)
  {
    hide GivenId;
  }

  lemma SameContent(canon: string -> string, p: Progress, finish: string)
    ensures var streamed, encoded := Normalized(canon, BlocksOf(p)), ContentOf(canon, ChoiceOf(p, finish));
            && streamed == Filled(encoded)
            && (streamed == encoded <==> AllCallsNamed(p.calls))
  {
    hide BlocksOf, ContentOf, Normalized, TextOf, Decimal2;
    var streamed, encoded, n := Normalized(canon, BlocksOf(p)), ContentOf(canon, ChoiceOf(p, finish)), |TextOf(p)|;
    SameText(canon, p, finish);
    forall i | n <= i < |streamed|
      ensures streamed[i] == Filled(encoded)[i] && (streamed[i] == encoded[i] <==> p.calls[i - n].id != "") {
      SameCall(canon, p, finish, i - n);
    }
    if !AllCallsNamed(p.calls) {
      var i :| 0 <= i < |p.calls| && p.calls[i].id == "";
      assert streamed[n + i] != encoded[n + i];
    }
  }

  /** The last finish reason sent; "" when none was. */
  function LastFinish(chunks: seq<Chunk>): string {
    if chunks == [] then ""
    else
      var here := FinishIn(chunks[|chunks| - 1].choices);
      if here != "" then here else LastFinish(chunks[..|chunks| - 1])
  }

  function FinishIn(cs: seq<Choice>): string {
    if cs == [] then ""
    else if cs[|cs| - 1].finish != "" then cs[|cs| - 1].finish
    else FinishIn(cs[..|cs| - 1])
  }

  function StopFor(finish: string): string {
    if finish == "" then "" else StopReason(finish)
  }

  lemma {:induction false} FragmentsKeepStop(s: State, fs: seq<Fragment>)
    ensures HandleFragments(s, fs).stop == s.stop && HandleFragments(s, fs).usage == s.usage
  {
    if fs != [] {
      FragmentsKeepStop(s, fs[..|fs| - 1]);
      FragmentKeepsStop(HandleFragments(s, fs[..|fs| - 1]), fs[|fs| - 1]);
    }
  }

  lemma FragmentKeepsStop(s: State, f: Fragment)
    ensures HandleFragment(s, f).stop == s.stop && HandleFragment(s, f).usage == s.usage
  {
  }

  lemma {:induction false} ChoicesStop(s: State, cs: seq<Choice>)
    ensures HandleChoices(s, cs).stop == if FinishIn(cs) == "" then s.stop else StopReason(FinishIn(cs))
    ensures HandleChoices(s, cs).usage == s.usage
  {
    hide HandleFragments;
    if cs != [] {
      var k := |cs| - 1;
      ChoicesStop(s, cs[..k]);
      var t := HandleChoices(s, cs[..k]);
      FragmentsKeepStop(if cs[k].finish != "" then t.(stop := StopReason(cs[k].finish)) else t, ChoiceFragments(cs[k]));
    }
  }

  lemma {:induction false} StreamStop(model: string, chunks: seq<Chunk>)
    ensures HandleAll(Start(model), chunks).stop == StopFor(LastFinish(chunks))
    ensures HandleAll(Start(model), chunks).usage == LastUsage(chunks)
  {
    hide HandleChoices;
    if chunks != [] {
      var k := |chunks| - 1;
      StreamStop(model, chunks[..k]);
      ChoicesStop(Noted(HandleAll(Start(model), chunks[..k]), chunks[k]), chunks[k].choices);
    }
  }

  predicate HasTool(blocks: seq<Content>) { exists i :: 0 <= i < |blocks| && blocks[i].ToolContent? }

  /** What every client of a cleanly ended stream is told: tool_use for a tool finish, max_tokens when the
      length ran out, refusal for filtered content, end_turn for any other reason; without a reason,
      whether it holds a tool block decides. Its figures are those of the last usage sent. */
  lemma StopReasonTold(start: string, chunks: seq<Chunk>)
    ensures var end := Run(false, Finish(HandleAll(Start(start), chunks)).events);
            var last := LastFinish(chunks);
            && end.Over?
            && (last == "tool_calls" || last == "function_call" ==> end.stopReason == "tool_use")
            && (last == "length" ==> end.stopReason == "max_tokens")
            && (last == "content_filter" ==> end.stopReason == "refusal")
            && (last == "" ==> end.stopReason == if HasTool(end.blocks) then "tool_use" else "end_turn")
            && (last !in ["", "tool_calls", "function_call", "length", "content_filter"] ==>
                  end.stopReason == "end_turn")
            && (LastUsage(chunks).Some? ==>
                  var u := LastUsage(chunks).value;
                  end.usage == StreamUsage(u.promptTokens, u.completionTokens))
            && (LastUsage(chunks).None? ==> end.usage == NoUsage)
  {
    hide HandleAll, Finish, Run, WriteAll, LastFinish;
    StreamIsWellFormed(start, chunks);
    StreamStop(start, chunks);
    StreamAfter(false, start, chunks);
  }

  /** The figures a client holds at the end: the zeros of message_start, replaced by those that
      message_delta carries; it carries none of what was read from a cache. */
  function Held(u: StreamUsage): MessageUsage {
    match u
    case NoUsage => MessageUsage(0, 0, 0)
    case StreamUsage(i, o) => MessageUsage(i, o, 0)
  }

  /** For every way of cutting one reply into chunks in order, every delta names the open block
      and the client ends up with the content the non-streaming encoder gives, with ids made up for the
      calls that were sent without, and with its input and output figures; so the contents agree as they
      are exactly when every call was sent with an id. The stop reasons agree too exactly when the upstream
      sent a finish reason or made no tool call: a missing finish reason after a call is reported as
      tool_use by the stream alone. And the usage is the encoder's exactly when nothing was read from a
      cache. */
  lemma StreamAgreesWithEncoder(canon: string -> string, start: string, fallbackModel: string, chunks: seq<Chunk>,
                                reply: Reply, p: Progress)
    requires Assemble(StreamFragments(chunks), false) == Some(p)
    requires |reply.choices| == 1 && reply.choices[0] == ChoiceOf(p, LastFinish(chunks))
    requires LastUsage(chunks) == reply.usage
    ensures var encoded := EncodedMessage(canon, reply, fallbackModel);
            var end := Run(true, Finish(HandleAll(Start(start), chunks)).events);
            && end.Over?
            && Normalized(canon, end.blocks) == Filled(encoded.content)
            && (Normalized(canon, end.blocks) == encoded.content <==> AllCallsNamed(p.calls))
            && (end.stopReason == encoded.stopReason <==> LastFinish(chunks) != "" || p.calls == [])
            && Held(end.usage) == encoded.usage.(cacheRead := 0)
            && (Held(end.usage) == encoded.usage <==> encoded.usage.cacheRead == 0)
  {
    hide HandleAll, Finish, Run, WriteAll, Assemble, Tidy, OnTrack;
    hide Filled, Normalized, ContentOf, BlocksOf, AllCallsNamed;
    var s, page := HandleAll(Start(start), chunks), WriteAll(BLANK, StreamFragments(chunks));
    InOrderBlocks(StreamFragments(chunks));
    StreamAfter(true, start, chunks);
    FinishRun(true, s, page);
    StreamStop(start, chunks);
    ToolSeen(s, page, p);
    SameContent(canon, p, LastFinish(chunks));
    assert Run(true, Finish(s).events) == Over(page.blocks, FinalStop(s), FinalUsage(reply.usage));
  }

  /** Ten prompt tokens of which eight were cached: the stream does not say so. */
  lemma CacheReadLost(canon: string -> string, model: string)
    ensures var usage := Some(Usage(10, 1, 8, None));
            && EncodedMessage(canon, Reply("", model, [], usage), model).usage == MessageUsage(10, 1, 8)
            && Held(FinalUsage(usage)) == MessageUsage(10, 1, 0)
            && HandleAll(Start(model), [Chunk(model, [], usage)]).usage == usage
  {
    StreamStop(model, [Chunk(model, [], Some(Usage(10, 1, 8, None)))]);
  }

  lemma ToolSeen(s: State, page: Page, p: Progress)
    requires OnTrack(true, s, page) && page.blocks == BlocksOf(p)
    ensures s.sawTool <==> p.calls != []
  {
    hide Run;
    if p.calls != [] {
      assert page.blocks[|page.blocks| - 1] == RawTools(p.calls, |TextOf(p)|)[|p.calls| - 1];
    }
  }

  // ---- The model a client is told ----

  /** The fragment makes the translator send something. */
  predicate Sounds(f: Fragment) { f.Call? || (f.Say? && f.text != "") }

  predicate SoundsIn(fs: seq<Fragment>) { exists i :: 0 <= i < |fs| && Sounds(fs[i]) }

  /** The chunks up to and including the first with text or a call. */
  function Opening(chunks: seq<Chunk>): seq<Chunk> {
    if chunks == [] then []
    else
      var rest := chunks[..|chunks| - 1];
      if SoundsIn(StreamFragments(rest)) then Opening(rest) else chunks
  }

  /** Once the message has been announced its first event names this model. */
  predicate Announces(s: State, model: string) {
    if s.started then s.events != [] && s.events[0] == MessageStart(model)
    else s.events == [] && s.toolMap == map[] && s.openKind == NoKind && s.openIdx < 0 && s.model == model
  }

  lemma FragmentAnnounces(s: State, f: Fragment, model: string)
    requires Announces(s, model)
    ensures var t := HandleFragment(s, f);
            Announces(t, model) && t.model == s.model && (t.started <==> s.started || Sounds(f))
  {
  }

  lemma {:induction false} FragmentsAnnounce(s: State, fs: seq<Fragment>, model: string)
    requires Announces(s, model)
    ensures var t := HandleFragments(s, fs);
            Announces(t, model) && t.model == s.model && (t.started <==> s.started || SoundsIn(fs))
  {
    hide Announces, HandleFragment, Sounds;
    if fs != [] {
      var k := |fs| - 1;
      FragmentsAnnounce(s, fs[..k], model);
      FragmentAnnounces(HandleFragments(s, fs[..k]), fs[k], model);
      SoundsInSplit(fs[..k], [fs[k]]);
      assert fs[..k] + [fs[k]] == fs && (SoundsIn([fs[k]]) <==> Sounds([fs[k]][0]));
    }
  }

  lemma SoundsInSplit(fs: seq<Fragment>, gs: seq<Fragment>)
    ensures SoundsIn(fs + gs) <==> SoundsIn(fs) || SoundsIn(gs)
  {
    var all := fs + gs;
    if SoundsIn(fs) {
      var i :| 0 <= i < |fs| && Sounds(fs[i]);
      assert Sounds(all[i]);
    }
    if SoundsIn(gs) {
      var i :| 0 <= i < |gs| && Sounds(gs[i]);
      assert Sounds(all[|fs| + i]);
    }
  }

  lemma {:induction false} ChoicesAnnounce(s: State, cs: seq<Choice>, model: string)
    requires Announces(s, model)
    ensures var t := HandleChoices(s, cs);
            Announces(t, model) && t.model == s.model && (t.started <==> s.started || SoundsIn(Fragments(cs)))
  {
    hide HandleFragments, SoundsIn, ChoiceFragments;
    if cs == [] {
      assert !SoundsIn([]) by { NothingSounds(); }
    } else {
      var k := |cs| - 1;
      ChoicesAnnounce(s, cs[..k], model);
      var t := HandleChoices(s, cs[..k]);
      var u := if cs[k].finish != "" then t.(stop := StopReason(cs[k].finish)) else t;
      FragmentsAnnounce(u, ChoiceFragments(cs[k]), model);
      SoundsInSplit(Fragments(cs[..k]), ChoiceFragments(cs[k]));
    }
  }

  lemma NothingSounds()
    ensures !SoundsIn([])
  {
  }

  lemma {:induction false} StreamAnnounces(start: string, chunks: seq<Chunk>)
    ensures var s := HandleAll(Start(start), chunks);
            && Announces(s, LastModel(Opening(chunks), start))
            && s.model == LastModel(chunks, start) && (s.started <==> SoundsIn(StreamFragments(chunks)))
  {
    hide HandleChoices, SoundsIn, Fragments;
    if chunks == [] {
      NothingSounds();
    } else {
      var k := |chunks| - 1;
      var rest, s := chunks[..k], HandleAll(Start(start), chunks[..k]);
      StreamAnnounces(start, rest);
      SoundsInSplit(StreamFragments(rest), Fragments(chunks[k].choices));
      ChoicesAnnounce(Noted(s, chunks[k]), chunks[k].choices, LastModel(Opening(chunks), start));
    }
  }

  /** The stream tells its client the model last named, or started with, by the time the first text or
      call comes, and never corrects it. So if the reply names what the chunks name, it agrees with
      the encoder exactly when that is the model named last, or fallen back on. */
  lemma AnnouncedModelExact(canon: string -> string, start: string, fallbackModel: string, chunks: seq<Chunk>,
                            reply: Reply)
    requires reply.model == LastModel(chunks, "")
    ensures var events := Finish(HandleAll(Start(start), chunks)).events;
            && events != [] && events[0] == MessageStart(LastModel(Opening(chunks), start))
            && (events[0] == MessageStart(EncodedMessage(canon, reply, fallbackModel).model)
                <==> LastModel(Opening(chunks), start) == LastModel(chunks, fallbackModel))
  {
    hide HandleAll, SoundsIn;
    StreamAnnounces(start, chunks);
    LastModelFrom(chunks, fallbackModel);
    LastModelFrom(chunks, start);
    if !SoundsIn(StreamFragments(chunks)) { SilentOpening(chunks); }
  }

  lemma SilentOpening(chunks: seq<Chunk>)
    requires !SoundsIn(StreamFragments(chunks))
    ensures Opening(chunks) == chunks
  {
    hide SoundsIn, Fragments;
    if chunks != [] {
      SoundsInSplit(StreamFragments(chunks[..|chunks| - 1]), Fragments(chunks[|chunks| - 1].choices));
    }
  }

  /** Two calls streamed in parallel: the client still assembles both, from deltas one of which
      names a closed block. */
  lemma InterleavedCallsStray()
    ensures var ts := [ToolFragment(Some(0), "a", "f", ""), ToolFragment(Some(1), "b", "g", ""),
                       ToolFragment(Some(0), "", "", "1")];
            && !Tidy(BLANK, ToolFragments(ts))
            && WriteAll(BLANK, ToolFragments(ts)).blocks == [ToolContent("a", "f", "1"), ToolContent("b", "g", "")]
  {
    var t0, t1, t2 := ToolFragment(Some(0), "a", "f", ""), ToolFragment(Some(1), "b", "g", ""),
        ToolFragment(Some(0), "", "", "1");
    var fs := ToolFragments([t0, t1, t2]);
    assert fs[..2][..1][..0] == [] && fs[..2][..1] == [Call(t0)] && fs[..2] == [Call(t0), Call(t1)];
    var p0, p1 := Write(BLANK, Call(t0)), Write(Write(BLANK, Call(t0)), Call(t1));
    assert p0.blocks == [ToolContent("a", "f", "")] && p0.latest == map[0 := 0];
    assert p1.blocks == [ToolContent("a", "f", ""), ToolContent("b", "g", "")] && p1.latest == map[0 := 0, 1 := 1];
    assert WriteAll(BLANK, fs[..2][..1]) == p0;
    assert WriteAll(BLANK, fs[..2]) == p1;
    assert p1.latest[0] == 0 && "" + "1" == "1";
    assert Grow(p1.blocks, 0, "1") == [ToolContent("a", "f", "1"), ToolContent("b", "g", "")];
  }
}
