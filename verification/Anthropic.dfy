/** The Anthropic Messages protocol (internal/gateway/anthropic.go): stream events, the
    translator's behaviour as functions on its state, and the non-streaming encoder. */
module Anthropic {
  import opened Words
  import opened Chunks

  datatype Block = TextBlock | ToolUse(id: string, name: string)

  datatype StreamUsage = NoUsage | StreamUsage(inputTokens: int64, outputTokens: int64)

  datatype Event =
    | MessageStart(model: string)
    | BlockStart(index: int, block: Block)
    | TextDelta(index: int, text: string)
    | JsonDelta(index: int, partialJson: string)
    | BlockStop(index: int)
    | MessageDelta(stopReason: string, usage: StreamUsage)
    | MessageStop
    | ErrorEvent(message: string)

  datatype Kind = NoKind | Text | Tool

  datatype State = State(model: string, started: bool, openIdx: int, openKind: Kind, nextIdx: nat,
                         toolMap: map<int, int>, sawTool: bool, usage: Option<Usage>, stop: string,
                         events: seq<Event>)

  function Start(model: string): State {
    State(model, false, -1, NoKind, 0, map[], false, None, "", [])
  }

  function StopReason(finish: string): string {
    if finish == "tool_calls" || finish == "function_call" then "tool_use"
    else if finish == "length" then "max_tokens"
    else if finish == "content_filter" then "refusal"
    else "end_turn"
  }

  function Emit(s: State, e: Event): State {
    s.(events := s.events + [e])
  }

  function EnsureStart(s: State): State {
    if s.started then s else Emit(s.(started := true), MessageStart(s.model))
  }

  function CloseBlock(s: State): State {
    if s.openIdx < 0 then s else Emit(s.(openIdx := -1, openKind := NoKind), BlockStop(s.openIdx))
  }

  function OpenText(s0: State): State {
    var s := EnsureStart(s0);
    if s.openKind == Text then s
    else
      var t := CloseBlock(s);
      Emit(t.(openIdx := t.nextIdx, openKind := Text, nextIdx := t.nextIdx + 1), BlockStart(t.nextIdx, TextBlock))
  }

  function ToolId(id: string, index: nat): string {
    if id == "" then "toolu_" + Decimal2(index) else id
  }

  /** Opens a tool block; its index is the new `openIdx`. */
  function OpenTool(s: State, id: string, name: string): State {
    var t := CloseBlock(EnsureStart(s));
    Emit(t.(openIdx := t.nextIdx, openKind := Tool, nextIdx := t.nextIdx + 1, sawTool := true),
         BlockStart(t.nextIdx, ToolUse(ToolId(id, t.nextIdx), name)))
  }

  /** A fragment without a name whose index is mapped continues that block, open or not. */
  predicate Continues(mapped: set<int>, f: ToolFragment) {
    f.index.Some? && f.index.value in mapped && f.name == ""
  }

  function HandleTool(s: State, f: ToolFragment): State {
    var opens := !Continues(s.toolMap.Keys, f);
    var o := if opens then OpenTool(s, f.id, f.name) else s;
    var t := if opens && f.index.Some? then o.(toolMap := o.toolMap[f.index.value := o.openIdx]) else o;
    var idx := if opens then t.openIdx else s.toolMap[f.index.value];
    if f.args == "" then t else Emit(t, JsonDelta(idx, f.args))
  }

  /** Reasoning text has no place in this protocol. */
  function HandleFragment(s: State, f: Fragment): State {
    match f
    case Think(_) => s
    case Say(text) => if text == "" then s else var t := OpenText(s); Emit(t, TextDelta(t.openIdx, text))
    case Call(tool) => HandleTool(s, tool)
  }

  function HandleFragments(s: State, fs: seq<Fragment>): State {
    if fs == [] then s else HandleFragment(HandleFragments(s, fs[..|fs| - 1]), fs[|fs| - 1])
  }

  function HandleChoice(s: State, c: Choice): State {
    HandleFragments(if c.finish != "" then s.(stop := StopReason(c.finish)) else s, ChoiceFragments(c))
  }

  function HandleChoices(s: State, cs: seq<Choice>): State {
    if cs == [] then s else HandleChoice(HandleChoices(s, cs[..|cs| - 1]), cs[|cs| - 1])
  }

  function Noted(s: State, c: Chunk): State {
    s.(model := if c.model != "" then c.model else s.model, usage := if c.usage.Some? then c.usage else s.usage)
  }

  function Handle(s: State, c: Chunk): State {
    HandleChoices(Noted(s, c), c.choices)
  }

  function HandleAll(s: State, chunks: seq<Chunk>): State {
    if chunks == [] then s else Handle(HandleAll(s, chunks[..|chunks| - 1]), chunks[|chunks| - 1])
  }

  /** An upstream that never sent a finish reason is closed by what it did send. */
  function FinalStop(s: State): string {
    if s.stop != "" then s.stop else if s.sawTool then "tool_use" else "end_turn"
  }

  function FinalUsage(u: Option<Usage>): StreamUsage {
    match u
    case None => NoUsage
    case Some(v) => StreamUsage(v.promptTokens, v.completionTokens)
  }

  function Finish(s0: State): State {
    var s := CloseBlock(EnsureStart(s0));
    Emit(Emit(s, MessageDelta(FinalStop(s), FinalUsage(s.usage))), MessageStop)
  }

  function Fail(s: State, message: string): State {
    Emit(s, ErrorEvent(message))
  }

  lemma HandleFragmentsConcat(s: State, fs: seq<Fragment>, gs: seq<Fragment>)
    ensures HandleFragments(s, fs + gs) == HandleFragments(HandleFragments(s, fs), gs)
  {
    if gs == [] {
      assert fs + gs == fs;
    } else {
      HandleFragmentsConcat(s, fs, gs[..|gs| - 1]);
      assert (fs + gs)[..|fs + gs| - 1] == fs + gs[..|gs| - 1];
    }
  }

  lemma HandleFragmentsSnoc(s: State, fs: seq<Fragment>, f: Fragment)
    ensures HandleFragments(s, fs + [f]) == HandleFragment(HandleFragments(s, fs), f)
  {
    assert (fs + [f])[..|fs|] == fs;
  }

  lemma ChoiceInOrder(s: State, c: Choice)
    ensures HandleFragments(s, ChoiceFragments(c))
         == HandleFragments(HandleFragment(s, Say(c.content)), ToolFragments(c.tools))
  {
    var two := [Think(c.reasoning), Say(c.content)];
    HandleFragmentsConcat(s, two, ToolFragments(c.tools));
    HandleFragmentsSnoc(s, [], Think(c.reasoning));
    HandleFragmentsSnoc(s, [Think(c.reasoning)], Say(c.content));
    assert two == [Think(c.reasoning)] + [Say(c.content)];
  }

  // ---- The non-streaming encoder ----

  /** A content block of a message; for a tool the JSON text of its input. */
  datatype Content = TextContent(text: string) | ToolContent(id: string, name: string, json: string)

  datatype MessageUsage = MessageUsage(inputTokens: int64, outputTokens: int64, cacheRead: int64)

  datatype Message = Message(id: string, model: string, content: seq<Content>, stopReason: string, usage: MessageUsage)

  function MessageUsageOf(u: Option<Usage>): (r: MessageUsage)
    ensures u.None? ==> r == MessageUsage(0, 0, 0)
    ensures u.Some? ==> r.inputTokens == u.value.promptTokens && r.outputTokens == u.value.completionTokens
    ensures u.Some? ==>
              var hits, details := u.value.promptCacheHitTokens, u.value.detailsCachedTokens;
              && r.cacheRead <= u.value.promptTokens
              && (r.cacheRead == u.value.promptTokens || r.cacheRead >= hits)
              && (details.Some? ==> r.cacheRead == u.value.promptTokens || r.cacheRead >= details.value)
              && (r.cacheRead == u.value.promptTokens || r.cacheRead == hits || details == Some(r.cacheRead))
  {
    match u
    case None => MessageUsage(0, 0, 0)
    case Some(v) =>
      MessageUsage(v.promptTokens, v.completionTokens,
                   if v.CachedTokens() > v.promptTokens then v.promptTokens else v.CachedTokens())
  }

  function ToolContents(canon: string -> string, tools: seq<ToolCall>): seq<Content> {
    seq(|tools|, i requires 0 <= i < |tools| => ToolContent(tools[i].id, tools[i].name, canon(tools[i].args)))
  }

  function ContentOf(canon: string -> string, c: ReplyChoice): seq<Content> {
    (if c.content != "" then [TextContent(c.content)] else []) + ToolContents(canon, c.tools)
  }

  function EncodedMessage(canon: string -> string, r: Reply, fallbackModel: string): Message {
    Message(if r.id == "" then "msg_gateway" else r.id,
            if r.model == "" then fallbackModel else r.model,
            if r.choices == [] then [] else ContentOf(canon, r.choices[0]),
            if r.choices == [] then "end_turn" else StopReason(r.choices[0].finish),
            MessageUsageOf(r.usage))
  }

  method EncodeMessage(canon: string -> string, r: Reply, fallbackModel: string)
    returns (m: Message, usage: Option<Usage>)
    ensures m == EncodedMessage(canon, r, fallbackModel)
    ensures (r.id == "" ==> m.id == "msg_gateway") && (r.id != "" ==> m.id == r.id)
    ensures (r.model == "" ==> m.model == fallbackModel) && (r.model != "" ==> m.model == r.model)
    ensures r.choices == [] ==> m.content == [] && m.stopReason == "end_turn"
    ensures r.choices != [] ==>
              var finish := r.choices[0].finish;
              && (finish == "tool_calls" || finish == "function_call" ==> m.stopReason == "tool_use")
              && (finish == "length" ==> m.stopReason == "max_tokens")
              && (finish == "content_filter" ==> m.stopReason == "refusal")
              && (finish !in ["tool_calls", "function_call", "length", "content_filter"] ==> m.stopReason == "end_turn")
    ensures usage == r.usage
  {
    var model := r.model;
    if model == "" { model := fallbackModel; }
    var id := r.id;
    if id == "" { id := "msg_gateway"; }
    var content: seq<Content>, stop := [], "end_turn";
    if |r.choices| > 0 {
      var msg := r.choices[0];
      if msg.content != "" { content := content + [TextContent(msg.content)]; }
      ghost var head := content;
      for i := 0 to |msg.tools|
        invariant content == head + ToolContents(canon, msg.tools)[..i]
      {
        var tc := msg.tools[i];
        content := content + [ToolContent(tc.id, tc.name, canon(tc.args))];
      }
      assert content == ContentOf(canon, msg);
      stop := StopReason(msg.finish);
    }
    return Message(id, model, content, stop, MessageUsageOf(r.usage)), r.usage;
  }
}
