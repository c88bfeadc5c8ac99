/** The Responses protocol (internal/gateway/responses.go): output items, stream events, and the
    translator's behaviour as functions on its state. `canon` stands for toolArgsJSON, of which
    only that it maps an argument text to a text matters here. */
module Responses {
  import opened Words
  import opened Chunks

  datatype Item =
    | ReasoningItem(id: string, text: string)
    | MessageItem(id: string, text: string)
    | FunctionItem(id: string, name: string, callId: string, args: string)

  datatype RespUsage = RespUsage(inputTokens: int64, outputTokens: int64, totalTokens: int64, cachedTokens: int64)

  datatype Status = InProgress | Completed | Incomplete | Failed

  datatype Response = Response(id: string, status: Status, model: string, output: seq<Item>, usage: RespUsage,
                               error: Option<string>)

  datatype Body =
    | Created(response: Response)
    | ItemAdded(index: int, added: Item)
    | PartAdded(itemId: string, index: int)
    | ReasoningDelta(itemId: string, index: int, delta: string)
    | TextDelta(itemId: string, index: int, delta: string)
    | ArgsDelta(itemId: string, index: int, delta: string)
    | ReasoningDone(itemId: string, index: int, text: string)
    | TextDone(itemId: string, index: int, text: string)
    | PartDone(itemId: string, index: int, text: string)
    | ArgsDone(itemId: string, index: int, args: string)
    | ItemDone(index: int, item: Item)
    | ResponseCompleted(response: Response)
    | ResponseFailed(response: Response)

  datatype Event = Event(sequenceNumber: int, body: Body)

  /** Which kind of item is open; the source's openKind strings. */
  datatype Kind = NoKind | Reasoning | Message | FunctionCall

  /** The open item (index -1 when none is) and the buffers it is assembled in. */
  datatype Cursor = Cursor(idx: int, kind: Kind, msgId: string, fcId: string, callId: string, fcName: string,
                           textBuf: string, rsBuf: string, argsBuf: string)

  /** What the response object of an event shows. */
  datatype Head = Head(model: string, usage: Option<Usage>, incomplete: bool)

  datatype State = State(head: Head, seqNo: int, started: bool, cur: Cursor, nextOut: nat,
                         toolSeen: set<int>, output: seq<Item>, events: seq<Event>)

  const RESP_ID := "resp_gateway"

  const NO_ITEM := Cursor(-1, NoKind, "", "", "", "", "", "", "")

  function Start(model: string): State {
    State(Head(model, None, false), 0, false, NO_ITEM, 0, {}, [], [])
  }

  function RespUsageOf(u: Option<Usage>): (r: RespUsage)
    ensures u.None? ==> r == RespUsage(0, 0, 0, 0)
    ensures u.Some? ==> r.inputTokens == u.value.promptTokens && r.outputTokens == u.value.completionTokens
    ensures u.Some? ==>
              var total := u.value.promptTokens + u.value.completionTokens;
              && r.totalTokens % TWO64 == total % TWO64
              && (-TWO63 <= total < TWO63 ==> r.totalTokens == total)
    ensures u.Some? ==>
              var hits, details := u.value.promptCacheHitTokens, u.value.detailsCachedTokens;
              && r.cachedTokens <= u.value.promptTokens
              && (r.cachedTokens == u.value.promptTokens || r.cachedTokens >= hits)
              && (details.Some? ==> r.cachedTokens == u.value.promptTokens || r.cachedTokens >= details.value)
              && (r.cachedTokens == u.value.promptTokens || r.cachedTokens == hits || details == Some(r.cachedTokens))
  {
    match u
    case None => RespUsage(0, 0, 0, 0)
    case Some(v) =>
      var cached := if v.CachedTokens() > v.promptTokens then v.promptTokens else v.CachedTokens();
      WrapCongruent(v.promptTokens + v.completionTokens);
      RespUsage(v.promptTokens, v.completionTokens, Wrap64(v.promptTokens + v.completionTokens), cached)
  }

  function Skeleton(h: Head, output: seq<Item>, status: Status, error: Option<string>): Response {
    var shown := if h.incomplete && status == Completed then Incomplete else status;
    Response(RESP_ID, shown, h.model, output, RespUsageOf(h.usage), error)
  }

  function Emit(s: State, b: Body): State {
    s.(events := s.events + [Event(s.seqNo, b)], seqNo := s.seqNo + 1)
  }

  function EnsureStart(s: State): State {
    if s.started then s
    else Emit(s.(started := true), Created(Skeleton(s.head, s.output, InProgress, None)))
  }

  function CloseItem(canon: string -> string, s: State): State {
    if s.cur.idx < 0 then s
    else
      var c := s.cur;
      var t := s.(cur := c.(idx := -1, kind := NoKind));
      match c.kind
      case Reasoning => Deliver(Emit(t, ReasoningDone(c.msgId, c.idx, c.rsBuf)), c.idx, ReasoningItem(c.msgId, c.rsBuf))
      case Message =>
        Deliver(Emit(Emit(t, TextDone(c.msgId, c.idx, c.textBuf)), PartDone(c.msgId, c.idx, c.textBuf)),
                c.idx, MessageItem(c.msgId, c.textBuf))
      case _ =>
        Deliver(Emit(t, ArgsDone(c.fcId, c.idx, canon(c.argsBuf))),
                c.idx, FunctionItem(c.fcId, c.fcName, c.callId, canon(c.argsBuf)))
  }

  function Deliver(s: State, idx: int, item: Item): State {
    Emit(s.(output := s.output + [item]), ItemDone(idx, item))
  }

  function OpenReasoning(canon: string -> string, s0: State): State {
    var s := EnsureStart(s0);
    if s.cur.kind == Reasoning then s
    else
      var t := CloseItem(canon, s);
      var id := "rs_" + Decimal(t.nextOut);
      Emit(t.(cur := t.cur.(idx := t.nextOut, kind := Reasoning, msgId := id, rsBuf := ""), nextOut := t.nextOut + 1),
           ItemAdded(t.nextOut, ReasoningItem(id, "")))
  }

  function OpenMessage(canon: string -> string, s0: State): State {
    var s := EnsureStart(s0);
    if s.cur.kind == Message then s
    else
      var t := CloseItem(canon, s);
      var id := "msg_" + Decimal(t.nextOut);
      Emit(Emit(t.(cur := t.cur.(idx := t.nextOut, kind := Message, msgId := id, textBuf := ""),
                   nextOut := t.nextOut + 1),
                ItemAdded(t.nextOut, MessageItem(id, ""))),
           PartAdded(id, t.nextOut))
  }

  function OpenFunctionCall(canon: string -> string, s0: State, id: string, name: string): State {
    var t := CloseItem(canon, EnsureStart(s0));
    var callId := if id == "" then "call_" + Decimal(t.nextOut) else id;
    var fcId := "fc_" + Decimal(t.nextOut);
    Emit(t.(cur := t.cur.(idx := t.nextOut, kind := FunctionCall, fcId := fcId, callId := callId, fcName := name,
                          argsBuf := ""),
            nextOut := t.nextOut + 1),
         ItemAdded(t.nextOut, FunctionItem(fcId, name, callId, "")))
  }

  /** A fragment continues the call being streamed when its index was seen and it has no name. */
  predicate Continues(seen: set<int>, open: Kind, f: ToolFragment) {
    f.index.Some? && f.name == "" && f.index.value in seen && open == FunctionCall
  }

  predicate OpensCall(seen: set<int>, open: Kind, f: ToolFragment) {
    !Continues(seen, open, f) && (f.id != "" || f.name != "" || open != FunctionCall)
  }

  function HandleTool(canon: string -> string, s: State, f: ToolFragment): State {
    var t := if OpensCall(s.toolSeen, s.cur.kind, f)
             then var o := OpenFunctionCall(canon, s, f.id, f.name);
                  if f.index.Some? then o.(toolSeen := o.toolSeen + {f.index.value}) else o
             else s;
    if f.args == "" then t
    else Emit(t.(cur := t.cur.(argsBuf := t.cur.argsBuf + f.args)), ArgsDelta(t.cur.fcId, t.cur.idx, f.args))
  }

  function HandleFragment(canon: string -> string, s: State, f: Fragment): State {
    match f
    case Think(text) =>
      if text == "" then s
      else var t := OpenReasoning(canon, s);
           Emit(t.(cur := t.cur.(rsBuf := t.cur.rsBuf + text)), ReasoningDelta(t.cur.msgId, t.cur.idx, text))
    case Say(text) =>
      if text == "" then s
      else var t := OpenMessage(canon, s);
           Emit(t.(cur := t.cur.(textBuf := t.cur.textBuf + text)), TextDelta(t.cur.msgId, t.cur.idx, text))
    case Call(tool) => HandleTool(canon, s, tool)
  }

  function HandleFragments(canon: string -> string, s: State, fs: seq<Fragment>): State {
    if fs == [] then s
    else HandleFragment(canon, HandleFragments(canon, s, fs[..|fs| - 1]), fs[|fs| - 1])
  }

  function HandleChoice(canon: string -> string, s: State, c: Choice): State {
    var s0 := if c.finish == "length" then s.(head := s.head.(incomplete := true)) else s;
    HandleFragments(canon, s0, ChoiceFragments(c))
  }

  function HandleChoices(canon: string -> string, s: State, cs: seq<Choice>): State {
    if cs == [] then s
    else HandleChoice(canon, HandleChoices(canon, s, cs[..|cs| - 1]), cs[|cs| - 1])
  }

  function Noted(s: State, c: Chunk): State {
    var h := if c.model != "" then s.head.(model := c.model) else s.head;
    s.(head := if c.usage.Some? then h.(usage := c.usage) else h)
  }

  function Handle(canon: string -> string, s: State, c: Chunk): State {
    HandleChoices(canon, Noted(s, c), c.choices)
  }

  function HandleAll(canon: string -> string, s: State, chunks: seq<Chunk>): State {
    if chunks == [] then s
    else Handle(canon, HandleAll(canon, s, chunks[..|chunks| - 1]), chunks[|chunks| - 1])
  }

  function Finish(canon: string -> string, s0: State): State {
    var s := CloseItem(canon, EnsureStart(s0));
    Emit(s, ResponseCompleted(Skeleton(s.head, s.output, Completed, None)))
  }

  function Fail(s: State, message: string): State {
    Emit(s, ResponseFailed(Skeleton(s.head, s.output, Failed, Some(message))))
  }

  lemma HandleFragmentsConcat(canon: string -> string, s: State, fs: seq<Fragment>, gs: seq<Fragment>)
    ensures HandleFragments(canon, s, fs + gs) == HandleFragments(canon, HandleFragments(canon, s, fs), gs)
  {
    if gs == [] {
      assert fs + gs == fs;
    } else {
      HandleFragmentsConcat(canon, s, fs, gs[..|gs| - 1]);
      assert (fs + gs)[..|fs + gs| - 1] == fs + gs[..|gs| - 1];
    }
  }

  lemma ChoiceInOrder(canon: string -> string, s: State, c: Choice)
    ensures HandleFragments(canon, s, ChoiceFragments(c))
         == HandleFragments(canon, HandleFragment(canon, HandleFragment(canon, s, Think(c.reasoning)), Say(c.content)),
                            ToolFragments(c.tools))
  {
    var two := [Think(c.reasoning), Say(c.content)];
    HandleFragmentsConcat(canon, s, two, ToolFragments(c.tools));
    HandleFragmentsSnoc(canon, s, [], Think(c.reasoning));
    HandleFragmentsSnoc(canon, s, [Think(c.reasoning)], Say(c.content));
    assert two == [Think(c.reasoning)] + [Say(c.content)];
  }

  lemma HandleFragmentsSnoc(canon: string -> string, s: State, fs: seq<Fragment>, f: Fragment)
    ensures HandleFragments(canon, s, fs + [f]) == HandleFragment(canon, HandleFragments(canon, s, fs), f)
  {
    assert (fs + [f])[..|fs|] == fs;
  }
}
