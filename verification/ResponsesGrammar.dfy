/** The event language of a Responses stream, as an acceptor that knows nothing of the
    translator, and the proof that the translator speaks it whatever the upstream sends. */
module ResponsesGrammar {
  import opened Chunks
  import opened Responses

  /** Where a client is in the stream. `done` are the finished items; `header` is the open item
      as announced; `text` is what its deltas have spelt so far. */
  datatype Phase =
    | Fresh
    | Between(done: seq<Item>)
    | Announced(done: seq<Item>, header: Item)
    | Streaming(done: seq<Item>, header: Item, text: string)
    | TextClosed(done: seq<Item>, header: Item, text: string)
    | PartClosed(done: seq<Item>, header: Item, text: string)
    | Over(response: Response)
    | Aborted
    | Bad

  function IdOf(item: Item, index: nat): string {
    match item
    case ReasoningItem(_, _) => "rs_" + Decimal(index)
    case MessageItem(_, _) => "msg_" + Decimal(index)
    case FunctionItem(_, _, _, _) => "fc_" + Decimal(index)
  }

  /** An item is announced empty, under the id its index and kind give it. */
  predicate FreshHeader(item: Item, index: nat) {
    && item.id == IdOf(item, index)
    && match item
       case ReasoningItem(_, text) => text == ""
       case MessageItem(_, text) => text == ""
       case FunctionItem(_, _, callId, args) => args == "" && callId != ""
  }

  /** The item once its deltas have spelt `text`. */
  function Finished(canon: string -> string, header: Item, text: string): Item {
    match header
    case ReasoningItem(id, _) => ReasoningItem(id, text)
    case MessageItem(id, _) => MessageItem(id, text)
    case FunctionItem(id, name, callId, _) => FunctionItem(id, name, callId, canon(text))
  }

  /** The event addresses the open item, by id and by index. */
  predicate Names(done: seq<Item>, header: Item, itemId: string, index: int) {
    itemId == header.id && index == |done|
  }

  function Delta(p: Phase, rightKind: bool, itemId: string, index: int, delta: string): Phase
    requires p.Streaming?
  {
    if rightKind && Names(p.done, p.header, itemId, index) && delta != ""
    then Streaming(p.done, p.header, p.text + delta) else Bad
  }

  function CloseText(p: Phase, rightKind: bool, itemId: string, index: int, same: bool): Phase
    requires p.Streaming?
  {
    if rightKind && Names(p.done, p.header, itemId, index) && same then TextClosed(p.done, p.header, p.text) else Bad
  }

  function Next(canon: string -> string, p: Phase, b: Body): Phase {
    match b
    case Created(r) =>
      if p.Fresh? && r.status == InProgress && r.output == [] then Between([]) else Bad
    case ItemAdded(i, item) =>
      if !p.Between? || i != |p.done| || !FreshHeader(item, |p.done|) then Bad
      else if item.MessageItem? then Announced(p.done, item)
      else Streaming(p.done, item, "")
    case PartAdded(id, i) =>
      if p.Announced? && Names(p.done, p.header, id, i) then Streaming(p.done, p.header, "") else Bad
    case ReasoningDelta(id, i, d) => if p.Streaming? then Delta(p, p.header.ReasoningItem?, id, i, d) else Bad
    case TextDelta(id, i, d) => if p.Streaming? then Delta(p, p.header.MessageItem?, id, i, d) else Bad
    case ArgsDelta(id, i, d) => if p.Streaming? then Delta(p, p.header.FunctionItem?, id, i, d) else Bad
    case ReasoningDone(id, i, text) =>
      if p.Streaming? then CloseText(p, p.header.ReasoningItem?, id, i, text == p.text) else Bad
    case TextDone(id, i, text) =>
      if p.Streaming? then CloseText(p, p.header.MessageItem?, id, i, text == p.text) else Bad
    case ArgsDone(id, i, args) =>
      if p.Streaming? then CloseText(p, p.header.FunctionItem?, id, i, args == canon(p.text)) else Bad
    case PartDone(id, i, text) =>
      if p.TextClosed? && p.header.MessageItem? && Names(p.done, p.header, id, i) && text == p.text
      then PartClosed(p.done, p.header, p.text) else Bad
    case ItemDone(i, item) =>
      if ((p.TextClosed? && !p.header.MessageItem?) || p.PartClosed?)
         && i == |p.done| && item == Finished(canon, p.header, p.text)
      then Between(p.done + [item]) else Bad
    case ResponseCompleted(r) =>
      if p.Between? && r.output == p.done && (r.status == Completed || r.status == Incomplete) then Over(r) else Bad
    case ResponseFailed(r) =>
      if p.Over? || p.Bad? || r.status != Failed then Bad else Aborted
  }

  /** Reads a whole stream; sequence numbers must count 0, 1, 2, ... */
  function Run(canon: string -> string, events: seq<Event>): Phase {
    if events == [] then Fresh
    else
      var k := |events| - 1;
      if events[k].sequenceNumber == k then Next(canon, Run(canon, events[..k]), events[k].body) else Bad
  }

  // ---- The translator always is where the acceptor expects it ----

  function HeaderOf(c: Cursor): Item {
    match c.kind
    case Reasoning => ReasoningItem(c.msgId, "")
    case Message => MessageItem(c.msgId, "")
    case _ => FunctionItem(c.fcId, c.fcName, c.callId, "")
  }

  function BufferOf(c: Cursor): string {
    match c.kind
    case Reasoning => c.rsBuf
    case Message => c.textBuf
    case _ => c.argsBuf
  }

  function PhaseOf(s: State): Phase {
    if !s.started then Fresh
    else if s.cur.idx < 0 then Between(s.output)
    else Streaming(s.output, HeaderOf(s.cur), BufferOf(s.cur))
  }

  ghost predicate Consistent(s: State) {
    && s.seqNo == |s.events|
    && (!s.started ==> s.events == [] && s.output == [] && s.cur.idx < 0)
    && (s.cur.idx < 0 ==> s.cur.kind == NoKind && s.nextOut == |s.output|)
    && (s.cur.idx >= 0 ==> s.cur.kind != NoKind && s.cur.idx == |s.output| && s.nextOut == |s.output| + 1)
    && (s.cur.idx >= 0 ==> FreshHeader(HeaderOf(s.cur), |s.output|))
  }

  ghost predicate OnTrack(canon: string -> string, s: State) {
    Consistent(s) && Run(canon, s.events) == PhaseOf(s)
  }

  lemma EmitRun(canon: string -> string, s: State, b: Body)
    requires s.seqNo == |s.events|
    ensures Run(canon, Emit(s, b).events) == Next(canon, Run(canon, s.events), b)
    ensures Emit(s, b).seqNo == |Emit(s, b).events|
  {
    assert Emit(s, b).events[..|s.events|] == s.events;
  }

  lemma EnsureStartOnTrack(canon: string -> string, s: State)
    requires OnTrack(canon, s)
    ensures OnTrack(canon, EnsureStart(s)) && EnsureStart(s).started
  {
    if !s.started {
      EmitRun(canon, s.(started := true), Created(Skeleton(s.head, s.output, InProgress, None)));
    }
  }

  lemma CloseItemOnTrack(canon: string -> string, s: State)
    requires OnTrack(canon, s) && s.started
    ensures OnTrack(canon, CloseItem(canon, s)) && CloseItem(canon, s).started && CloseItem(canon, s).cur.idx < 0
  {
    hide Next, Run, Emit, Deliver;
    if s.cur.idx >= 0 {
      match s.cur.kind {
        case Reasoning => CloseReasoningOnTrack(canon, s);
        case Message => CloseMessageOnTrack(canon, s);
        case _ => CloseFunctionOnTrack(canon, s);
      }
    }
  }

  lemma CloseReasoningOnTrack(canon: string -> string, s: State)
    requires OnTrack(canon, s) && s.started && s.cur.idx >= 0 && s.cur.kind == Reasoning
    ensures OnTrack(canon, CloseItem(canon, s)) && CloseItem(canon, s).started && CloseItem(canon, s).cur.idx < 0
  {
    hide Run;
    var c := s.cur;
    var t := s.(cur := c.(idx := -1, kind := NoKind));
    var b := ReasoningDone(c.msgId, c.idx, c.rsBuf);
    EmitRun(canon, t, b);
    DeliverOnTrack(canon, Emit(t, b), c, ReasoningItem(c.msgId, c.rsBuf));
  }

  lemma CloseMessageOnTrack(canon: string -> string, s: State)
    requires OnTrack(canon, s) && s.started && s.cur.idx >= 0 && s.cur.kind == Message
    ensures OnTrack(canon, CloseItem(canon, s)) && CloseItem(canon, s).started && CloseItem(canon, s).cur.idx < 0
  {
    hide Run;
    var c := s.cur;
    var t := s.(cur := c.(idx := -1, kind := NoKind));
    var b := TextDone(c.msgId, c.idx, c.textBuf);
    var b' := PartDone(c.msgId, c.idx, c.textBuf);
    EmitRun(canon, t, b);
    EmitRun(canon, Emit(t, b), b');
    DeliverOnTrack(canon, Emit(Emit(t, b), b'), c, MessageItem(c.msgId, c.textBuf));
  }

  lemma CloseFunctionOnTrack(canon: string -> string, s: State)
    requires OnTrack(canon, s) && s.started && s.cur.idx >= 0 && s.cur.kind == FunctionCall
    ensures OnTrack(canon, CloseItem(canon, s)) && CloseItem(canon, s).started && CloseItem(canon, s).cur.idx < 0
  {
    hide Run;
    var c := s.cur;
    var t := s.(cur := c.(idx := -1, kind := NoKind));
    var b := ArgsDone(c.fcId, c.idx, canon(c.argsBuf));
    EmitRun(canon, t, b);
    DeliverOnTrack(canon, Emit(t, b), c, FunctionItem(c.fcId, c.fcName, c.callId, canon(c.argsBuf)));
  }

  lemma DeliverOnTrack(canon: string -> string, s: State, c: Cursor, item: Item)
    requires s.started && s.seqNo == |s.events| && c.idx == |s.output| && s.nextOut == |s.output| + 1
    requires s.cur.idx < 0 && s.cur.kind == NoKind && c.kind != NoKind
    requires item == Finished(canon, HeaderOf(c), BufferOf(c))
    requires Run(canon, s.events) == if c.kind == Message then PartClosed(s.output, HeaderOf(c), BufferOf(c))
                                     else TextClosed(s.output, HeaderOf(c), BufferOf(c))
    ensures OnTrack(canon, Deliver(s, c.idx, item))
  {
    EmitRun(canon, s.(output := s.output + [item]), ItemDone(c.idx, item));
  }

  lemma OpenReasoningOnTrack(canon: string -> string, s: State)
    requires OnTrack(canon, s)
    ensures var t := OpenReasoning(canon, s); OnTrack(canon, t) && t.started && t.cur.kind == Reasoning
  {
    hide CloseItem, EnsureStart, Run;
    EnsureStartOnTrack(canon, s);
    var s1 := EnsureStart(s);
    if s1.cur.kind != Reasoning {
      CloseItemOnTrack(canon, s1);
      var t := CloseItem(canon, s1);
      var id := "rs_" + Decimal(t.nextOut);
      EmitRun(canon, t.(cur := t.cur.(idx := t.nextOut, kind := Reasoning, msgId := id, rsBuf := ""),
                       nextOut := t.nextOut + 1),
              ItemAdded(t.nextOut, ReasoningItem(id, "")));
    }
  }

  lemma OpenMessageOnTrack(canon: string -> string, s: State)
    requires OnTrack(canon, s)
    ensures var t := OpenMessage(canon, s); OnTrack(canon, t) && t.started && t.cur.kind == Message
  {
    hide CloseItem, EnsureStart, Run;
    EnsureStartOnTrack(canon, s);
    var s1 := EnsureStart(s);
    if s1.cur.kind != Message {
      CloseItemOnTrack(canon, s1);
      var t := CloseItem(canon, s1);
      var id := "msg_" + Decimal(t.nextOut);
      var u := t.(cur := t.cur.(idx := t.nextOut, kind := Message, msgId := id, textBuf := ""),
                 nextOut := t.nextOut + 1);
      var b := ItemAdded(t.nextOut, MessageItem(id, ""));
      EmitRun(canon, u, b);
      EmitRun(canon, Emit(u, b), PartAdded(id, t.nextOut));
    }
  }

  lemma OpenFunctionCallOnTrack(canon: string -> string, s: State, id: string, name: string)
    requires OnTrack(canon, s)
    ensures var t := OpenFunctionCall(canon, s, id, name); OnTrack(canon, t) && t.started && t.cur.kind == FunctionCall
  {
    hide CloseItem, EnsureStart, Run;
    EnsureStartOnTrack(canon, s);
    CloseItemOnTrack(canon, EnsureStart(s));
    var t := CloseItem(canon, EnsureStart(s));
    var callId := if id == "" then "call_" + Decimal(t.nextOut) else id;
    var fcId := "fc_" + Decimal(t.nextOut);
    var u := t.(cur := t.cur.(idx := t.nextOut, kind := FunctionCall, fcId := fcId, callId := callId, fcName := name,
                              argsBuf := ""),
                nextOut := t.nextOut + 1);
    assert callId != "";
    EmitRun(canon, u, ItemAdded(t.nextOut, FunctionItem(fcId, name, callId, "")));
  }

  lemma HandleFragmentOnTrack(canon: string -> string, s: State, f: Fragment)
    requires OnTrack(canon, s)
    ensures OnTrack(canon, HandleFragment(canon, s, f))
  {
    hide OpenReasoning, OpenMessage, OpenFunctionCall;
    match f {
      case Think(text) =>
        if text != "" {
          OpenReasoningOnTrack(canon, s);
          var t := OpenReasoning(canon, s);
          EmitRun(canon, t.(cur := t.cur.(rsBuf := t.cur.rsBuf + text)), ReasoningDelta(t.cur.msgId, t.cur.idx, text));
        }
      case Say(text) =>
        if text != "" {
          OpenMessageOnTrack(canon, s);
          var t := OpenMessage(canon, s);
          EmitRun(canon, t.(cur := t.cur.(textBuf := t.cur.textBuf + text)), TextDelta(t.cur.msgId, t.cur.idx, text));
        }
      case Call(tool) => HandleToolOnTrack(canon, s, tool);
    }
  }

  lemma HandleToolOnTrack(canon: string -> string, s: State, f: ToolFragment)
    requires OnTrack(canon, s)
    ensures OnTrack(canon, HandleTool(canon, s, f))
  {
    hide OpenFunctionCall, Run;
    var t := s;
    if OpensCall(s.toolSeen, s.cur.kind, f) {
      OpenFunctionCallOnTrack(canon, s, f.id, f.name);
      var o := OpenFunctionCall(canon, s, f.id, f.name);
      t := if f.index.Some? then o.(toolSeen := o.toolSeen + {f.index.value}) else o;
    }
    assert OnTrack(canon, t) && t.cur.kind == FunctionCall;
    if f.args != "" {
      EmitRun(canon, t.(cur := t.cur.(argsBuf := t.cur.argsBuf + f.args)), ArgsDelta(t.cur.fcId, t.cur.idx, f.args));
    }
  }

  lemma {:induction false} HandleFragmentsOnTrack(canon: string -> string, s: State, fs: seq<Fragment>)
    requires OnTrack(canon, s)
    ensures OnTrack(canon, HandleFragments(canon, s, fs))
  {
    hide HandleFragment;
    if fs != [] {
      HandleFragmentsOnTrack(canon, s, fs[..|fs| - 1]);
      HandleFragmentOnTrack(canon, HandleFragments(canon, s, fs[..|fs| - 1]), fs[|fs| - 1]);
    }
  }

  lemma {:induction false} HandleChoicesOnTrack(canon: string -> string, s: State, cs: seq<Choice>)
    requires OnTrack(canon, s)
    ensures OnTrack(canon, HandleChoices(canon, s, cs))
  {
    if cs != [] {
      HandleChoicesOnTrack(canon, s, cs[..|cs| - 1]);
      var t, c := HandleChoices(canon, s, cs[..|cs| - 1]), cs[|cs| - 1];
      HandleFragmentsOnTrack(canon, if c.finish == "length" then t.(head := t.head.(incomplete := true)) else t,
                             ChoiceFragments(c));
    }
  }

  lemma {:induction false} HandleAllOnTrack(canon: string -> string, model: string, chunks: seq<Chunk>)
    ensures OnTrack(canon, HandleAll(canon, Start(model), chunks))
  {
    if chunks != [] {
      HandleAllOnTrack(canon, model, chunks[..|chunks| - 1]);
      var s := HandleAll(canon, Start(model), chunks[..|chunks| - 1]);
      HandleChoicesOnTrack(canon, Noted(s, chunks[|chunks| - 1]), chunks[|chunks| - 1].choices);
    }
  }

  /** Whatever chunks arrive, a stream that ends cleanly is a sentence of the event language and
      its last event carries the items in the order they were delivered. */
  lemma StreamIsWellFormed(canon: string -> string, model: string, chunks: seq<Chunk>)
    ensures var s := Finish(canon, HandleAll(canon, Start(model), chunks));
            Run(canon, s.events) == Over(Skeleton(s.head, s.output, Completed, None))
  {
    hide HandleAll, CloseItem, EnsureStart;
    var s := HandleAll(canon, Start(model), chunks);
    HandleAllOnTrack(canon, model, chunks);
    EnsureStartOnTrack(canon, s);
    CloseItemOnTrack(canon, EnsureStart(s));
    var t := CloseItem(canon, EnsureStart(s));
    EmitRun(canon, t, ResponseCompleted(Skeleton(t.head, t.output, Completed, None)));
  }

  /** A stream cut by an upstream read error is a proper beginning followed by one failure event. */
  lemma FailedStreamIsWellFormed(canon: string -> string, model: string, chunks: seq<Chunk>, message: string)
    ensures Run(canon, Fail(HandleAll(canon, Start(model), chunks), message).events) == Aborted
  {
    hide HandleAll, Run;
    var s := HandleAll(canon, Start(model), chunks);
    HandleAllOnTrack(canon, model, chunks);
    EmitRun(canon, s, ResponseFailed(Skeleton(s.head, s.output, Failed, Some(message))));
  }

  // ---- What acceptance means to a client that concatenates deltas ----

  /** All deltas addressed to one output index, concatenated. */
  function DeltasOf(events: seq<Event>, index: int): string {
    if events == [] then ""
    else
      DeltasOf(events[..|events| - 1], index) + AddedTo(events[|events| - 1].body, index)
  }

  predicate Spells(canon: string -> string, item: Item, deltas: string) {
    match item
    case ReasoningItem(_, text) => text == deltas
    case MessageItem(_, text) => text == deltas
    case FunctionItem(_, _, _, args) => args == canon(deltas)
  }

  function DoneItems(p: Phase): seq<Item>
    requires !p.Bad? && !p.Aborted?
  {
    match p
    case Fresh => []
    case Over(r) => r.output
    case Between(done) => done
    case Announced(done, _) => done
    case Streaming(done, _, _) => done
    case TextClosed(done, _, _) => done
    case PartClosed(done, _, _) => done
  }

  ghost predicate Rebuilds(canon: string -> string, events: seq<Event>, p: Phase)
    requires !p.Bad? && !p.Aborted?
  {
    var done := DoneItems(p);
    && (forall i :: 0 <= i < |done| ==> Spells(canon, done[i], DeltasOf(events, i)))
    && (p.Streaming? || p.TextClosed? || p.PartClosed? ==> DeltasOf(events, |done|) == p.text)
    && (!(p.Streaming? || p.TextClosed? || p.PartClosed?) ==> DeltasOf(events, |done|) == "")
    && (forall i :: |done| < i ==> DeltasOf(events, i) == "")
  }

  /** In any accepted stream, the deltas sent under an output index spell exactly the item that
      the final response holds at that index. */
  lemma {:induction false} DeltasRebuildOutput(canon: string -> string, events: seq<Event>)
    requires !Run(canon, events).Bad? && !Run(canon, events).Aborted?
    ensures Rebuilds(canon, events, Run(canon, events))
  {
    if events != [] {
      var k := |events| - 1;
      DeltasRebuildOutput(canon, events[..k]);
      RebuildsStep(canon, events[..k], events[k]);
      assert events[..k] + [events[k]] == events;
    }
  }

  lemma RebuildsStep(canon: string -> string, events: seq<Event>, e: Event)
    requires !Run(canon, events).Bad? && !Run(canon, events).Aborted? && Rebuilds(canon, events, Run(canon, events))
    requires !Next(canon, Run(canon, events), e.body).Bad? && !Next(canon, Run(canon, events), e.body).Aborted?
    ensures Rebuilds(canon, events + [e], Next(canon, Run(canon, events), e.body))
  {
    hide Run, DeltasOf;
    var p, q := Run(canon, events), Next(canon, Run(canon, events), e.body);
    var n := |DoneItems(p)|;
    forall i | i != n || AddedTo(e.body, i) == ""
      ensures DeltasOf(events + [e], i) == DeltasOf(events, i)
    {
      DeltasOfSnoc(events, e, i);
      assert AddedTo(e.body, i) == "";
    }
    DeltasOfSnoc(events, e, n);
    if e.body.ItemDone? {
      assert Spells(canon, e.body.item, DeltasOf(events, n));
      assert DoneItems(q) == DoneItems(p) + [e.body.item];
    }
  }

  /** What one event adds to the deltas of an index. */
  function AddedTo(b: Body, index: int): string {
    match b
    case ReasoningDelta(_, i, d) => if i == index then d else ""
    case TextDelta(_, i, d) => if i == index then d else ""
    case ArgsDelta(_, i, d) => if i == index then d else ""
    case _ => ""
  }

  lemma DeltasOfSnoc(events: seq<Event>, e: Event, index: int)
    ensures DeltasOf(events + [e], index) == DeltasOf(events, index) + AddedTo(e.body, index)
  {
    assert (events + [e])[..|events|] == events;
  }

  /** Whatever the upstream sends, a client that concatenates the deltas of each index holds, when
      the stream completes, exactly the items of the final response. */
  lemma StreamDeltasSpellOutput(canon: string -> string, model: string, chunks: seq<Chunk>, i: nat)
    requires i < |Finish(canon, HandleAll(canon, Start(model), chunks)).output|
    ensures var s := Finish(canon, HandleAll(canon, Start(model), chunks));
            Spells(canon, s.output[i], DeltasOf(s.events, i))
  {
    hide HandleAll, Finish, Run, DeltasOf;
    StreamIsWellFormed(canon, model, chunks);
    DeltasRebuildOutput(canon, Finish(canon, HandleAll(canon, Start(model), chunks)).events);
  }
}
