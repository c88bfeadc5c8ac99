/** The two main results on output items: an in-order stream completes with the response the
    non-streaming encoder gives, and when a stream of tagged tool fragments does not. */
module ResponsesAgreement {
  import opened Chunks
  import opened Assembly
  import opened Responses
  import opened ResponsesEncoder
  import opened ResponsesGrammar
  import opened ResponsesRefinement

  lemma {:induction false} StreamWrites(canon: string -> string, model: string, chunks: seq<Chunk>)
    ensures Writes(canon, HandleAll(canon, Start(model), chunks), WriteAll(BLANK, StreamFragments(chunks)))
  {
    hide Run, OnTrack, HandleChoices, WriteAll;
    var s := HandleAll(canon, Start(model), chunks);
    if chunks == [] {
      WriteAllNil(BLANK);
    } else {
      var k := |chunks| - 1;
      var before := HandleAll(canon, Start(model), chunks[..k]);
      StreamWrites(canon, model, chunks[..k]);
      HandleAllOnTrack(canon, model, chunks[..k]);
      HeadIrrelevant(canon, before, Noted(before, chunks[k]).head);
      ChoicesWrite(canon, Noted(before, chunks[k]), WriteAll(BLANK, StreamFragments(chunks[..k])), chunks[k].choices);
      WriteAllConcat(BLANK, StreamFragments(chunks[..k]), Fragments(chunks[k].choices));
    }
  }

  // ---- What the final response shows besides its items ----

  lemma {:induction false} FragmentsKeepHead(canon: string -> string, s: State, fs: seq<Fragment>)
    ensures HandleFragments(canon, s, fs).head == s.head
  {
    if fs != [] {
      FragmentsKeepHead(canon, s, fs[..|fs| - 1]);
      FragmentKeepsHead(canon, HandleFragments(canon, s, fs[..|fs| - 1]), fs[|fs| - 1]);
    }
  }

  lemma FragmentKeepsHead(canon: string -> string, s: State, f: Fragment)
    ensures HandleFragment(canon, s, f).head == s.head
  {
    hide CloseItem;
    CloseKeepsHead(canon, EnsureStart(s));
  }

  lemma CloseKeepsHead(canon: string -> string, s: State)
    ensures CloseItem(canon, s).head == s.head
  {
  }

  predicate LengthIn(cs: seq<Choice>) {
    exists j :: 0 <= j < |cs| && cs[j].finish == "length"
  }

  lemma LengthInSnoc(cs: seq<Choice>, c: Choice)
    ensures LengthIn(cs + [c]) <==> LengthIn(cs) || c.finish == "length"
  {
    var all := cs + [c];
    if LengthIn(cs) {
      var j :| 0 <= j < |cs| && cs[j].finish == "length";
      assert all[j].finish == "length";
    }
    if c.finish == "length" { assert all[|cs|].finish == "length"; }
  }

  lemma {:induction false} ChoicesHead(canon: string -> string, s: State, cs: seq<Choice>)
    ensures HandleChoices(canon, s, cs).head == s.head.(incomplete := s.head.incomplete || LengthIn(cs))
  {
    hide LengthIn, HandleFragments;
    if cs == [] {
      NoLength();
    } else {
      var k := |cs| - 1;
      ChoicesHead(canon, s, cs[..k]);
      var t := HandleChoices(canon, s, cs[..k]);
      FragmentsKeepHead(canon, if cs[k].finish == "length" then t.(head := t.head.(incomplete := true)) else t,
                        ChoiceFragments(cs[k]));
      LengthInSnoc(cs[..k], cs[k]);
      assert cs[..k] + [cs[k]] == cs;
    }
  }

  lemma NoLength()
    ensures !LengthIn([])
  {
  }

  lemma {:induction false} StreamHead(canon: string -> string, model: string, chunks: seq<Chunk>)
    ensures HandleAll(canon, Start(model), chunks).head
         == Head(LastModel(chunks, model), LastUsage(chunks), LengthSeen(chunks))
  {
    if chunks != [] {
      var k := |chunks| - 1;
      StreamHead(canon, model, chunks[..k]);
      ChoicesHead(canon, Noted(HandleAll(canon, Start(model), chunks[..k]), chunks[k]), chunks[k].choices);
      LengthSeenSnoc(chunks);
    }
  }

  lemma LengthSeenSnoc(chunks: seq<Chunk>)
    requires chunks != []
    ensures var k := |chunks| - 1;
            LengthSeen(chunks)
            <==> LengthSeen(chunks[..k]) || LengthIn(chunks[k].choices)
  {
    var k := |chunks| - 1;
    if LengthSeen(chunks) {
      var i, j :| 0 <= i < |chunks| && 0 <= j < |chunks[i].choices| && chunks[i].choices[j].finish == "length";
      assert i < k ==> chunks[..k][i].choices[j].finish == "length";
    }
    if LengthSeen(chunks[..k]) {
      var i, j :| 0 <= i < k && 0 <= j < |chunks[..k][i].choices| && chunks[..k][i].choices[j].finish == "length";
      assert chunks[i].choices[j].finish == "length";
    }
  }

  /** The figures a client is billed by, from those the upstream sent: the total as 64-bit words add, the
      cached tokens the larger of the two dialects, cut at the prompt tokens. */
  predicate Figures(r: RespUsage, prompt: int, completion: int, hits: int, details: Option<int>) {
    var cached := if details.Some? && details.value > hits then details.value else hits;
    && r.inputTokens == prompt && r.outputTokens == completion
    && r.totalTokens % 0x1_0000_0000_0000_0000 == (prompt + completion) % 0x1_0000_0000_0000_0000
    && r.cachedTokens == if cached <= prompt then cached else prompt
  }

  /** Whatever chunks arrive, the completed response is incomplete exactly when some choice ran out of
      length, and shows the last usage sent. */
  lemma FinalResponse(canon: string -> string, start: string, chunks: seq<Chunk>)
    ensures var end := Run(canon, Finish(canon, HandleAll(canon, Start(start), chunks)).events);
            && end.Over?
            && end.response.status == (if LengthSeen(chunks) then Incomplete else Completed)
            && end.response.error == None && end.response.model == LastModel(chunks, start)
            && end.response.id == "resp_gateway"
            && match LastUsage(chunks)
               case None => end.response.usage == RespUsage(0, 0, 0, 0)
               case Some(u) =>
                 Figures(end.response.usage, u.promptTokens, u.completionTokens, u.promptCacheHitTokens,
                         u.detailsCachedTokens)
  {
    hide Run, HandleAll, CloseItem, LengthSeen, LastModel;
    var s := HandleAll(canon, Start(start), chunks);
    StreamIsWellFormed(canon, start, chunks);
    StreamHead(canon, start, chunks);
    CloseKeepsHead(canon, EnsureStart(s));
  }

  // ---- In-order streams ----

  /** The calls as drafts from some place on, with made-up ids for those sent without. */
  function CallDrafts(calls: seq<ToolCall>, from: nat): seq<Draft> {
    seq(|calls|, i requires 0 <= i < |calls| => Called(calls[i].name, GivenId(calls[i].id, from + i), calls[i].args))
  }

  function GivenId(id: string, place: nat): string { if id == "" then "call_" + Decimal(place) else id }

  lemma CallDraftsLength(calls: seq<ToolCall>, from: nat)
    ensures |CallDrafts(calls, from)| == |calls|
  {
  }

  lemma CallDraftsSnoc(calls: seq<ToolCall>, c: ToolCall, from: nat)
    ensures CallDrafts(calls + [c], from)
         == CallDrafts(calls, from) + [Called(c.name, GivenId(c.id, from + |calls|), c.args)]
  {
    hide GivenId;
  }

  function Spoke(p: Progress): seq<Draft> {
    (if p.thoughts != "" then [Thought(p.thoughts)] else []) + (if p.words != "" then [Spoken(p.words)] else [])
  }

  function DraftsOf(p: Progress): seq<Draft> {
    Spoke(p) + CallDrafts(p.calls, |Spoke(p)|)
  }

  ghost predicate Sound(p: Progress) {
    && (p.stage < 2 ==> p.calls == [])
    && (p.stage == 0 ==> p.words == "")
    && (p.stage == 1 ==> p.words != "")
    && (p.stage >= 2 ==> p.calls != [])
    && (p.index.Some? ==> p.index.value in p.seen)
  }

  lemma {:induction false} InOrderDrafts(fs: seq<Fragment>)
    requires Assemble(fs, true).Some?
    ensures var p := Assemble(fs, true).value; Sound(p) && WriteAll(BLANK, fs) == Sheet(DraftsOf(p), p.seen)
  {
    if fs != [] {
      var k := |fs| - 1;
      InOrderDrafts(fs[..k]);
      InOrderStep(WriteAll(BLANK, fs[..k]), Assemble(fs[..k], true).value, fs[k]);
    }
  }

  lemma InOrderStep(sheet: Sheet, p: Progress, f: Fragment)
    requires Sound(p) && sheet == Sheet(DraftsOf(p), p.seen) && Add(p, f, true).Some?
    ensures var q := Add(p, f, true).value; Sound(q) && Write(sheet, f) == Sheet(DraftsOf(q), q.seen)
  {
    match f {
      case Think(t) => ThinkStep(sheet, p, t);
      case Say(t) => SayStep(sheet, p, t);
      case Call(t) =>
        hide DraftsOf, Write;
        if StartsCall(p.seen, t) {
          StartStep(sheet, p, t);
        } else {
          ContinueStep(sheet, p, t);
        }
    }
  }

  lemma ThinkStep(sheet: Sheet, p: Progress, t: string)
    requires Sound(p) && sheet == Sheet(DraftsOf(p), p.seen) && Add(p, Think(t), true).Some?
    ensures var q := Add(p, Think(t), true).value; Sound(q) && Write(sheet, Think(t)) == Sheet(DraftsOf(q), q.seen)
  {
    assert "" + t == t;
    if t != "" && p.thoughts != "" { assert DraftsOf(p) == [Thought(p.thoughts)]; }
  }

  lemma SayStep(sheet: Sheet, p: Progress, t: string)
    requires Sound(p) && sheet == Sheet(DraftsOf(p), p.seen) && Add(p, Say(t), true).Some?
    ensures var q := Add(p, Say(t), true).value; Sound(q) && Write(sheet, Say(t)) == Sheet(DraftsOf(q), q.seen)
  {
    hide Decimal;
    assert "" + t == t;
    var before := if p.thoughts != "" then [Thought(p.thoughts)] else [];
    if t != "" {
      assert CallDrafts(p.calls, |Spoke(p)|) == [];
      if p.words != "" {
        assert DraftsOf(p) == before + [Spoken(p.words)];
        assert DraftsOf(p)[..|before|] == before;
      }
    }
  }

  lemma StartStep(sheet: Sheet, p: Progress, t: ToolFragment)
    requires sheet == Sheet(DraftsOf(p), p.seen) && StartsCall(p.seen, t)
    ensures var q := Add(p, Call(t), true).value; Write(sheet, Call(t)) == Sheet(DraftsOf(q), q.seen)
  {
    hide Write, CallDrafts, Decimal;
    StartWritten(sheet, t);
    var n, c := |Spoke(p)|, ToolCall(t.id, t.name, t.args);
    CallDraftsSnoc(p.calls, c, n);
    CallDraftsLength(p.calls, n);
    assert Spoke(p.(calls := p.calls + [c])) == Spoke(p);
    assert Write(sheet, Call(t)).drafts == Spoke(p) + CallDrafts(p.calls + [c], n);
  }

  lemma ContinueStep(sheet: Sheet, p: Progress, t: ToolFragment)
    requires Sound(p) && sheet == Sheet(DraftsOf(p), p.seen) && p.stage == 2
    requires !StartsCall(p.seen, t) && Add(p, Call(t), true).Some?
    ensures Write(sheet, Call(t)) == Sheet(DraftsOf(p.(calls := AddArgs(p.calls, t.args))), p.seen)
  {
    var k, n := |p.calls| - 1, |Spoke(p)|;
    var d := sheet.drafts;
    assert d[|d| - 1] == CallDrafts(p.calls, n)[k];
    PieceWritten(sheet, t);
    assert CallDrafts(AddArgs(p.calls, t.args), n) == CallDrafts(p.calls, n)[..k] + [Extended(d[|d| - 1], t.args)];
    if t.args == "" {
      assert p.calls[k].args + t.args == p.calls[k].args;
      assert AddArgs(p.calls, t.args) == p.calls;
    } else {
      assert d[..|d| - 1] + [Extended(d[|d| - 1], t.args)] == DraftsOf(p.(calls := AddArgs(p.calls, t.args)));
    }
  }

  /** Items without their ids. */
  function Anonymous(items: seq<Item>): seq<Item> {
    seq(|items|, i requires 0 <= i < |items| => Nameless(items[i]))
  }

  function Nameless(item: Item): Item { item.(id := "") }

  /** Items in which every call without an id has been given one. */
  function Filled(items: seq<Item>): seq<Item> {
    seq(|items|, i requires 0 <= i < |items| => FilledIn(items[i], i))
  }

  function FilledIn(item: Item, place: nat): Item {
    if item.FunctionItem? then item.(callId := GivenId(item.callId, place)) else item
  }

  lemma SameCall(canon: string -> string, p: Progress, finish: string, i: nat)
    requires i < |p.calls|
    ensures var streamed, encoded, n := Items(canon, DraftsOf(p)), OutputOf(canon, ChoiceOf(p, finish)), |Spoke(p)|;
            && n + i < |streamed| && n + i < |encoded|
            && encoded[n + i] == FunctionItem(encoded[n + i].id, p.calls[i].name, p.calls[i].id, canon(p.calls[i].args))
            && Nameless(streamed[n + i])
            == FunctionItem("", p.calls[i].name, GivenId(p.calls[i].id, n + i), canon(p.calls[i].args))
  {
    hide GivenId, Decimal;
    var n := |Spoke(p)|;
    assert DraftsOf(p)[n + i] == CallDrafts(p.calls, n)[i];
    assert OutputOf(canon, ChoiceOf(p, finish))[n + i] == FunctionItems(canon, p.calls)[i];
  }

  lemma SameSpeech(canon: string -> string, p: Progress, finish: string)
    ensures var streamed, encoded, n := Items(canon, DraftsOf(p)), OutputOf(canon, ChoiceOf(p, finish)), |Spoke(p)|;
            && |streamed| == |encoded| == n + |p.calls|
            && forall i :: 0 <= i < n ==> !encoded[i].FunctionItem? && Nameless(streamed[i]) == Nameless(encoded[i])
  {
    hide GivenId, Decimal;
    assert forall i :: 0 <= i < |Spoke(p)| ==> DraftsOf(p)[i] == Spoke(p)[i];
  }

  lemma SamePlace(canon: string -> string, p: Progress, finish: string, i: nat)
    requires i < |Items(canon, DraftsOf(p))| && i < |OutputOf(canon, ChoiceOf(p, finish))|
    ensures var x, y := Items(canon, DraftsOf(p))[i], OutputOf(canon, ChoiceOf(p, finish))[i];
            && Nameless(x) == Nameless(FilledIn(y, i))
            && (Nameless(x) == Nameless(y)
                <==> i < |Spoke(p)| || |p.calls| <= i - |Spoke(p)| || p.calls[i - |Spoke(p)|].id != "")
  {
    hide DraftsOf, OutputOf, Items, Spoke, Decimal;
    SameSpeech(canon, p, finish);
    if |Spoke(p)| <= i { SameCall(canon, p, finish, i - |Spoke(p)|); }
  }

  lemma SameItems(canon: string -> string, p: Progress, finish: string)
    ensures var streamed, encoded := Items(canon, DraftsOf(p)), OutputOf(canon, ChoiceOf(p, finish));
            && Anonymous(streamed) == Anonymous(Filled(encoded))
            && (Anonymous(streamed) == Anonymous(encoded) <==> AllCallsNamed(p.calls))
  {
    hide DraftsOf, OutputOf, Items, Spoke, Nameless, FilledIn;
    var streamed, encoded, n := Items(canon, DraftsOf(p)), OutputOf(canon, ChoiceOf(p, finish)), |Spoke(p)|;
    SameSpeech(canon, p, finish);
    forall i | 0 <= i < |streamed|
      ensures Nameless(streamed[i]) == Nameless(FilledIn(encoded[i], i))
      ensures Nameless(streamed[i]) == Nameless(encoded[i]) <==> i < n || p.calls[i - n].id != "" {
      SamePlace(canon, p, finish, i);
    }
    if !AllCallsNamed(p.calls) {
      var i :| 0 <= i < |p.calls| && p.calls[i].id == "";
      assert Anonymous(streamed)[n + i] != Anonymous(encoded)[n + i];
    }
  }

  /** For every way of cutting one reply into chunks that keeps the order reasoning, content,
      calls, the completed stream carries the output, up to item ids, the status and the usage of the
      response the non-streaming encoder builds from the whole reply, with ids made up for the calls that
      were sent without; so the outputs agree as they are exactly when every call was sent with one. Its
      model is the last one named, or the one the translator was started with; so if the reply names what
      the chunks name, the models agree exactly when some chunk names one or the two fall back on the
      same. */
  lemma StreamAgreesWithEncoder(canon: string -> string, start: string, fallbackModel: string, chunks: seq<Chunk>,
                                reply: Reply, p: Progress)
    requires Assemble(StreamFragments(chunks), true) == Some(p)
    requires |reply.choices| == 1 && reply.choices[0] == ChoiceOf(p, reply.choices[0].finish)
    requires LengthSeen(chunks) <==> reply.choices[0].finish == "length"
    requires LastUsage(chunks) == reply.usage
    ensures var s := Finish(canon, HandleAll(canon, Start(start), chunks));
            var encoded := EncodedResponse(canon, reply, fallbackModel);
            var end := Run(canon, s.events);
            && end.Over?
            && Anonymous(end.response.output) == Anonymous(Filled(encoded.output))
            && (Anonymous(end.response.output) == Anonymous(encoded.output) <==> AllCallsNamed(p.calls))
            && end.response.status == encoded.status && end.response.usage == encoded.usage
            && end.response.error == encoded.error
            && end.response.model == LastModel(chunks, start)
            && (reply.model == LastModel(chunks, "") ==>
                  (end.response.model == encoded.model <==> Named(chunks) || start == fallbackModel))
  {
    hide Run, HandleAll, CloseItem, WriteAll, Assemble, Items, Anonymous, Filled, OutputOf, DraftsOf, LastModel;
    hide Named, AllCallsNamed;
    var s := HandleAll(canon, Start(start), chunks);
    var final := Finish(canon, s);
    StreamIsWellFormed(canon, start, chunks);
    HandleAllOnTrack(canon, start, chunks);
    StreamWrites(canon, start, chunks);
    StreamHead(canon, start, chunks);
    EnsureStartOnTrack(canon, s);
    ClosedOutput(canon, EnsureStart(s), WriteAll(BLANK, StreamFragments(chunks)));
    InOrderDrafts(StreamFragments(chunks));
    SameItems(canon, p, reply.choices[0].finish);
    LastModelFrom(chunks, start);
    assert final.output == Items(canon, DraftsOf(p));
    assert Run(canon, final.events) == Over(Skeleton(final.head, final.output, Completed, None));
  }

  /** A request without a model mapping starts the translator with no model, while the encoder is
      given the requested one: when the upstream names none, the stream completes without a model. */
  lemma UnnamedModelLost(canon: string -> string)
    ensures var chunks := [Chunk("", [Choice("hi", "", [], "stop")], None)];
            var reply := Reply("", "", [ReplyChoice("hi", "", [], "stop")], None);
            && EncodedResponse(canon, reply, "gpt").model == "gpt"
            && var end := Run(canon, Finish(canon, HandleAll(canon, Start(""), chunks)).events);
               && end.Over? && end.response.model == ""
               && Anonymous(end.response.output) == Anonymous(EncodedResponse(canon, reply, "gpt").output)
  {
    var chunks := [Chunk("", [Choice("hi", "", [], "stop")], None)];
    var reply := Reply("", "", [ReplyChoice("hi", "", [], "stop")], None);
    HiAssembles();
    hide Run, HandleAll, Anonymous, Assemble;
    StreamAgreesWithEncoder(canon, "", "gpt", chunks, reply, Progress(1, "", "hi", [], None, {}));
  }

  lemma HiAssembles()
    ensures Assemble(StreamFragments([Chunk("", [Choice("hi", "", [], "stop")], None)]), true)
         == Some(Progress(1, "", "hi", [], None, {}))
  {
    var c := Choice("hi", "", [], "stop");
    var chunks := [Chunk("", [c], None)];
    var fs := [Think(""), Say("hi")];
    assert chunks[..0] == [] && [c][..0] == [];
    assert Fragments([c]) == fs && StreamFragments(chunks) == fs;
    assert fs[..1] == [Think("")] && fs[..1][..0] == [];
    assert Assemble(fs[..1], true) == Some(EMPTY) && "" + "hi" == "hi";
  }

  // ---- Streams of tool fragments continued by index: exactly when arguments reach the right call ----

  /** What the translator makes of a stream of tool fragments. */
  function StreamedCalls(ts: seq<ToolFragment>): seq<Draft> {
    WriteAll(BLANK, ToolFragments(ts)).drafts
  }

  ghost predicate SameShape(calls: seq<ToolCall>, d: seq<Draft>) {
    |d| == |calls| && forall i :: 0 <= i < |d| ==>
      d[i].Called? && d[i].name == calls[i].name && d[i].callId == GivenId(calls[i].id, i)
  }

  lemma SameShapeSnoc(calls: seq<ToolCall>, d: seq<Draft>, c: ToolCall)
    requires SameShape(calls, d)
    ensures SameShape(calls + [c], d + [Called(c.name, GivenId(c.id, |d|), c.args)])
  {
    hide GivenId;
  }

  /** Some call that is no longer the latest lost arguments, and can never get them back. */
  ghost predicate Starved(calls: seq<ToolCall>, d: seq<Draft>)
    requires SameShape(calls, d)
  {
    exists i :: 0 <= i < |d| - 1 && |d[i].args| < |calls[i].args|
  }

  ghost predicate Outcome(ts: seq<ToolFragment>)
    requires ByIndex(ts, true).Some?
  {
    var l, sheet := ByIndex(ts, true).value, WriteAll(BLANK, ToolFragments(ts));
    && LatestInRange(l)
    && SameShape(l.calls, sheet.drafts)
    && l.latest.Keys == sheet.seen
    && (InOwnCall(ts) ==> sheet.drafts == CallDrafts(l.calls, 0))
    && (!InOwnCall(ts) ==> Starved(l.calls, sheet.drafts))
  }

  lemma {:induction false} TaggedOutcome(ts: seq<ToolFragment>)
    requires ByIndex(ts, true).Some?
    ensures Outcome(ts)
  {
    hide Write;
    if ts == [] {
      assert ToolFragments(ts) == [];
    } else {
      var k := |ts| - 1;
      TaggedOutcome(ts[..k]);
      assert ToolFragments(ts)[..k] == ToolFragments(ts[..k]);
      var l, sheet, t := ByIndex(ts[..k], true).value, WriteAll(BLANK, ToolFragments(ts[..k])), ts[k];
      assert WriteAll(BLANK, ToolFragments(ts)) == Write(sheet, Call(t));
      if StartsCall(l.latest.Keys, t) {
        TaggedStart(l, sheet, t);
      } else {
        TaggedContinue(l, sheet, t);
      }
    }
  }

  lemma TaggedStart(l: Ledger, sheet: Sheet, t: ToolFragment)
    requires StartsCall(l.latest.Keys, t) && SameShape(l.calls, sheet.drafts) && l.latest.Keys == sheet.seen
    ensures var s' := Write(sheet, Call(t)); var l' := AddTagged(l, t, true).value;
            && s'.seen == l'.latest.Keys
            && SameShape(l'.calls, s'.drafts)
            && (sheet.drafts == CallDrafts(l.calls, 0) ==> s'.drafts == CallDrafts(l'.calls, 0))
            && (Starved(l.calls, sheet.drafts) ==> Starved(l'.calls, s'.drafts))
  {
    hide Write, CallDrafts, Decimal;
    StartWritten(sheet, t);
    var s', c' := Write(sheet, Call(t)), AddTagged(l, t, true).value.calls;
    var x := Called(t.name, GivenId(t.id, |sheet.drafts|), t.args);
    assert s'.drafts == sheet.drafts + [x];
    assert c' == l.calls + [ToolCall(t.id, t.name, t.args)];
    CallDraftsSnoc(l.calls, ToolCall(t.id, t.name, t.args), 0);
    SameShapeSnoc(l.calls, sheet.drafts, ToolCall(t.id, t.name, t.args));
    if Starved(l.calls, sheet.drafts) {
      var i :| 0 <= i < |sheet.drafts| - 1 && |sheet.drafts[i].args| < |l.calls[i].args|;
      assert s'.drafts[i] == sheet.drafts[i] && c'[i] == l.calls[i];
    }
  }

  lemma TaggedContinue(l: Ledger, sheet: Sheet, t: ToolFragment)
    requires SameShape(l.calls, sheet.drafts) && LatestInRange(l) && l.latest.Keys == sheet.seen
    requires !StartsCall(l.latest.Keys, t) && AddTagged(l, t, true).Some?
    ensures var s' := Write(sheet, Call(t)); var c' := AddTagged(l, t, true).value.calls;
            var own := AddsToLatest(l, t);
            && s'.seen == sheet.seen
            && SameShape(c', s'.drafts)
            && (own && sheet.drafts == CallDrafts(l.calls, 0) ==> s'.drafts == CallDrafts(c', 0))
            && (!own && sheet.drafts == CallDrafts(l.calls, 0) ==> Starved(c', s'.drafts))
            && (Starved(l.calls, sheet.drafts) ==> Starved(c', s'.drafts))
  {
    var d, n, k := sheet.drafts, |sheet.drafts| - 1, Target(l, t, true).value;
    assert d[n].Called?;
    if t.index.Some? {
      var index: int := t.index.value;
      assert index in l.latest && index in sheet.seen;
    }
    PieceWritten(sheet, t);
    assert Extend(d, t.args) == d[n := Extended(d[n], t.args)];
    var s', c' := Write(sheet, Call(t)), AddTagged(l, t, true).value.calls;
    assert s'.drafts == if t.args == "" then d else d[n := Extended(d[n], t.args)];
    assert c' == l.calls[k := l.calls[k].(args := l.calls[k].args + t.args)];
    if t.args == "" {
      assert l.calls[k].args + "" == l.calls[k].args;
      assert c' == l.calls;
    } else if k != n {
      assert |s'.drafts[k].args| == |d[k].args| && |c'[k].args| > |l.calls[k].args|;
    }
    if Starved(l.calls, d) {
      var i :| 0 <= i < n && |d[i].args| < |l.calls[i].args|;
      assert |s'.drafts[i].args| < |c'[i].args|;
    }
  }

  /** A stream of tool fragments, whatever calls are sent without an id or an index, is put together as
      meant exactly when every argument fragment arrives while its own call is the latest opened one. */
  lemma ToolStreamExact(ts: seq<ToolFragment>)
    requires ByIndex(ts, true).Some?
    ensures StreamedCalls(ts) == CallDrafts(ByIndex(ts, true).value.calls, 0) <==> InOwnCall(ts)
  {
    TaggedOutcome(ts);
    var calls := ByIndex(ts, true).value.calls;
    if Starved(calls, StreamedCalls(ts)) {
      var i :| 0 <= i < |calls| - 1 && |StreamedCalls(ts)[i].args| < |calls[i].args|;
      assert StreamedCalls(ts)[i] != CallDrafts(calls, 0)[i];
    }
  }

  /** Two calls streamed in parallel. */
  const INTERLEAVED: seq<ToolFragment> := [ToolFragment(Some(0), "a", "f", ""), ToolFragment(Some(1), "b", "g", ""),
                                           ToolFragment(Some(0), "", "", "1")]

  lemma InterleavedCallsMeant()
    ensures ByIndex(INTERLEAVED, true).Some?
    ensures ByIndex(INTERLEAVED, true).value.calls == [ToolCall("a", "f", "1"), ToolCall("b", "g", "")]
  {
    var ts := INTERLEAVED;
    var l0 := Ledger([ToolCall("a", "f", "")], map[0 := 0]);
    var l1 := Ledger([ToolCall("a", "f", ""), ToolCall("b", "g", "")], map[0 := 0, 1 := 1]);
    var nil: seq<ToolCall>, none: map<int, nat> := [], map[];
    assert nil + [ToolCall("a", "f", "")] == l0.calls && none[0 := 0] == l0.latest;
    assert AddTagged(Ledger(nil, none), ts[0], true) == Some(l0);
    assert l0.calls + [ToolCall("b", "g", "")] == l1.calls && l0.latest[1 := 1] == l1.latest;
    assert AddTagged(l0, ts[1], true) == Some(l1);
    assert l1.latest[0] == 0 && "" + "1" == "1";
    assert l1.calls[0 := ToolCall("a", "f", "1")] == [ToolCall("a", "f", "1"), ToolCall("b", "g", "")];
    assert AddTagged(l1, ts[2], true) == Some(l1.(calls := [ToolCall("a", "f", "1"), ToolCall("b", "g", "")]));
    assert ByIndex(ts[..2][..1], true) == Some(l0) by { assert ts[..2][..1] == [ts[0]] && [ts[0]][..0] == []; }
    assert ByIndex(ts[..2], true) == Some(l1);
  }

  /** The second call swallows an argument meant for the first. */
  lemma InterleavedCallsMixUp()
    ensures ByIndex(INTERLEAVED, true).Some?
    ensures ByIndex(INTERLEAVED, true).value.calls == [ToolCall("a", "f", "1"), ToolCall("b", "g", "")]
    ensures StreamedCalls(INTERLEAVED) == [Called("f", "a", ""), Called("g", "b", "1")]
  {
    hide ByIndex, AddTagged;
    InterleavedCallsMeant();
    var fs := ToolFragments(INTERLEAVED);
    var s0 := Write(BLANK, fs[0]);
    assert s0.drafts == [Called("f", "a", "")];
    var s1 := Write(s0, fs[1]);
    assert s1.drafts == [Called("f", "a", ""), Called("g", "b", "")];
    var s2 := Write(s1, fs[2]);
    assert !OpensCall(s1.seen, KindOf(s1.drafts), INTERLEAVED[2]);
    assert s2.drafts == Extend(s1.drafts, "1");
    assert "" + "1" == "1" && s1.drafts[..1] == [Called("f", "a", "")];
    assert fs[..2][..1][..0] == [] && fs[..2][..1] == [fs[0]] && fs[..2] == [fs[0], fs[1]];
    assert WriteAll(BLANK, fs[..2][..1]) == s0;
    assert WriteAll(BLANK, fs[..2]) == s1;
  }
}
