/** Streaming agrees with the non-streaming encoder: the items a stream delivers, read through a
    small model of drafting a reply fragment by fragment. */
module ResponsesRefinement {
  import opened Chunks
  import opened Responses
  import opened ResponsesGrammar

  /** What one item says, whatever id it travels under. */
  datatype Draft = Thought(text: string) | Spoken(text: string) | Called(name: string, callId: string, args: string)

  datatype Sheet = Sheet(drafts: seq<Draft>, seen: set<int>)

  function KindOf(d: seq<Draft>): Kind {
    if d == [] then NoKind
    else match d[|d| - 1]
         case Thought(_) => Reasoning
         case Spoken(_) => Message
         case Called(_, _, _) => FunctionCall
  }

  function Extended(d: Draft, text: string): Draft {
    match d
    case Thought(t) => Thought(t + text)
    case Spoken(t) => Spoken(t + text)
    case Called(n, c, a) => Called(n, c, a + text)
  }

  /** Adds text to the last draft. */
  function Extend(d: seq<Draft>, text: string): seq<Draft>
    requires d != []
  {
    d[..|d| - 1] + [Extended(d[|d| - 1], text)]
  }

  function WithCall(d: seq<Draft>, id: string, name: string): seq<Draft> {
    d + [Called(name, if id == "" then "call_" + Decimal(|d|) else id, "")]
  }

  /** Only the last draft can grow; a fragment of another kind starts a new one. */
  function Write(s: Sheet, f: Fragment): Sheet {
    match f
    case Think(text) =>
      if text == "" then s
      else s.(drafts := Extend(if KindOf(s.drafts) == Reasoning then s.drafts else s.drafts + [Thought("")], text))
    case Say(text) =>
      if text == "" then s
      else s.(drafts := Extend(if KindOf(s.drafts) == Message then s.drafts else s.drafts + [Spoken("")], text))
    case Call(t) =>
      var opens := OpensCall(s.seen, KindOf(s.drafts), t);
      var d := if opens then WithCall(s.drafts, t.id, t.name) else s.drafts;
      var seen := if opens && t.index.Some? then s.seen + {t.index.value} else s.seen;
      if t.args == "" || d == [] then Sheet(d, seen) else Sheet(Extend(d, t.args), seen)
  }

  function WriteAll(s: Sheet, fs: seq<Fragment>): Sheet {
    if fs == [] then s else Write(WriteAll(s, fs[..|fs| - 1]), fs[|fs| - 1])
  }

  lemma WriteAllConcat(s: Sheet, fs: seq<Fragment>, gs: seq<Fragment>)
    ensures WriteAll(s, fs + gs) == WriteAll(WriteAll(s, fs), gs)
  {
    if gs == [] {
      assert fs + gs == fs;
    } else {
      WriteAllConcat(s, fs, gs[..|gs| - 1]);
      assert (fs + gs)[..|fs + gs| - 1] == fs + gs[..|gs| - 1];
    }
  }

  // ---- What a tool fragment does to the sheet ----

  /** A fragment with a name, or with an id and no index that came before, starts a call with that name
      and id, or an id made up from its place. */
  lemma StartWritten(s: Sheet, t: ToolFragment)
    requires t.name != "" || (t.id != "" && (t.index.None? || t.index.value !in s.seen))
    ensures Write(s, Call(t)).drafts
         == s.drafts + [Called(t.name, if t.id == "" then "call_" + Decimal(|s.drafts|) else t.id, t.args)]
    ensures Write(s, Call(t)).seen == if t.index.Some? then s.seen + {t.index.value} else s.seen
  {
    var d := WithCall(s.drafts, t.id, t.name);
    assert d[..|d| - 1] == s.drafts && "" + t.args == t.args;
  }

  /** A nameless fragment whose index came before, or that has neither index nor id, or an index not
      seen and no id, goes on with the call that is open. */
  lemma PieceWritten(s: Sheet, t: ToolFragment)
    requires t.name == "" && s.drafts != [] && s.drafts[|s.drafts| - 1].Called?
    requires t.id == "" || (t.index.Some? && t.index.value in s.seen)
    ensures var n := |s.drafts| - 1; var last := s.drafts[n];
            Write(s, Call(t)) == s.(drafts := s.drafts[n := last.(args := last.args + t.args)])
  {
    var n := |s.drafts| - 1;
    var last := s.drafts[n];
    assert s.drafts[n := last.(args := last.args + t.args)] == s.drafts[..n] + [last.(args := last.args + t.args)];
    if t.args == "" { assert last.args + "" == last.args; }
  }

  /** With no call open a nameless fragment starts one all the same. */
  lemma StrayPieceWritten(s: Sheet, t: ToolFragment)
    requires t.name == "" && (s.drafts == [] || !s.drafts[|s.drafts| - 1].Called?)
    ensures Write(s, Call(t)).drafts
         == s.drafts + [Called("", if t.id == "" then "call_" + Decimal(|s.drafts|) else t.id, t.args)]
    ensures Write(s, Call(t)).seen == if t.index.Some? then s.seen + {t.index.value} else s.seen
  {
    var d := WithCall(s.drafts, t.id, "");
    assert d[..|d| - 1] == s.drafts && "" + t.args == t.args;
  }

  // ---- The translator writes this sheet ----

  function ItemFor(canon: string -> string, d: Draft, index: nat): Item {
    match d
    case Thought(t) => ReasoningItem("rs_" + Decimal(index), t)
    case Spoken(t) => MessageItem("msg_" + Decimal(index), t)
    case Called(n, c, a) => FunctionItem("fc_" + Decimal(index), n, c, canon(a))
  }

  function Items(canon: string -> string, d: seq<Draft>): seq<Item> {
    seq(|d|, i requires 0 <= i < |d| => ItemFor(canon, d[i], i))
  }

  /** The open item as a draft. */
  function Pending(c: Cursor): Draft {
    match c.kind
    case Reasoning => Thought(c.rsBuf)
    case Message => Spoken(c.textBuf)
    case _ => Called(c.fcName, c.callId, c.argsBuf)
  }

  /** The delivered items are the drafts but the last, which is the open one. */
  ghost predicate Writes(canon: string -> string, s: State, sheet: Sheet) {
    var d := sheet.drafts;
    && s.toolSeen == sheet.seen
    && (s.cur.idx < 0 ==> d == [] && s.output == [])
    && (s.cur.idx >= 0 ==>
          && d != [] && s.output == Items(canon, d[..|d| - 1]) && Pending(s.cur) == d[|d| - 1])
  }

  lemma ClosedOutput(canon: string -> string, s: State, sheet: Sheet)
    requires OnTrack(canon, s) && s.started && Writes(canon, s, sheet)
    ensures CloseItem(canon, s).output == Items(canon, sheet.drafts)
    ensures CloseItem(canon, s).toolSeen == s.toolSeen && CloseItem(canon, s).nextOut == |sheet.drafts|
    ensures CloseItem(canon, s).head == s.head
  {
    hide Run;
    var d := sheet.drafts;
    if s.cur.idx >= 0 {
      assert Items(canon, d) == Items(canon, d[..|d| - 1]) + [ItemFor(canon, d[|d| - 1], |d| - 1)];
    }
  }

  /** Closing leaves all drafts delivered, so a newly opened item is the last draft. */
  lemma NewDraft(canon: string -> string, d: seq<Draft>, x: Draft)
    ensures (d + [x])[..|d + [x]| - 1] == d && d + [x] != []
    ensures (d + [x])[|d + [x]| - 1] == x
  {
  }

  lemma ThinkWrites(canon: string -> string, s: State, sheet: Sheet, text: string)
    requires OnTrack(canon, s) && Writes(canon, s, sheet) && text != ""
    ensures Writes(canon, HandleFragment(canon, s, Think(text)), Write(sheet, Think(text)))
  {
    hide Run, CloseItem;
    EnsureStartOnTrack(canon, s);
    ClosedOutput(canon, EnsureStart(s), sheet);
    NewDraft(canon, sheet.drafts, Thought(""));
  }

  lemma OpenMessageWrites(canon: string -> string, s: State, sheet: Sheet)
    requires OnTrack(canon, s) && Writes(canon, s, sheet)
    ensures var t := OpenMessage(canon, s);
            var d := if KindOf(sheet.drafts) == Message then sheet.drafts else sheet.drafts + [Spoken("")];
            Writes(canon, t, sheet.(drafts := d)) && t.cur.idx >= 0 && t.cur.kind == Message
  {
    hide Run, CloseItem, Items, Decimal;
    EnsureStartOnTrack(canon, s);
    ClosedOutput(canon, EnsureStart(s), sheet);
    NewDraft(canon, sheet.drafts, Spoken(""));
  }

  lemma TextWrites(canon: string -> string, s: State, sheet: Sheet, text: string)
    requires Writes(canon, s, sheet) && s.cur.idx >= 0 && s.cur.kind == Message
    ensures Writes(canon, Emit(s.(cur := s.cur.(textBuf := s.cur.textBuf + text)),
                               TextDelta(s.cur.msgId, s.cur.idx, text)),
                   sheet.(drafts := Extend(sheet.drafts, text)))
  {
    hide Items;
    var d := sheet.drafts;
    assert Extend(d, text)[..|d| - 1] == d[..|d| - 1];
  }

  lemma SayWrites(canon: string -> string, s: State, sheet: Sheet, text: string)
    requires OnTrack(canon, s) && Writes(canon, s, sheet) && text != ""
    ensures Writes(canon, HandleFragment(canon, s, Say(text)), Write(sheet, Say(text)))
  {
    hide Run, OnTrack, OpenMessage, Items, Writes, Extend, Emit;
    OpenMessageWrites(canon, s, sheet);
    var d := if KindOf(sheet.drafts) == Message then sheet.drafts else sheet.drafts + [Spoken("")];
    TextWrites(canon, OpenMessage(canon, s), sheet.(drafts := d), text);
  }

  lemma NewCallWrites(canon: string -> string, s: State, sheet: Sheet, id: string, name: string)
    requires OnTrack(canon, s) && Writes(canon, s, sheet)
    ensures Writes(canon, OpenFunctionCall(canon, s, id, name), sheet.(drafts := WithCall(sheet.drafts, id, name)))
  {
    hide Run, CloseItem, OnTrack, Items, Decimal;
    EnsureStartOnTrack(canon, s);
    ClosedOutput(canon, EnsureStart(s), sheet);
    var callId := if id == "" then "call_" + Decimal(|sheet.drafts|) else id;
    NewDraft(canon, sheet.drafts, Called(name, callId, ""));
  }

  lemma ArgsWrite(canon: string -> string, s: State, sheet: Sheet, args: string)
    requires Writes(canon, s, sheet) && s.cur.idx >= 0 && s.cur.kind == FunctionCall && args != ""
    ensures Writes(canon, Emit(s.(cur := s.cur.(argsBuf := s.cur.argsBuf + args)),
                               ArgsDelta(s.cur.fcId, s.cur.idx, args)),
                   sheet.(drafts := Extend(sheet.drafts, args)))
  {
    var d := sheet.drafts;
    assert Extend(d, args)[..|d| - 1] == d[..|d| - 1];
  }

  lemma ToolWrites(canon: string -> string, s: State, sheet: Sheet, t: ToolFragment)
    requires OnTrack(canon, s) && Writes(canon, s, sheet)
    ensures Writes(canon, HandleTool(canon, s, t), Write(sheet, Call(t)))
  {
    hide Run, OpenFunctionCall, WithCall, Emit, Extend;
    assert s.cur.kind == KindOf(sheet.drafts);
    var s', sheet' := s, sheet;
    if OpensCall(s.toolSeen, s.cur.kind, t) {
      NewCallWrites(canon, s, sheet, t.id, t.name);
      OpenFunctionCallOnTrack(canon, s, t.id, t.name);
      s', sheet' := OpenFunctionCall(canon, s, t.id, t.name), sheet.(drafts := WithCall(sheet.drafts, t.id, t.name));
      if t.index.Some? {
        s' := s'.(toolSeen := s'.toolSeen + {t.index.value});
        sheet' := sheet'.(seen := sheet'.seen + {t.index.value});
      }
    }
    assert Writes(canon, s', sheet');
    if t.args != "" {
      ArgsWrite(canon, s', sheet', t.args);
    }
  }

  lemma {:induction false} FragmentsWrite(canon: string -> string, s: State, sheet: Sheet, fs: seq<Fragment>)
    requires OnTrack(canon, s) && Writes(canon, s, sheet)
    ensures Writes(canon, HandleFragments(canon, s, fs), WriteAll(sheet, fs))
  {
    hide Run, HandleTool, OnTrack, Writes;
    if fs != [] {
      var k := |fs| - 1;
      FragmentsWrite(canon, s, sheet, fs[..k]);
      HandleFragmentsOnTrack(canon, s, fs[..k]);
      var s', sheet' := HandleFragments(canon, s, fs[..k]), WriteAll(sheet, fs[..k]);
      match fs[k] {
        case Think(text) => if text != "" { ThinkWrites(canon, s', sheet', text); }
        case Say(text) => if text != "" { SayWrites(canon, s', sheet', text); }
        case Call(t) => ToolWrites(canon, s', sheet', t);
      }
    }
  }

  const BLANK := Sheet([], {})

  lemma {:induction false} ChoicesWrite(canon: string -> string, s: State, sheet: Sheet, cs: seq<Choice>)
    requires OnTrack(canon, s) && Writes(canon, s, sheet)
    ensures Writes(canon, HandleChoices(canon, s, cs), WriteAll(sheet, Fragments(cs)))
  {
    hide Run, OnTrack, HandleFragments, WriteAll;
    if cs == [] {
      assert WriteAll(sheet, []) == sheet by { WriteAllNil(sheet); }
    } else {
      var k := |cs| - 1;
      ChoicesWrite(canon, s, sheet, cs[..k]);
      HandleChoicesOnTrack(canon, s, cs[..k]);
      var s' := HandleChoices(canon, s, cs[..k]);
      var s'' := if cs[k].finish == "length" then s'.(head := s'.head.(incomplete := true)) else s';
      assert OnTrack(canon, s'') by { HeadIrrelevant(canon, s', s''.head); }
      FragmentsWrite(canon, s'', WriteAll(sheet, Fragments(cs[..k])), ChoiceFragments(cs[k]));
      WriteAllConcat(sheet, Fragments(cs[..k]), ChoiceFragments(cs[k]));
    }
  }

  lemma WriteAllNil(sheet: Sheet)
    ensures WriteAll(sheet, []) == sheet
  {
  }

  lemma HeadIrrelevant(canon: string -> string, s: State, h: Head)
    requires OnTrack(canon, s)
    ensures OnTrack(canon, s.(head := h))
  {
  }
}
