/** Putting a reply back together from the fragments of a stream. */
module Assembly {
  import opened Chunks

  /** How far a stream of one choice has come: thinking (0), speaking (1) or calling (2). */
  datatype Progress = Progress(stage: nat, thoughts: string, words: string, calls: seq<ToolCall>,
                               index: Option<int>, seen: set<int>)

  const EMPTY := Progress(0, "", "", [], None, {})

  /** The first fragment of a call: it has a name, or an id and no index that came before. */
  predicate StartsCall(seen: set<int>, t: ToolFragment) {
    t.name != "" || (t.id != "" && (t.index.None? || t.index.value !in seen))
  }

  /** Reads a stream sent in order: reasoning, then content, then one call after the other, each with
      a first fragment and later ones that carry its index and no name, or, for a reader that takes
      them so, neither index nor id nor name. None when the stream is not of that shape. */
  function Assemble(fs: seq<Fragment>, untagged: bool): Option<Progress> {
    if fs == [] then Some(EMPTY)
    else
      match Assemble(fs[..|fs| - 1], untagged)
      case None => None
      case Some(p) => Add(p, fs[|fs| - 1], untagged)
  }

  function Add(p: Progress, f: Fragment, untagged: bool): Option<Progress> {
    match f
    case Think(t) =>
      if t == "" then Some(p)
      else if p.stage == 0 then Some(p.(thoughts := p.thoughts + t))
      else None
    case Say(t) =>
      if t == "" then Some(p)
      else if p.stage <= 1 then Some(p.(stage := 1, words := p.words + t))
      else None
    case Call(t) =>
      if StartsCall(p.seen, t) then
        Some(p.(stage := 2, calls := p.calls + [ToolCall(t.id, t.name, t.args)], index := t.index,
                seen := if t.index.Some? then p.seen + {t.index.value} else p.seen))
      else if p.stage == 2 && p.calls != []
              && ((t.index.Some? && t.index == p.index) || (untagged && t.index.None? && t.id == ""))
      then Some(p.(calls := AddArgs(p.calls, t.args)))
      else None
  }

  function AddArgs(calls: seq<ToolCall>, args: string): (r: seq<ToolCall>)
    requires calls != []
    ensures |r| == |calls|
  {
    var k := |calls| - 1;
    calls[..k] + [calls[k].(args := calls[k].args + args)]
  }

  /** The message of a complete reply that says the same. */
  function ChoiceOf(p: Progress, finish: string): ReplyChoice {
    ReplyChoice(p.words, p.thoughts, p.calls, finish)
  }

  predicate AllCallsNamed(calls: seq<ToolCall>) { forall i :: 0 <= i < |calls| ==> calls[i].id != "" }

  predicate LengthSeen(chunks: seq<Chunk>) {
    exists i, j :: 0 <= i < |chunks| && 0 <= j < |chunks[i].choices| && chunks[i].choices[j].finish == "length"
  }

  function LastModel(chunks: seq<Chunk>, model: string): string {
    if chunks == [] then model
    else if chunks[|chunks| - 1].model != "" then chunks[|chunks| - 1].model
    else LastModel(chunks[..|chunks| - 1], model)
  }

  /** Some chunk names a model. */
  predicate Named(chunks: seq<Chunk>) {
    exists i :: 0 <= i < |chunks| && chunks[i].model != ""
  }

  /** The model a stream starts with counts only if no chunk names one. */
  lemma {:induction false} LastModelFrom(chunks: seq<Chunk>, start: string)
    ensures LastModel(chunks, start) == if Named(chunks) then LastModel(chunks, "") else start
    ensures Named(chunks) <==> LastModel(chunks, "") != ""
  {
    if chunks != [] {
      var rest := chunks[..|chunks| - 1];
      LastModelFrom(rest, start);
      LastModelFrom(rest, "");
      if Named(rest) {
        var i :| 0 <= i < |rest| && rest[i].model != "";
        assert chunks[i].model != "";
      }
      if Named(chunks) && chunks[|chunks| - 1].model == "" {
        var i :| 0 <= i < |chunks| && chunks[i].model != "";
        assert rest[i].model != "";
      }
    }
  }

  // ---- Streams of tool fragments only, in which calls may alternate ----

  /** The calls so far, and the latest call of each index. */
  datatype Ledger = Ledger(calls: seq<ToolCall>, latest: map<int, nat>)

  /** The call a later fragment goes on with: the latest of its index or, for a reader that takes it
      so, the latest of all when it has none. */
  function Target(l: Ledger, t: ToolFragment, untagged: bool): Option<nat> {
    if t.index.Some? then
      if t.index.value in l.latest then Some(l.latest[t.index.value]) else None
    else if untagged && l.calls != [] then Some(|l.calls| - 1) else None
  }

  function AddTagged(l: Ledger, t: ToolFragment, untagged: bool): Option<Ledger> {
    if StartsCall(l.latest.Keys, t) then
      Some(Ledger(l.calls + [ToolCall(t.id, t.name, t.args)],
                  if t.index.Some? then l.latest[t.index.value := |l.calls|] else l.latest))
    else if Target(l, t, untagged).Some? && Target(l, t, untagged).value < |l.calls| then
      var k := Target(l, t, untagged).value;
      Some(l.(calls := l.calls[k := l.calls[k].(args := l.calls[k].args + t.args)]))
    else None
  }

  /** The calls meant; None when some fragment neither starts a call nor goes on with one. */
  function ByIndex(ts: seq<ToolFragment>, untagged: bool): Option<Ledger> {
    if ts == [] then Some(Ledger([], map[]))
    else
      match ByIndex(ts[..|ts| - 1], untagged)
      case None => None
      case Some(l) => AddTagged(l, ts[|ts| - 1], untagged)
  }

  /** Every fragment that adds arguments to a call comes while that call is the latest opened. */
  predicate InOwnCall(ts: seq<ToolFragment>) {
    ts == [] || (
      var k := |ts| - 1;
      && InOwnCall(ts[..k])
      && (ByIndex(ts[..k], true).Some? ==> AddsToLatest(ByIndex(ts[..k], true).value, ts[k])))
  }

  predicate AddsToLatest(l: Ledger, t: ToolFragment) {
    || StartsCall(l.latest.Keys, t) || t.args == ""
    || Target(l, t, true).None? || Target(l, t, true).value == |l.calls| - 1
  }

  ghost predicate LatestInRange(l: Ledger) {
    forall i :: i in l.latest ==> l.latest[i] < |l.calls|
  }

  lemma {:induction false} ByIndexInRange(ts: seq<ToolFragment>, untagged: bool)
    requires ByIndex(ts, untagged).Some?
    ensures LatestInRange(ByIndex(ts, untagged).value)
  {
    if ts != [] {
      ByIndexInRange(ts[..|ts| - 1], untagged);
    }
  }
}
