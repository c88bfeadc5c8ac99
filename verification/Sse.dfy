/** Server-sent event lines and the raw pass-through (internal/gateway/sse.go:49-113). */
module Sse {
  import opened Chunks
  import opened Gate

  /** What the reader yields: complete lines, then a last piece with the end of the stream
      (failure None) or a read error. */
  datatype Upstream = Upstream(lines: seq<string>, tail: string, failure: Option<string>)

  function Lines(up: Upstream): seq<string> { up.lines + [up.tail] }

  predicate IsSpace(c: char) {
    c in {' ', '\t', '\n', '\U{0B}', '\U{0C}', '\r', '\U{85}', '\U{A0}', '\U{1680}', '\U{2028}', '\U{2029}',
          '\U{202F}', '\U{205F}', '\U{3000}'}
    || '\U{2000}' <= c <= '\U{200A}'
  }

  function TrimLeft(s: string): string {
    if s != "" && IsSpace(s[0]) then TrimLeft(s[1..]) else s
  }

  function TrimRight(s: string): string {
    if s != "" && IsSpace(s[|s| - 1]) then TrimRight(s[..|s| - 1]) else s
  }

  function TrimSpace(s: string): string { TrimRight(TrimLeft(s)) }

  /** The JSON text of a data line, if it has one. */
  function Payload(line: string): Option<string> {
    var t := TrimSpace(line);
    if "data:" <= t then
      var p := TrimSpace(t[|"data:"|..]);
      if p != "" && p != "[DONE]" then Some(p) else None
    else None
  }

  // ---- What a data line is ----

  predicate Blank(s: string) { forall c :: c in s ==> IsSpace(c) }

  /** Not empty, and without white space at either end. */
  predicate Bare(s: string) { s != "" && !IsSpace(s[0]) && !IsSpace(s[|s| - 1]) }

  /** The line is a data line with this payload, with any white space around its parts. */
  ghost predicate Carries(line: string, p: string) {
    Bare(p) && p != "[DONE]"
    && exists a, b, c :: Blank(a) && Blank(b) && Blank(c) && line == Spelt(a, b, p, c)
  }

  function Spelt(a: string, b: string, p: string, c: string): string { a + "data:" + b + p + c }

  lemma {:induction false} TrimLeftIs(a: string, s: string)
    requires Blank(a) && (s != "" ==> !IsSpace(s[0]))
    ensures TrimLeft(a + s) == s
  {
    hide IsSpace;
    if a == "" {
      assert a + s == s;
    } else {
      assert a[0] in a && forall c :: c in a[1..] ==> c in a;
      TrimLeftIs(a[1..], s);
      assert (a + s)[0] == a[0] && (a + s)[1..] == a[1..] + s;
    }
  }

  lemma {:induction false} TrimRightIs(s: string, c: string)
    requires Blank(c) && (s != "" ==> !IsSpace(s[|s| - 1]))
    ensures TrimRight(s + c) == s
  {
    hide IsSpace;
    if c == "" {
      assert s + c == s;
    } else {
      var k := |c| - 1;
      assert c[k] in c && forall x :: x in c[..k] ==> x in c;
      TrimRightIs(s, c[..k]);
      assert (s + c)[|s + c| - 1] == c[k] && (s + c)[..|s + c| - 1] == s + c[..k];
    }
  }

  lemma {:induction false} TrimLeftFrom(s: string) returns (a: string)
    ensures Blank(a) && s == a + TrimLeft(s) && (TrimLeft(s) != "" ==> !IsSpace(TrimLeft(s)[0]))
  {
    hide IsSpace;
    a := "";
    if s != "" && IsSpace(s[0]) {
      var b := TrimLeftFrom(s[1..]);
      a := [s[0]] + b;
      assert s == [s[0]] + s[1..];
    }
  }

  lemma {:induction false} TrimRightFrom(s: string) returns (c: string)
    ensures Blank(c) && s == TrimRight(s) + c && (TrimRight(s) != "" ==> !IsSpace(TrimRight(s)[|TrimRight(s)| - 1]))
  {
    hide IsSpace;
    c := "";
    if s != "" && IsSpace(s[|s| - 1]) {
      var b := TrimRightFrom(s[..|s| - 1]);
      c := b + [s[|s| - 1]];
      assert s == s[..|s| - 1] + [s[|s| - 1]];
    }
  }

  /** Trimming finds the one stretch without white space at its ends, nothing if all is blank. */
  lemma TrimExact(s: string, t: string)
    requires Bare(t)
    ensures TrimSpace(s) == t <==> exists a, c :: Blank(a) && Blank(c) && s == a + t + c
  {
    hide IsSpace;
    if a, c :| Blank(a) && Blank(c) && s == a + t + c {
      assert s == a + (t + c);
      TrimLeftIs(a, t + c);
      TrimRightIs(t, c);
    }
    if TrimSpace(s) == t {
      var a := TrimLeftFrom(s);
      var c := TrimRightFrom(TrimLeft(s));
      assert s == a + t + c;
    }
  }

  lemma TrimmedLine(line: string, a: string, b: string, p: string, c: string)
    requires Blank(a) && Blank(b) && Blank(c) && Bare(p) && line == Spelt(a, b, p, c)
    ensures "data:" <= TrimSpace(line) && TrimSpace(TrimSpace(line)[5..]) == p
  {
    var t := "data:" + b + p;
    assert t[0] == 'd' && t[|t| - 1] == p[|p| - 1];
    assert !IsSpace('d');
    hide IsSpace;
    assert line == a + t + c;
    TrimExact(line, t);
    assert t[5..] == b + p + "" && Blank("");
    TrimExact(t[5..], p);
  }

  /** A line has a payload exactly when it is spelt "data:" and the payload, with white space before,
      between and after, and the payload is neither empty nor the end marker. */
  lemma PayloadExact(line: string, p: string)
    ensures Payload(line) == Some(p) <==> Carries(line, p)
  {
    hide IsSpace, TrimSpace;
    if Carries(line, p) {
      var a, b, c :| Blank(a) && Blank(b) && Blank(c) && line == Spelt(a, b, p, c);
      TrimmedLine(line, a, b, p, c);
    }
    if Payload(line) == Some(p) { PayloadSpelt(line, p); }
  }

  lemma PayloadSpelt(line: string, p: string)
    requires Payload(line) == Some(p)
    ensures Carries(line, p)
  {
    var t := TrimSpace(line);
    TrimmedBare(line);
    TrimmedBare(t[5..]);
    hide IsSpace, TrimSpace, Blank, Bare, Spelt;
    TrimExact(line, t);
    TrimExact(t[5..], p);
    var a, c :| Blank(a) && Blank(c) && line == a + t + c;
    var b, d :| Blank(b) && Blank(d) && t[5..] == b + p + d;
    Rejoined(a, t, c, b, p, d);
    BlankBoth(d, c);
    assert line == Spelt(a, b, p, d + c);
  }

  lemma Rejoined(a: string, t: string, c: string, b: string, p: string, d: string)
    requires "data:" <= t && t[5..] == b + p + d
    ensures a + t + c == Spelt(a, b, p, d + c)
  {
    assert t == "data:" + t[5..];
    assert a + ("data:" + (b + p + d)) + c == a + "data:" + b + p + (d + c);
  }

  lemma BlankBoth(a: string, b: string)
    requires Blank(a) && Blank(b)
    ensures Blank(a + b)
  {
    hide IsSpace;
  }

  lemma TrimmedBare(s: string)
    ensures TrimSpace(s) == "" || Bare(TrimSpace(s))
  {
    hide IsSpace;
    var a := TrimLeftFrom(s);
    var c := TrimRightFrom(TrimLeft(s));
    var t := TrimSpace(s);
    if t != "" { assert t[0] == TrimLeft(s)[0]; }
  }

  lemma PlainCharacters(p: string, gap: string, ending: string)
    requires p != "" && '!' <= p[0] <= '~' && '!' <= p[|p| - 1] <= '~'
    requires gap in {"", " ", "\t"} && ending in {"", "\n", "\r\n"}
    ensures Bare(p) && Bare("[DONE]") && Blank("") && Blank(gap) && Blank(ending)
  {
    assert IsSpace(' ') && IsSpace('\t') && IsSpace('\r') && IsSpace('\n') && !IsSpace('[') && !IsSpace(']');
    hide IsSpace;
    assert forall c :: c in gap ==> c == ' ' || c == '\t';
    assert forall c :: c in ending ==> c == '\r' || c == '\n';
  }

  /** The characters that appear in practice: a data line as upstreams send it, and lines that carry
      nothing. */
  lemma PlainDataLine(p: string, gap: string, ending: string)
    requires p != "" && p != "[DONE]" && '!' <= p[0] <= '~' && '!' <= p[|p| - 1] <= '~'
    requires gap in {"", " ", "\t"} && ending in {"", "\n", "\r\n"}
    ensures Payload("data:" + gap + p + ending) == Some(p)
    ensures Payload("data:" + gap + "[DONE]" + ending) == None
    ensures Payload(": " + p + ending) == None && Payload(ending) == None
  {
    PlainCharacters(p, gap, ending);
    hide IsSpace, Bare, Blank, Payload;
    assert "" + "data:" == "data:";
    assert "data:" + gap + p + ending == Spelt("", gap, p, ending);
    PayloadExact("data:" + gap + p + ending, p);
    EndMarkerHasNone(gap, ending);
    CommentHasNone(p, ending);
  }

  lemma EndMarkerHasNone(gap: string, ending: string)
    requires Blank(ending) && Blank(gap) && Blank("") && Bare("[DONE]")
    ensures Payload("data:" + gap + "[DONE]" + ending) == None
  {
    hide IsSpace, Bare, Blank, TrimSpace;
    assert "" + "data:" == "data:";
    TrimmedLine("data:" + gap + "[DONE]" + ending, "", gap, "[DONE]", ending);
  }

  lemma CommentHasNone(p: string, ending: string)
    requires Bare(p) && Blank(ending)
    ensures Payload(": " + p + ending) == None && Payload(ending) == None
  {
    assert !IsSpace(':');
    hide IsSpace;
    var t := ": " + p;
    assert Bare(t) && Blank("");
    assert ": " + p + ending == "" + t + ending;
    TrimExact(": " + p + ending, t);
    assert t[0] == ':';
    assert ending + "" == ending && TrimLeft(ending) == "" by { TrimLeftIs(ending, ""); }
  }

  predicate OccursAt(s: string, sub: string, i: int) {
    0 <= i <= |s| - |sub| && s[i..i + |sub|] == sub
  }

  predicate Contains(s: string, sub: string) {
    exists i | 0 <= i <= |s| :: OccursAt(s, sub, i)
  }

  /** What a payload decodes to here: its usage, and whether it carries an error. */
  datatype Probe = Probe(usage: Option<Usage>, error: bool)

  /** `swapModel`, `scrub` and `strip` stand for swapModelBytes, scrub.Bytes and the field removal
      of scrubEmptyReasoning; `swapping` tells whether a model mapping is configured. */
  datatype Filter = Filter(swapping: bool, swapModel: string -> string, scrub: string -> string,
                           strip: string -> string, probe: string -> Option<Probe>)

  const EMPTY_FIELD := "\"reasoning_content\""

  function ScrubEmptyReasoning(f: Filter, data: string): string {
    if Contains(data, EMPTY_FIELD) then f.strip(data) else data
  }

  /** The bytes an event leaves as. */
  function Outgoing(f: Filter, event: string): string {
    if event == "" then ""
    else ScrubEmptyReasoning(f, if f.swapping then f.swapModel(event) else event)
  }

  function ProbeLine(f: Filter, line: string): Option<Probe> {
    match Payload(line)
    case None => None
    case Some(p) => f.probe(p)
  }

  /** The line as it is forwarded: an upstream error is rewritten. */
  function ForwardedLine(f: Filter, line: string): string {
    match ProbeLine(f, line)
    case None => line
    case Some(p) => if p.error then "data: " + f.scrub(Payload(line).value) + "\n" else line
  }

  predicate EndsEvent(line: string) { line == "\n" || line == "\r\n" }

  /** Bytes of completed events, and the event being gathered. */
  datatype Relay = Relay(out: string, event: string)

  function Flush(f: Filter, r: Relay): Relay { Relay(r.out + Outgoing(f, r.event), "") }

  function Take(f: Filter, r: Relay, line: string): Relay {
    var forwarded := ForwardedLine(f, line);
    var q := r.(event := r.event + forwarded);
    if EndsEvent(forwarded) then Flush(f, q) else q
  }

  function TakeAll(f: Filter, lines: seq<string>): Relay {
    if lines == [] then Relay("", "") else Take(f, TakeAll(f, lines[..|lines| - 1]), lines[|lines| - 1])
  }

  /** Everything a client that stays receives. */
  function FullOutput(f: Filter, up: Upstream): string {
    Flush(f, Take(f, TakeAll(f, up.lines), up.tail)).out
  }

  /** The last usage among the lines read. */
  function UsageIn(f: Filter, lines: seq<string>): Option<Usage> {
    if lines == [] then None
    else
      var p := ProbeLine(f, lines[|lines| - 1]);
      if p.Some? && p.value.usage.Some? then p.value.usage else UsageIn(f, lines[..|lines| - 1])
  }

  // ---- What is harvested and what is sent, line by line ----

  /** The line reports this usage. */
  ghost predicate Tells(f: Filter, line: string, u: Usage) {
    exists p :: Carries(line, p) && f.probe(p).Some? && f.probe(p).value.usage == Some(u)
  }

  /** The usage last reported, if any is. */
  ghost predicate Harvested(f: Filter, lines: seq<string>, usage: Option<Usage>) {
    match usage
    case None => forall k, u :: 0 <= k < |lines| ==> !Tells(f, lines[k], u)
    case Some(u) =>
      exists k :: 0 <= k < |lines| && Tells(f, lines[k], u) && forall j, v :: k < j < |lines| ==> !Tells(f, lines[j], v)
  }

  lemma LineTells(f: Filter, line: string)
    ensures var p := ProbeLine(f, line);
            forall u :: Tells(f, line, u) <==> p.Some? && p.value.usage == Some(u)
  {
    hide Payload, Carries;
    forall p ensures Payload(line) == Some(p) <==> Carries(line, p) { PayloadExact(line, p); }
  }

  lemma {:induction false} UsageHarvested(f: Filter, lines: seq<string>)
    ensures Harvested(f, lines, UsageIn(f, lines))
  {
    hide ProbeLine, Tells;
    if lines != [] {
      var n := |lines| - 1;
      var rest := lines[..n];
      UsageHarvested(f, rest);
      LineTells(f, lines[n]);
      assert forall k :: 0 <= k < n ==> rest[k] == lines[k];
    }
  }

  /** An error event leaves scrubbed, any other line as it came. */
  ghost predicate ForwardedAs(f: Filter, line: string, out: string) {
    && (forall p :: Carries(line, p) && f.probe(p).Some? && f.probe(p).value.error ==>
          out == "data: " + f.scrub(p) + "\n")
    && ((forall p :: Carries(line, p) ==> !(f.probe(p).Some? && f.probe(p).value.error)) ==> out == line)
  }

  lemma ForwardedExact(f: Filter, line: string)
    ensures ForwardedAs(f, line, ForwardedLine(f, line))
  {
    hide Payload, Carries;
    forall p ensures Payload(line) == Some(p) <==> Carries(line, p) { PayloadExact(line, p); }
  }

  /** Lines up to and including the first blank one. */
  predicate WholeEvent(lines: seq<string>) {
    lines != [] && lines[|lines| - 1] in {"\n", "\r\n"} && NoBlank(lines[..|lines| - 1])
  }

  predicate NoBlank(lines: seq<string>) { forall l :: l in lines ==> l != "\n" && l != "\r\n" }

  function Forwarded(f: Filter, lines: seq<string>): seq<string> {
    seq(|lines|, i requires 0 <= i < |lines| => ForwardedLine(f, lines[i]))
  }

  function Joined(events: seq<seq<string>>): seq<string> {
    if events == [] then [] else Joined(events[..|events| - 1]) + events[|events| - 1]
  }

  /** Each event rewritten on its own. */
  function SentEvents(f: Filter, events: seq<seq<string>>): string {
    if events == [] then ""
    else SentEvents(f, events[..|events| - 1]) + Outgoing(f, Flatten(Forwarded(f, events[|events| - 1])))
  }

  /** With a mapping an event goes through the renaming; one that then has a reasoning_content field
      goes through its removal; nothing else is done. */
  lemma OutgoingExact(f: Filter, event: string, renamed: string)
    requires event != "" && (f.swapping ==> renamed == f.swapModel(event)) && (!f.swapping ==> renamed == event)
    ensures Contains(renamed, "\"reasoning_content\"") ==> Outgoing(f, event) == f.strip(renamed)
    ensures !Contains(renamed, "\"reasoning_content\"") ==> Outgoing(f, event) == renamed
  {
    hide Contains;
  }

  lemma BlankStays(f: Filter, line: string)
    ensures EndsEvent(ForwardedLine(f, line)) <==> line == "\n" || line == "\r\n"
    ensures line == "\n" || line == "\r\n" ==> ForwardedLine(f, line) == line
  {
    if line == "\n" || line == "\r\n" {
      assert IsSpace('\n') && IsSpace('\r');
      hide IsSpace;
      assert forall c :: c in line ==> IsSpace(c);
      assert line + "" == line && TrimLeft(line) == "" by { TrimLeftIs(line, ""); }
    } else {
      hide Payload;
      if ForwardedLine(f, line) != line { assert ForwardedLine(f, line)[0] == 'd'; }
    }
  }

  lemma {:induction false} LinesGathered(f: Filter, before: seq<string>, lines: seq<string>)
    requires NoBlank(lines)
    ensures var r := TakeAll(f, before);
            TakeAll(f, before + lines) == r.(event := r.event + Flatten(Forwarded(f, lines)))
  {
    hide ForwardedLine, Outgoing;
    var r := TakeAll(f, before);
    if lines == [] {
      assert before + lines == before && Forwarded(f, lines) == [] && r.event + "" == r.event;
    } else {
      var k := |lines| - 1;
      var rest, last := lines[..k], lines[k];
      assert last in lines && forall l :: l in rest ==> l in lines;
      LinesGathered(f, before, rest);
      BlankStays(f, last);
      assert (before + lines)[..|before + lines| - 1] == before + rest;
      assert Forwarded(f, lines) == Forwarded(f, rest) + [ForwardedLine(f, last)];
      FlattenSnoc(Forwarded(f, rest), ForwardedLine(f, last));
      Regroup(r.event, Flatten(Forwarded(f, rest)), ForwardedLine(f, last));
    }
  }

  lemma EventFlushed(f: Filter, before: seq<string>, event: seq<string>)
    requires WholeEvent(event) && TakeAll(f, before).event == ""
    ensures TakeAll(f, before + event)
         == Relay(TakeAll(f, before).out + Outgoing(f, Flatten(Forwarded(f, event))), "")
  {
    hide ForwardedLine, Outgoing, Flatten;
    var k := |event| - 1;
    var rest, last := event[..k], event[k];
    LinesGathered(f, before, rest);
    BlankStays(f, last);
    assert (before + event)[..|before + event| - 1] == before + rest;
    assert Forwarded(f, event) == Forwarded(f, rest) + [ForwardedLine(f, last)];
    FlattenSnoc(Forwarded(f, rest), ForwardedLine(f, last));
    assert "" + Flatten(Forwarded(f, rest)) == Flatten(Forwarded(f, rest));
  }

  lemma {:induction false} EventsFlushed(f: Filter, events: seq<seq<string>>)
    requires forall e :: e in events ==> WholeEvent(e)
    ensures TakeAll(f, Joined(events)) == Relay(SentEvents(f, events), "")
  {
    hide Take, WholeEvent, Outgoing;
    if events != [] {
      var k := |events| - 1;
      assert events[k] in events && forall e :: e in events[..k] ==> e in events;
      EventsFlushed(f, events[..k]);
      EventFlushed(f, Joined(events[..k]), events[k]);
    }
  }

  /** A body of whole events and a rest leaves event by event: each line as ForwardedExact says, each
      event as OutgoingExact says. */
  lemma BodyRelayed(f: Filter, up: Upstream, events: seq<seq<string>>, rest: seq<string>)
    requires up.lines == Joined(events) + rest && (forall e :: e in events ==> WholeEvent(e)) && NoBlank(rest)
    ensures FullOutput(f, up)
         == SentEvents(f, events) + Outgoing(f, Flatten(Forwarded(f, rest)) + ForwardedLine(f, up.tail))
  {
    hide ForwardedLine, Outgoing, WholeEvent, Flatten;
    EventsFlushed(f, events);
    LinesGathered(f, Joined(events), rest);
    TailFlush(f, TakeAll(f, up.lines), up.tail);
    assert "" + Flatten(Forwarded(f, rest)) == Flatten(Forwarded(f, rest));
  }

  // ---- The loop ----

  /** Writes the gathered event, if any. */
  method WriteEvent(f: Filter, gw: GatedWriter, event: string)
    requires gw.Valid()
    modifies gw
    ensures gw.offered == old(gw.offered) + Outgoing(f, event)
    ensures gw.Valid()
  {
    if event == "" { return; }
    var bytes := event;
    if f.swapping { bytes := f.swapModel(bytes); }
    bytes := ScrubEmptyReasoning(f, bytes);
    var n := gw.Write(bytes);
    gw.Flush();
  }

  /** Relays one upstream body to one client. The usage and the error reported do not depend on
      the client; the client receives a prefix of the full output, all of it when it stays. */
  method PipeSse(client: Client, f: Filter, up: Upstream)
    returns (usage: Option<Usage>, gone: bool, failure: Option<string>, sent: string)
    ensures usage == UsageIn(f, Lines(up)) && Harvested(f, Lines(up), usage)
    ensures failure == up.failure
    ensures sent <= FullOutput(f, up)
    ensures sent != FullOutput(f, up) ==> gone
    ensures client.Stays() ==> sent == FullOutput(f, up) && !gone
  {
    hide Outgoing, ForwardedLine, ProbeLine, Harvested;
    UsageHarvested(f, Lines(up));
    var gw := new GatedWriter(client);
    var event, i := "", 0;
    usage := None;
    while true
      invariant 0 <= i <= |up.lines|
      invariant fresh(gw) && gw.client == client && gw.Valid()
      invariant Relay(gw.offered, event) == TakeAll(f, up.lines[..i])
      invariant usage == UsageIn(f, up.lines[..i])
      decreases |up.lines| - i
    {
      var last := i == |up.lines|;
      var line := if last then up.tail else up.lines[i];
      ghost var before := Relay(gw.offered, event);
      var p := ProbeLine(f, line);
      if p.Some? && p.value.usage.Some? { usage := p.value.usage; }
      line := ForwardedLine(f, line);
      event := event + line;
      if last {
        assert Lines(up)[..|up.lines|] == up.lines == up.lines[..i];
        WriteEvent(f, gw, event);
        TailFlush(f, before, up.tail);
        gone := gw.Gone();
        return usage, gone, up.failure, gw.sent;
      }
      if EndsEvent(line) {
        WriteEvent(f, gw, event);
        event := "";
      }
      assert up.lines[..i + 1][..i] == up.lines[..i];
      i := i + 1;
    }
  }

  /** The end of the stream flushes whatever is gathered, blank line or not. */
  lemma TailFlush(f: Filter, r: Relay, tail: string)
    ensures Flush(f, Take(f, r, tail)).out == r.out + Outgoing(f, r.event + ForwardedLine(f, tail))
  {
    var q := r.(event := r.event + ForwardedLine(f, tail));
    assert Flush(f, q).out + "" == Flush(f, q).out;
  }

  // ---- Pass-through ----

  lemma ContainsMono(a: string, b: string, c: string, sub: string)
    requires Contains(b, sub)
    ensures Contains(a + b + c, sub)
  {
    var i :| 0 <= i <= |b| && OccursAt(b, sub, i);
    var whole := a + b + c;
    assert whole[|a| + i..|a| + i + |sub|] == b[i..i + |sub|];
    assert OccursAt(whole, sub, |a| + i);
  }

  /** Nothing in the body calls for a rewrite. */
  ghost predicate Plain(f: Filter, up: Upstream) {
    && !f.swapping
    && (forall i :: 0 <= i < |Lines(up)| ==> ProbeLine(f, Lines(up)[i]).Some? ==>
          !ProbeLine(f, Lines(up)[i]).value.error)
    && !Contains(Flatten(Lines(up)), EMPTY_FIELD)
  }

  lemma FlattenSplit(lines: seq<string>, k: nat)
    requires k <= |lines|
    ensures Flatten(lines) == Flatten(lines[..k]) + Flatten(lines[k..])
  {
    if k == 0 {
      assert lines[..0] == [] && lines[0..] == lines;
    } else {
      FlattenSplit(lines[1..], k - 1);
      assert lines[1..][..k - 1] == lines[..k][1..] && lines[1..][k - 1..] == lines[k..];
      Regroup(lines[0], Flatten(lines[..k][1..]), Flatten(lines[k..]));
    }
  }

  lemma Regroup(a: string, b: string, c: string)
    ensures a + (b + c) == (a + b) + c
  {
  }

  lemma FlattenTake(lines: seq<string>, k: nat)
    requires k < |lines|
    ensures Flatten(lines[..k + 1]) == Flatten(lines[..k]) + lines[k]
  {
    assert lines[..k + 1] == lines[..k] + [lines[k]];
    FlattenSnoc(lines[..k], lines[k]);
  }

  /** An event is a stretch of the body, so it has no empty reasoning field either. */
  lemma EventUntouched(f: Filter, up: Upstream, k: nat, out: string, event: string)
    requires Plain(f, up) && k <= |Lines(up)| && Flatten(Lines(up)[..k]) == out + event
    ensures Outgoing(f, event) == event
  {
    if event != "" && Contains(event, EMPTY_FIELD) {
      FlattenSplit(Lines(up), k);
      ContainsMono(out, event, Flatten(Lines(up)[k..]), EMPTY_FIELD);
      assert false;
    }
  }

  lemma PlainLine(f: Filter, up: Upstream, k: nat)
    requires Plain(f, up) && k < |up.lines|
    ensures ForwardedLine(f, up.lines[k]) == up.lines[k]
  {
    assert Lines(up)[k] == up.lines[k];
  }

  lemma {:induction false} BytesKept(f: Filter, up: Upstream, k: nat)
    requires Plain(f, up) && k <= |up.lines|
    ensures var r := TakeAll(f, up.lines[..k]); r.out + r.event == Flatten(Lines(up)[..k])
  {
    hide Outgoing, Payload, ProbeLine, Plain, ForwardedLine, Contains;
    if k > 0 {
      PlainLine(f, up, k - 1);
      BytesKept(f, up, k - 1);
      var r, line := TakeAll(f, up.lines[..k - 1]), up.lines[k - 1];
      assert up.lines[..k][..k - 1] == up.lines[..k - 1];
      assert Lines(up)[k - 1] == line && ForwardedLine(f, line) == line;
      FlattenTake(Lines(up), k - 1);
      assert r.out + (r.event + line) == (r.out + r.event) + line;
      EventUntouched(f, up, k, r.out, r.event + line);
      assert TakeAll(f, up.lines[..k]) == Take(f, r, line);
    }
  }

  /** With no model mapping, no error event and no reasoning_content field in the body, exactly
      the bytes read are delivered. */
  lemma PassThrough(f: Filter, up: Upstream)
    requires Plain(f, up)
    ensures FullOutput(f, up) == Flatten(Lines(up))
  {
    hide Outgoing, Payload, ProbeLine;
    var n := |up.lines|;
    BytesKept(f, up, n);
    assert up.lines[..n] == up.lines;
    var r := TakeAll(f, up.lines);
    assert Lines(up)[n] == up.tail && ForwardedLine(f, up.tail) == up.tail;
    FlattenTake(Lines(up), n);
    assert Lines(up)[..n + 1] == Lines(up);
    assert r.out + (r.event + up.tail) == (r.out + r.event) + up.tail;
    EventUntouched(f, up, n + 1, r.out, r.event + up.tail);
    TailFlush(f, r, up.tail);
  }
}
