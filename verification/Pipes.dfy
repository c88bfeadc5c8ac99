/** The read loops of the two translating endpoints (internal/gateway/responses.go:690-727,
    internal/gateway/anthropic.go:722-755). `decode` stands for JSON decoding of one payload. */
module Pipes {
  import opened Chunks
  import opened Gate
  import opened Sse
  import Responses
  import ResponsesStream
  import ResponsesAgreement
  import Anthropic
  import AnthropicStream
  import AnthropicAgreement

  /** A configured model mapping: upstream name and public name; empty when there is none. */
  datatype ModelSwap = ModelSwap(upstream: string, public: string)

  function Renamed(swap: ModelSwap, c: Chunk): Chunk {
    if swap.upstream != "" && c.model == swap.upstream then c.(model := swap.public) else c
  }

  function ChunkIn(decode: string -> Option<Chunk>, swap: ModelSwap, line: string): seq<Chunk> {
    match Payload(line)
    case None => []
    case Some(p) =>
      match decode(p)
      case None => []
      case Some(c) => [Renamed(swap, c)]
  }

  /** The chunks of a body: lines that are no data lines or do not decode are skipped. */
  function ChunksIn(decode: string -> Option<Chunk>, swap: ModelSwap, lines: seq<string>): seq<Chunk> {
    if lines == [] then []
    else ChunksIn(decode, swap, lines[..|lines| - 1]) + ChunkIn(decode, swap, lines[|lines| - 1])
  }

  /** The line is a data line whose payload decodes to this chunk, the upstream's name for the model
      replaced where a mapping is configured. */
  ghost predicate Decodes(decode: string -> Option<Chunk>, swap: ModelSwap, line: string, c: Chunk) {
    exists p, d :: Carries(line, p) && decode(p) == Some(d) && MappedTo(swap, d, c)
  }

  predicate MappedTo(swap: ModelSwap, d: Chunk, c: Chunk) {
    && c.choices == d.choices && c.usage == d.usage
    && (swap.upstream != "" && d.model == swap.upstream ==> c.model == swap.public)
    && (swap.upstream == "" || d.model != swap.upstream ==> c.model == d.model)
  }

  /** These are the chunks of the lines that decode, in their order, one each. */
  ghost predicate ReadsAs(decode: string -> Option<Chunk>, swap: ModelSwap, lines: seq<string>, chunks: seq<Chunk>) {
    if lines == [] then chunks == []
    else
      var rest, line := lines[..|lines| - 1], lines[|lines| - 1];
      || (chunks != [] && Decodes(decode, swap, line, chunks[|chunks| - 1])
          && ReadsAs(decode, swap, rest, chunks[..|chunks| - 1]))
      || ((forall c :: !Decodes(decode, swap, line, c)) && ReadsAs(decode, swap, rest, chunks))
  }

  lemma ChunkInExact(decode: string -> Option<Chunk>, swap: ModelSwap, line: string)
    ensures forall c :: Decodes(decode, swap, line, c) <==> ChunkIn(decode, swap, line) == [c]
    ensures ChunkIn(decode, swap, line) == [] <==> forall c :: !Decodes(decode, swap, line, c)
  {
    hide Payload, Carries;
    forall p ensures Payload(line) == Some(p) <==> Carries(line, p) { PayloadExact(line, p); }
    if ChunkIn(decode, swap, line) != [] {
      var c := ChunkIn(decode, swap, line)[0];
      assert MappedTo(swap, decode(Payload(line).value).value, c);
      assert Decodes(decode, swap, line, c);
    }
  }

  /** What reaches a translator: the chunks of exactly the data lines that decode. */
  lemma {:induction false} ChunksInExact(decode: string -> Option<Chunk>, swap: ModelSwap, lines: seq<string>,
                                         chunks: seq<Chunk>)
    ensures ReadsAs(decode, swap, lines, chunks) <==> chunks == ChunksIn(decode, swap, lines)
  {
    hide ChunkIn, Decodes;
    if lines != [] {
      var rest, line := lines[..|lines| - 1], lines[|lines| - 1];
      ChunkInExact(decode, swap, line);
      var before, here := ChunksIn(decode, swap, rest), ChunkIn(decode, swap, line);
      if here == [] {
        assert before + here == before;
        ChunksInExact(decode, swap, rest, chunks);
      } else {
        AtMostOne(decode, swap, line);
        assert Decodes(decode, swap, line, here[0]) by { assert here == [here[0]]; }
        if chunks != [] {
          var k := |chunks| - 1;
          ChunksInExact(decode, swap, rest, chunks[..k]);
          assert chunks == chunks[..k] + [chunks[k]];
          assert (before + here)[..|before|] == before;
        }
      }
    }
  }

  lemma AtMostOne(decode: string -> Option<Chunk>, swap: ModelSwap, line: string)
    ensures |ChunkIn(decode, swap, line)| <= 1
  {
  }

  lemma ChunksInTake(decode: string -> Option<Chunk>, swap: ModelSwap, lines: seq<string>, k: nat)
    requires k < |lines|
    ensures ChunksIn(decode, swap, lines[..k + 1])
         == ChunksIn(decode, swap, lines[..k]) + ChunkIn(decode, swap, lines[k])
  {
    assert lines[..k + 1][..k] == lines[..k];
  }

  /** The state of the Responses translator when the upstream body has been read. */
  function ResponsesRead(canon: string -> string, decode: string -> Option<Chunk>, swap: ModelSwap, up: Upstream)
    : Responses.State
  {
    Responses.HandleAll(canon, Responses.Start(swap.public), ChunksIn(decode, swap, Lines(up)))
  }

  /** Its state after what is sent last. */
  function ResponsesEnd(canon: string -> string, decode: string -> Option<Chunk>, swap: ModelSwap, up: Upstream)
    : Responses.State
  {
    var s := ResponsesRead(canon, decode, swap, up);
    match up.failure
    case None => Responses.Finish(canon, s)
    case Some(message) => Responses.Fail(s, message)
  }

  /** Handling the chunks of one more line. */
  lemma ResponsesNext(canon: string -> string, s: Responses.State, decode: string -> Option<Chunk>, swap: ModelSwap,
                      lines: seq<string>, k: nat)
    requires k < |lines|
    ensures Responses.HandleAll(canon, s, ChunksIn(decode, swap, lines[..k + 1]))
         == Responses.HandleAll(canon, Responses.HandleAll(canon, s, ChunksIn(decode, swap, lines[..k])),
                                ChunkIn(decode, swap, lines[k]))
  {
    hide Responses.Handle, Payload;
    var chunks, more := ChunksIn(decode, swap, lines[..k]), ChunkIn(decode, swap, lines[k]);
    ChunksInTake(decode, swap, lines, k);
    if more == [] {
      assert chunks + more == chunks;
    } else {
      assert more == [more[0]] && more[..0] == [];
      assert (chunks + more)[..|chunks|] == chunks;
    }
  }

  lemma ResponsesUsage(canon: string -> string, start: string, chunks: seq<Chunk>)
    ensures Responses.HandleAll(canon, Responses.Start(start), chunks).head.usage == LastUsage(chunks)
  {
    ResponsesAgreement.StreamHead(canon, start, chunks);
  }

  /** One line of the body. */
  method ResponsesLine(tr: ResponsesStream.RespStreamTranslator, decode: string -> Option<Chunk>, swap: ModelSwap,
                       line: string)
    requires tr.Valid()
    modifies tr, tr.w
    ensures tr.Valid()
    ensures tr.View() == Responses.HandleAll(tr.canon, old(tr.View()), ChunkIn(decode, swap, line))
  {
    hide Responses.Handle, Payload;
    match Payload(line) {
      case None =>
      case Some(payload) =>
        match decode(payload) {
          case None =>
          case Some(chunk) =>
            tr.HandleChunk(Renamed(swap, chunk));
            assert [Renamed(swap, chunk)][..0] == [];
        }
    }
  }

  /** What is billed and reported depends on the upstream alone, however and whenever the client
      leaves; the client receives a prefix of the rendered events, all of them when it stays. Whether it
      has left is asked before the last events are sent: a client not reported gone lacks none but
      those. */
  method ResponsesPipe(client: Client, canon: string -> string, render: Responses.Event -> string,
                       decode: string -> Option<Chunk>, swap: ModelSwap, up: Upstream)
    returns (usage: Option<Usage>, gone: bool, failure: Option<string>, sent: string)
    ensures usage == LastUsage(ChunksIn(decode, swap, Lines(up)))
    ensures failure == up.failure
    ensures sent <= Rendered(render, ResponsesEnd(canon, decode, swap, up).events)
    ensures !gone ==> Rendered(render, ResponsesRead(canon, decode, swap, up).events) <= sent
    ensures client.Stays() ==>
              !gone && sent == Rendered(render, ResponsesEnd(canon, decode, swap, up).events)
  {
    hide Responses.HandleAll, Responses.Finish, Responses.Fail, Rendered, ChunkIn, ChunksIn, LastUsage;
    var gw := new GatedWriter(client);
    var tr := new ResponsesStream.RespStreamTranslator(gw, canon, render, swap.public);
    ghost var s0, lines := Responses.Start(swap.public), Lines(up);
    ResponsesNone(canon, s0, decode, swap);
    var i := 0;
    while true
      invariant 0 <= i <= |up.lines|
      invariant fresh(gw) && fresh(tr) && gw.client == client && tr.w == gw && tr.canon == canon && tr.render == render
      invariant tr.Valid()
      invariant tr.View() == Responses.HandleAll(canon, s0, ChunksIn(decode, swap, lines[..i]))
      decreases |up.lines| - i
    {
      var last := i == |up.lines|;
      var line := if last then up.tail else up.lines[i];
      assert line == lines[i];
      ResponsesLine(tr, decode, swap, line);
      ResponsesNext(canon, s0, decode, swap, lines, i);
      if last {
        assert lines[..i + 1] == lines;
        ResponsesUsage(canon, swap.public, ChunksIn(decode, swap, lines));
        usage := tr.head.usage;
        gone := gw.Gone();
        match up.failure {
          case None => tr.Done();
          case Some(message) => tr.Abort(message);
        }
        return usage, gone, up.failure, gw.sent;
      }
      i := i + 1;
    }
  }

  lemma ResponsesNone(canon: string -> string, s: Responses.State, decode: string -> Option<Chunk>, swap: ModelSwap)
    ensures forall lines: seq<string> :: Responses.HandleAll(canon, s, ChunksIn(decode, swap, lines[..0])) == s
  {
  }

  /** The state of the Anthropic translator when the upstream body has been read. */
  function AnthropicRead(decode: string -> Option<Chunk>, swap: ModelSwap, up: Upstream): Anthropic.State {
    Anthropic.HandleAll(Anthropic.Start(swap.public), ChunksIn(decode, swap, Lines(up)))
  }

  function AnthropicEnd(decode: string -> Option<Chunk>, swap: ModelSwap, up: Upstream): Anthropic.State {
    var s := AnthropicRead(decode, swap, up);
    match up.failure
    case None => Anthropic.Finish(s)
    case Some(message) => Anthropic.Fail(s, message)
  }

  lemma AnthropicNext(s: Anthropic.State, decode: string -> Option<Chunk>, swap: ModelSwap,
                      lines: seq<string>, k: nat)
    requires k < |lines|
    ensures Anthropic.HandleAll(s, ChunksIn(decode, swap, lines[..k + 1]))
         == Anthropic.HandleAll(Anthropic.HandleAll(s, ChunksIn(decode, swap, lines[..k])),
                                ChunkIn(decode, swap, lines[k]))
  {
    hide Anthropic.Handle, Payload;
    var chunks, more := ChunksIn(decode, swap, lines[..k]), ChunkIn(decode, swap, lines[k]);
    ChunksInTake(decode, swap, lines, k);
    if more == [] {
      assert chunks + more == chunks;
    } else {
      assert more == [more[0]] && more[..0] == [];
      assert (chunks + more)[..|chunks|] == chunks;
    }
  }

  lemma AnthropicUsage(start: string, chunks: seq<Chunk>)
    ensures Anthropic.HandleAll(Anthropic.Start(start), chunks).usage == LastUsage(chunks)
  {
    AnthropicAgreement.StreamStop(start, chunks);
  }

  method AnthropicLine(tr: AnthropicStream.AnthStreamTranslator, decode: string -> Option<Chunk>, swap: ModelSwap,
                       line: string)
    requires tr.Valid()
    modifies tr, tr.w
    ensures tr.Valid()
    ensures tr.View() == Anthropic.HandleAll(old(tr.View()), ChunkIn(decode, swap, line))
  {
    hide Anthropic.Handle, Payload;
    match Payload(line) {
      case None =>
      case Some(payload) =>
        match decode(payload) {
          case None =>
          case Some(chunk) =>
            tr.HandleChunk(Renamed(swap, chunk));
            assert [Renamed(swap, chunk)][..0] == [];
        }
    }
  }

  lemma AnthropicNone(s: Anthropic.State, decode: string -> Option<Chunk>, swap: ModelSwap)
    ensures forall lines: seq<string> :: Anthropic.HandleAll(s, ChunksIn(decode, swap, lines[..0])) == s
  {
  }

  /** As ResponsesPipe, for the Anthropic endpoint. */
  method AnthropicPipe(client: Client, render: Anthropic.Event -> string,
                       decode: string -> Option<Chunk>, swap: ModelSwap, up: Upstream)
    returns (usage: Option<Usage>, gone: bool, failure: Option<string>, sent: string)
    ensures usage == LastUsage(ChunksIn(decode, swap, Lines(up)))
    ensures failure == up.failure
    ensures sent <= Rendered(render, AnthropicEnd(decode, swap, up).events)
    ensures !gone ==> Rendered(render, AnthropicRead(decode, swap, up).events) <= sent
    ensures client.Stays() ==>
              !gone && sent == Rendered(render, AnthropicEnd(decode, swap, up).events)
  {
    hide Anthropic.HandleAll, Anthropic.Finish, Anthropic.Fail, Rendered, ChunkIn, ChunksIn, LastUsage;
    var gw := new GatedWriter(client);
    var tr := new AnthropicStream.AnthStreamTranslator(gw, render, swap.public);
    ghost var s0, lines := Anthropic.Start(swap.public), Lines(up);
    AnthropicNone(s0, decode, swap);
    var i := 0;
    while true
      invariant 0 <= i <= |up.lines|
      invariant fresh(gw) && fresh(tr) && gw.client == client && tr.w == gw && tr.render == render
      invariant tr.Valid()
      invariant tr.View() == Anthropic.HandleAll(s0, ChunksIn(decode, swap, lines[..i]))
      decreases |up.lines| - i
    {
      var last := i == |up.lines|;
      var line := if last then up.tail else up.lines[i];
      assert line == lines[i];
      AnthropicLine(tr, decode, swap, line);
      AnthropicNext(s0, decode, swap, lines, i);
      if last {
        assert lines[..i + 1] == lines;
        AnthropicUsage(swap.public, ChunksIn(decode, swap, lines));
        usage := tr.usage;
        gone := gw.Gone();
        match up.failure {
          case None => tr.Done();
          case Some(message) => tr.Abort(message);
        }
        return usage, gone, up.failure, gw.sent;
      }
      i := i + 1;
    }
  }
}
