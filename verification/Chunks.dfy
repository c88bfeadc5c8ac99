/** What both translators read: OpenAI chat/completions chunks and complete replies, after JSON
    decoding (internal/gateway/anthropic.go, internal/gateway/handler.go). */
module Chunks {
  import opened Words

  datatype Option<+T> = None | Some(value: T)

  /** The billing fields of an OpenAI-compatible usage object, in both cache dialects. */
  datatype Usage = Usage(promptTokens: int64, completionTokens: int64, promptCacheHitTokens: int64,
                         detailsCachedTokens: Option<int64>)
  {
    /** Cached prompt tokens: the larger of the two dialects. */
    function CachedTokens(): (r: int64)
      ensures r >= promptCacheHitTokens && (detailsCachedTokens.Some? ==> r >= detailsCachedTokens.value)
      ensures r == promptCacheHitTokens || detailsCachedTokens == Some(r)
    {
      if detailsCachedTokens.Some? && detailsCachedTokens.value > promptCacheHitTokens
      then detailsCachedTokens.value else promptCacheHitTokens
    }
  }

  datatype ToolFragment = ToolFragment(index: Option<int>, id: string, name: string, args: string)

  datatype Choice = Choice(content: string, reasoning: string, tools: seq<ToolFragment>, finish: string)

  datatype Chunk = Chunk(model: string, choices: seq<Choice>, usage: Option<Usage>)

  datatype ToolCall = ToolCall(id: string, name: string, args: string)

  /** `content` is the decoded text; null and non-string content read as "". */
  datatype ReplyChoice = ReplyChoice(content: string, reasoning: string, tools: seq<ToolCall>, finish: string)

  datatype Reply = Reply(id: string, model: string, choices: seq<ReplyChoice>, usage: Option<Usage>)

  /** The pieces of text a chunk carries, in the order the translators look at them. */
  datatype Fragment = Think(text: string) | Say(text: string) | Call(tool: ToolFragment)

  function ToolFragments(tools: seq<ToolFragment>): (fs: seq<Fragment>) {
    seq(|tools|, i requires 0 <= i < |tools| => Call(tools[i]))
  }

  function ChoiceFragments(c: Choice): seq<Fragment> {
    [Think(c.reasoning), Say(c.content)] + ToolFragments(c.tools)
  }

  function Fragments(choices: seq<Choice>): seq<Fragment> {
    if choices == [] then []
    else Fragments(choices[..|choices| - 1]) + ChoiceFragments(choices[|choices| - 1])
  }

  function StreamFragments(chunks: seq<Chunk>): seq<Fragment> {
    if chunks == [] then []
    else StreamFragments(chunks[..|chunks| - 1]) + Fragments(chunks[|chunks| - 1].choices)
  }

  /** The usage billed: the last one the upstream sent. */
  function LastUsage(chunks: seq<Chunk>): Option<Usage> {
    if chunks == [] then None
    else if chunks[|chunks| - 1].usage.Some? then chunks[|chunks| - 1].usage
    else LastUsage(chunks[..|chunks| - 1])
  }

  function Flatten(texts: seq<string>): string {
    if texts == [] then "" else texts[0] + Flatten(texts[1..])
  }

  lemma FlattenSnoc(texts: seq<string>, t: string)
    ensures Flatten(texts + [t]) == Flatten(texts) + t
  {
    if texts == [] {
      assert [t][1..] == [];
    } else {
      FlattenSnoc(texts[1..], t);
      assert (texts + [t])[1..] == texts[1..] + [t];
      assert texts[0] + (Flatten(texts[1..]) + t) == (texts[0] + Flatten(texts[1..])) + t;
    }
  }

  /** Decimal rendering, the `%d` of `fmt.Sprintf` for non-negative numbers. */
  function Decimal(n: nat): (s: string)
    ensures |s| > 0
  {
    var digit := "0123456789"[n % 10];
    if n < 10 then [digit] else Decimal(n / 10) + [digit]
  }

  /** The `%02d` of `fmt.Sprintf` for non-negative numbers. */
  function Decimal2(n: nat): string {
    if n < 10 then "0" + Decimal(n) else Decimal(n)
  }

  /** The number a string of digits stands for. */
  function Number(s: string): int {
    if s == "" then 0 else 10 * Number(s[..|s| - 1]) + (s[|s| - 1] as int - '0' as int)
  }

  predicate Digits(s: string) { forall c :: c in s ==> '0' <= c <= '9' }

  /** The rendering is the number's, in digits, without a leading zero. */
  lemma {:induction false} DecimalExact(n: nat)
    ensures Digits(Decimal(n)) && Number(Decimal(n)) == n && (n > 0 ==> Decimal(n)[0] != '0')
  {
    var d := "0123456789"[n % 10];
    assert d as int == '0' as int + n % 10;
    if n < 10 {
      assert [d][..0] == "";
    } else {
      DecimalExact(n / 10);
      var rest := Decimal(n / 10);
      assert (rest + [d])[..|rest|] == rest;
    }
  }

  lemma DecimalInjective(m: nat, n: nat)
    ensures Decimal(m) == Decimal(n) <==> m == n
  {
    DecimalExact(m);
    DecimalExact(n);
  }

  /** Two digits at least. */
  lemma {:induction false} Decimal2Exact(n: nat)
    ensures Digits(Decimal2(n)) && Number(Decimal2(n)) == n && |Decimal2(n)| >= 2
  {
    DecimalExact(n);
    if n < 10 {
      assert Decimal(n) == [Decimal(n)[0]] && Decimal(n)[..0] == "";
      assert Decimal2(n)[..1] == "0" && "0"[..0] == "";
    } else {
      assert |Decimal(n / 10)| > 0;
    }
  }
}
