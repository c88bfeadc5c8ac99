/** The non-streaming encoder (internal/gateway/responses.go:306-375). */
module ResponsesEncoder {
  import opened Chunks
  import opened Responses

  /** The output list of a complete reply: reasoning first, then text, then the calls in order. */
  function OutputOf(canon: string -> string, c: ReplyChoice): seq<Item> {
    (if c.reasoning != "" then [ReasoningItem("rs_0", c.reasoning)] else [])
    + (if c.content != "" then [MessageItem("msg_0", c.content)] else [])
    + FunctionItems(canon, c.tools)
  }

  function FunctionItems(canon: string -> string, tools: seq<ToolCall>): seq<Item> {
    seq(|tools|, i requires 0 <= i < |tools| =>
          FunctionItem("fc_" + Decimal(i), tools[i].name, tools[i].id, canon(tools[i].args)))
  }

  function EncodedResponse(canon: string -> string, r: Reply, fallbackModel: string): Response {
    Response(if r.id != "" then "resp_" + r.id else RESP_ID,
             if r.choices != [] && r.choices[0].finish == "length" then Incomplete else Completed,
             if r.model == "" then fallbackModel else r.model,
             if r.choices == [] then [] else OutputOf(canon, r.choices[0]),
             RespUsageOf(r.usage), None)
  }

  /** The reasoning if there is any, the text if there is any, then the calls, under ids made from
      their places. */
  lemma OutputExact(canon: string -> string, c: ReplyChoice)
    ensures var out := OutputOf(canon, c);
            var calls := |out| - |c.tools|;
            && calls == (if c.reasoning != "" then 1 else 0) + (if c.content != "" then 1 else 0)
            && (c.reasoning != "" ==> out[0] == ReasoningItem("rs_0", c.reasoning))
            && (c.content != "" ==> out[calls - 1] == MessageItem("msg_0", c.content))
            && forall i :: 0 <= i < |c.tools| ==>
                 var t := c.tools[i]; out[calls + i] == FunctionItem("fc_" + Decimal(i), t.name, t.id, canon(t.args))
  {
    hide Decimal;
  }

  method EncodeResponse(canon: string -> string, r: Reply, fallbackModel: string)
    returns (resp: Response, usage: Option<Usage>)
    ensures resp == EncodedResponse(canon, r, fallbackModel)
    ensures (r.id == "" ==> resp.id == "resp_gateway") && (r.id != "" ==> resp.id == "resp_" + r.id)
    ensures (r.model == "" ==> resp.model == fallbackModel) && (r.model != "" ==> resp.model == r.model)
    ensures resp.status == if r.choices != [] && r.choices[0].finish == "length" then Incomplete else Completed
    ensures r.choices == [] ==> resp.output == []
    ensures usage == r.usage && resp.error == None
  {
    var model := r.model;
    if model == "" { model := fallbackModel; }
    var id := RESP_ID;
    if r.id != "" { id := "resp_" + r.id; }
    var status, finish := Completed, "";
    if |r.choices| > 0 { finish := r.choices[0].finish; }
    if finish == "length" { status := Incomplete; }
    var output: seq<Item> := [];
    if |r.choices| > 0 {
      var msg := r.choices[0];
      if msg.reasoning != "" { output := output + [ReasoningItem("rs_0", msg.reasoning)]; }
      if msg.content != "" { output := output + [MessageItem("msg_0", msg.content)]; }
      ghost var head := output;
      for i := 0 to |msg.tools|
        invariant output == head + FunctionItems(canon, msg.tools)[..i]
      {
        var tc := msg.tools[i];
        output := output + [FunctionItem("fc_" + Decimal(i), tc.name, tc.id, canon(tc.args))];
      }
      assert output == OutputOf(canon, msg);
    }
    return Response(id, status, model, output, RespUsageOf(r.usage), None), r.usage;
  }
}
