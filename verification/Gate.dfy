/** The client side of a stream (internal/gateway/sse.go): the gated writer swallows everything
    once the client has left, so that the read loop can go on harvesting usage. */
module Gate {
  import opened Chunks

  /** How one client behaves: its request context is found cancelled from look number `leavesAt`
      on, and the first write made after `breaksAt` looks fails, having delivered `partial`
      bytes. */
  datatype Client = Client(leavesAt: Option<nat>, breaksAt: Option<nat>, partial: nat)
  {
    predicate Disconnected(look: nat) {
      leavesAt.Some? && leavesAt.value <= look
    }

    predicate Breaks(look: nat) {
      breaksAt.Some? && breaksAt.value <= look
    }

    /** A client that stays to the end on a connection that never breaks. */
    predicate Stays() {
      leavesAt.None? && breaksAt.None?
    }
  }

  /** All events of a translator as the bytes it writes. */
  function Rendered<E>(render: E -> string, events: seq<E>): string {
    if events == [] then ""
    else Rendered(render, events[..|events| - 1]) + render(events[|events| - 1])
  }

  lemma RenderedSnoc<E>(render: E -> string, events: seq<E>, e: E)
    ensures Rendered(render, events + [e]) == Rendered(render, events) + render(e)
  {
    assert (events + [e])[..|events|] == events;
  }

  /** Nothing but the events, one after the other. */
  lemma {:induction false} RenderedFlat<E>(render: E -> string, events: seq<E>)
    ensures Rendered(render, events) == Flatten(seq(|events|, i requires 0 <= i < |events| => render(events[i])))
  {
    if events != [] {
      var k := |events| - 1;
      RenderedFlat(render, events[..k]);
      var texts := seq(k, i requires 0 <= i < k => render(events[..k][i]));
      FlattenSnoc(texts, render(events[k]));
      assert texts + [render(events[k])] == seq(|events|, i requires 0 <= i < |events| => render(events[i]));
    }
  }

  class GatedWriter {
    const client: Client
    var looks: nat
    var failed: bool
    /** Bytes the client received. */
    var sent: string
    /** Bytes handed to Write, and those of them the client missed: a suffix. */
    ghost var offered: string
    ghost var missed: string

    constructor (client: Client)
      ensures Valid() && offered == "" && sent == "" && missed == "" && this.client == client
    {
      this.client := client;
      looks, failed, sent, offered, missed := 0, false, "", "", "";
    }

    predicate Dead()
      reads this
    {
      failed || client.Disconnected(looks)
    }

    /** The client has received a prefix of what was offered, and something is missing only if
        the writer will drop everything from now on. */
    ghost predicate Valid()
      reads this
    {
      && offered == sent + missed
      && (missed != "" ==> Dead())
      && (client.Stays() ==> !failed)
    }

    method Gone() returns (gone: bool)
      requires Valid()
      modifies this`looks
      ensures Valid()
      ensures gone == old(Dead())
      ensures gone <==> old(failed) || (client.leavesAt.Some? && client.leavesAt.value <= old(looks))
      ensures looks == old(looks) + if old(failed) then 0 else 1
      ensures gone ==> Dead()
      ensures !gone ==> sent == offered
    {
      if failed { return true; }
      gone := client.Disconnected(looks);
      looks := looks + 1;
    }

    /** Always reports full success. A client that has left receives nothing more. */
    method Write(p: string) returns (n: nat)
      requires Valid()
      modifies this`looks, this`failed, this`sent, this`offered, this`missed
      ensures Valid()
      ensures n == |p|
      ensures offered == old(offered) + p && old(sent) <= sent
      ensures old(Dead()) ==> sent == old(sent) && Dead()
      ensures old(failed) || (client.leavesAt.Some? && client.leavesAt.value <= old(looks)) ==> sent == old(sent)
      ensures !old(failed) && (client.leavesAt.Some? ==> old(looks) < client.leavesAt.value) ==>
                if client.breaksAt.Some? && client.breaksAt.value <= old(looks) + 1
                then failed && sent == old(sent) + p[..if client.partial < |p| then client.partial else |p|]
                else !failed && sent == old(sent) + p
      ensures client.Stays() ==> sent == old(sent) + p
    {
      var gone := Gone();
      ghost var lost := p;
      if !gone {
        lost := "";
        if !client.Breaks(looks) {
          sent := sent + p;
        } else {
          var k := if client.partial < |p| then client.partial else |p|;
          sent := sent + p[..k];
          lost := p[k..];
          failed := true;
        }
      }
      missed := missed + lost;
      offered := offered + p;
      n := |p|;
    }

    method Flush()
      requires Valid()
      modifies this`looks
      ensures Valid()
    {
      var gone := Gone();
    }
  }
}
