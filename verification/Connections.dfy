/** When the messenger (controller/messenger.c) has a client: an end of the connection that a call comes to drops the
    client, and until the next one is accepted nothing is taken from the socket. */
module Connections {
  import opened Bytes
  import opened Framing
  import opened Sequences
  import opened Wrappers

  /** The connection ends here: it was closed, it failed, or a read came back empty. */
  predicate IsEnd(a: Arrival) { a.Closed? || a.Failed? || (a.Chunk? && a.bytes == []) }

  function Ends(net: seq<Arrival>): nat
  {
    if net == [] then 0 else (if IsEnd(net[0]) then 1 else 0) + Ends(net[1..])
  }

  lemma RecvEnds(net: seq<Arrival>, space: nat)
    requires 0 < space
    ensures var (got, net') := Recv(net, space); Ends(net) == Ends(net') + if IsEnd(got) then 1 else 0
  {
    if net != [] && net[0].Chunk? && space < |net[0].bytes| {
      var left := [Chunk(net[0].bytes[space..])] + net[1..];
      assert left[1..] == net[1..];
    }
  }

  /** A call comes to at most one end, and the client is dropped exactly if it does. */
  lemma {:induction false} DroppedAtEnd(b: Buffer, limit: nat, net: seq<Arrival>)
    requires |b.content| < b.size && b.client
    ensures var (r, net') := Fill(b, limit, net);
            Ends(net) == Ends(net') + if r.client then 0 else 1
    decreases limit - b.size
  {
    var space := b.size - |b.content|;
    RecvEnds(net, space);
    var (got, net') := Recv(net, space);
    if got.Chunk? && got.bytes != [] {
      var content := b.content + got.bytes;
      if |content| == b.size && b.size < limit {
        DroppedAtEnd(b.(content := content, size := 2 * b.size), limit, net');
      }
    }
  }

  /** The same for a whole call: without a client and without one to accept the socket is left alone; otherwise
      there is a client afterwards exactly if the call came to no end. */
  lemma CallDrops<M>(l: Link<M>, accept: bool, limit: nat, check: Data -> bool, parse: Data -> Option<M>)
    requires Valid(l)
    ensures var r := Step(l, Call(accept), limit, check, parse);
            if l.buffer.client || accept
            then (r.buffer.client <==> Ends(r.net) == Ends(l.net)) && Ends(l.net) <= Ends(r.net) + 1
            else !r.buffer.client && r.net == l.net
  {
    if l.buffer.client || accept {
      DroppedAtEnd(l.buffer.(client := true), limit, l.net);
    }
  }

  /** Everything the moves bring to the socket. */
  function Pieces(moves: seq<Move>): seq<Arrival>
  {
    if moves == [] then [] else (if moves[0].Arrive? then moves[0].pieces else []) + Pieces(moves[1..])
  }

  /** None of the calls accepts a client. */
  predicate NoneAccepted(moves: seq<Move>)
  {
    forall k :: 0 <= k < |moves| ==> moves[k].Call? ==> !moves[k].accept
  }

  /** Without a client, over any moves of which none accepts one, nothing is taken from the socket. */
  lemma {:induction false} LeftAlone<M>(l: Link<M>, moves: seq<Move>, limit: nat, check: Data -> bool,
                                        parse: Data -> Option<M>)
    requires Valid(l) && !l.buffer.client && NoneAccepted(moves)
    ensures var r := Run(l, moves, limit, check, parse); !r.buffer.client && r.net == l.net + Pieces(moves)
    decreases |moves|
  {
    if moves == [] {
      assert l.net + [] == l.net;
    } else {
      LeftAlone(Step(l, moves[0], limit, check, parse), moves[1..], limit, check, parse);
      if moves[0].Arrive? {
        Associative(l.net, moves[0].pieces, Pieces(moves[1..]));
      } else {
        assert [] + Pieces(moves[1..]) == Pieces(moves[1..]);
      }
    }
  }

  /** After a call that came to an end of the connection, nothing is taken from the socket until a call accepts the
      next client; what has arrived by then is all there for it. */
  lemma GoneUntilAccepted<M>(l: Link<M>, accept: bool, moves: seq<Move>, limit: nat, check: Data -> bool,
                             parse: Data -> Option<M>)
    requires Valid(l) && NoneAccepted(moves)
    requires Ends(Step(l, Call(accept), limit, check, parse).net) < Ends(l.net)
    ensures var l1 := Step(l, Call(accept), limit, check, parse);
            var r := Run(l1, moves, limit, check, parse);
            !r.buffer.client && r.net == l1.net + Pieces(moves)
  {
    CallDrops(l, accept, limit, check, parse);
    LeftAlone(Step(l, Call(accept), limit, check, parse), moves, limit, check, parse);
  }

  /** The move is a call that drops its client. */
  predicate Drops<M>(l: Link<M>, move: Move, limit: nat, check: Data -> bool, parse: Data -> Option<M>)
    requires Valid(l)
  {
    move.Call? && (l.buffer.client || move.accept) && !Step(l, move, limit, check, parse).buffer.client
  }

  function Dropped<M>(l: Link<M>, moves: seq<Move>, limit: nat, check: Data -> bool, parse: Data -> Option<M>): nat
    requires Valid(l)
    decreases |moves|
  {
    if moves == [] then 0
    else (if Drops(l, moves[0], limit, check, parse) then 1 else 0)
         + Dropped(Step(l, moves[0], limit, check, parse), moves[1..], limit, check, parse)
  }

  lemma {:induction false} EndsAppend(a: seq<Arrival>, b: seq<Arrival>)
    ensures Ends(a + b) == Ends(a) + Ends(b)
  {
    if a == [] {
      assert a + b == b;
    } else {
      assert (a + b)[1..] == a[1..] + b;
      EndsAppend(a[1..], b);
    }
  }

  /** One move: what ends before it and with it, and what ends afterwards. */
  lemma MoveEnds<M>(l: Link<M>, move: Move, limit: nat, check: Data -> bool, parse: Data -> Option<M>)
    requires Valid(l)
    ensures Ends(l.net) + (if move.Arrive? then Ends(move.pieces) else 0)
            == Ends(Step(l, move, limit, check, parse).net) + if Drops(l, move, limit, check, parse) then 1 else 0
  {
    if move.Arrive? {
      EndsAppend(l.net, move.pieces);
    } else if l.buffer.client || move.accept {
      DroppedAtEnd(l.buffer.(client := true), limit, l.net);
    }
  }

  /** Over any run, as many clients are dropped as ends of connections have been come to. */
  lemma {:induction false} EachEndDropsOne<M>(l: Link<M>, moves: seq<Move>, limit: nat, check: Data -> bool,
                                              parse: Data -> Option<M>)
    requires Valid(l)
    ensures Ends(l.net) + Ends(Pieces(moves))
            == Ends(Run(l, moves, limit, check, parse).net) + Dropped(l, moves, limit, check, parse)
    decreases |moves|
  {
    hide Step, Drops, Valid;
    if moves == [] {
    } else {
      EachEndDropsOne(Step(l, moves[0], limit, check, parse), moves[1..], limit, check, parse);
      MoveEnds(l, moves[0], limit, check, parse);
      EndsAppend(if moves[0].Arrive? then moves[0].pieces else [], Pieces(moves[1..]));
    }
  }

  // ----- a buffer that is given up -------------------------------------------------------------------------------------

  /** What a call may lose: nothing, unless the bytes before and with the ones taken fill a buffer that may not grow any
      more; then exactly these, the whole buffer. */
  lemma {:induction false} FillLoses(b: Buffer, limit: nat, net: seq<Arrival>) returns (lost: Data)
    requires |b.content| < b.size
    ensures var (r, net') := Fill(b, limit, net);
            b.content + Wire(net) == lost + (r.content + Wire(net'))
            && (lost == [] || (limit <= r.size == |lost| && r.content == []))
    decreases limit - b.size
  {
    RecvKeeps(net, b.size - |b.content|);
    var (got, net') := Recv(net, b.size - |b.content|);
    lost := [];
    if got.Chunk? && got.bytes != [] {
      var content := b.content + got.bytes;
      Associative(b.content, got.bytes, Wire(net'));
      if |content| == b.size {
        if b.size < limit {
          lost := FillLoses(b.(content := content, size := 2 * b.size), limit, net');
        } else {
          lost := content;
          assert [] + Wire(net') == Wire(net');
        }
      }
    }
  }
}
