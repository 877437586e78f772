/** The receiving side of `MessengerContext` (controller/messenger.c) as the object it is: a buffer that grows, is
    searched, and is shifted in place. */
module Messenger {
  import opened Bytes
  import opened Framing
  import opened Wrappers

  class MessengerContext {
    var rxBuffer: array<byte>
    var rxBufferIndex: nat
    var bufferSize: nat
    var maxBufferSize: nat
    var client: bool

    ghost predicate Valid()
      reads this
    {
      rxBufferIndex < bufferSize == rxBuffer.Length
    }

    ghost function Content(): Data
      reads this, rxBuffer
      requires rxBufferIndex <= rxBuffer.Length
    {
      rxBuffer[..rxBufferIndex]
    }

    ghost function Value(): Buffer
      reads this, rxBuffer
      requires rxBufferIndex <= rxBuffer.Length
    {
      Buffer(Content(), bufferSize, client)
    }

    constructor (size: nat)
      requires 0 < size
      ensures Valid() && fresh(rxBuffer) && Value() == Buffer([], size, false) && maxBufferSize == 16 * size
    {
      rxBuffer := new byte[size];
      rxBufferIndex, bufferSize, client := 0, size, false;
      maxBufferSize := size * 16;
    }

    /** What `recv` writes behind the bytes already there. */
    method Append(bytes: Data)
      requires Valid() && rxBufferIndex + |bytes| <= bufferSize
      modifies this`rxBufferIndex, rxBuffer
      ensures rxBufferIndex == old(rxBufferIndex) + |bytes| && Content() == old(Content()) + bytes
    {
      var k := 0;
      while k < |bytes|
        invariant 0 <= k <= |bytes| && rxBufferIndex == old(rxBufferIndex)
        invariant rxBuffer[..rxBufferIndex + k] == old(Content()) + bytes[..k]
      {
        rxBuffer[rxBufferIndex + k] := bytes[k];
        k := k + 1;
      }
      assert bytes[..k] == bytes;
      rxBufferIndex := rxBufferIndex + |bytes|;
    }

    /** `realloc` to twice the size. */
    method Grow()
      requires rxBufferIndex <= bufferSize == rxBuffer.Length
      modifies this`rxBuffer, this`bufferSize
      ensures fresh(rxBuffer) && rxBuffer.Length == bufferSize == 2 * old(bufferSize) && Content() == old(Content())
    {
      bufferSize := bufferSize * 2;
      var larger := new byte[bufferSize];
      var k := 0;
      while k < rxBufferIndex
        invariant 0 <= k <= rxBufferIndex <= rxBuffer.Length && rxBufferIndex == old(rxBufferIndex)
        invariant rxBuffer == old(rxBuffer) && fresh(larger) && larger.Length == bufferSize == 2 * old(bufferSize)
        invariant larger[..k] == rxBuffer[..k]
      {
        larger[k] := rxBuffer[k];
        k := k + 1;
      }
      rxBuffer := larger;
    }

    /** One `recv`, and what becomes of a buffer that is full. */
    method ReadOnce(net: seq<Arrival>) returns (more: bool, net': seq<Arrival>)
      requires Valid()
      modifies this, rxBuffer
      ensures Valid() && (rxBuffer == old(rxBuffer) || fresh(rxBuffer)) && maxBufferSize == old(maxBufferSize)
      ensures if more then old(bufferSize) < bufferSize && old(bufferSize) < maxBufferSize
              else bufferSize == old(bufferSize)
      ensures Fill(old(Value()), old(maxBufferSize), net) ==
              if more then Fill(Value(), maxBufferSize, net') else (Value(), net')
    {
      var (got, left) := Recv(net, bufferSize - rxBufferIndex);
      more, net' := false, left;
      if got.Closed? || got.Failed? || (got.Chunk? && |got.bytes| == 0) {
        client := false;
      } else if got.Chunk? {
        Append(got.bytes);
        if bufferSize == rxBufferIndex {
          if bufferSize < maxBufferSize {
            Grow();
            more := true;
          } else {
            rxBufferIndex := 0;
          }
        }
      }
    }

    /** The receive loop. */
    method FillBuffer(net: seq<Arrival>) returns (net': seq<Arrival>)
      requires Valid()
      modifies this, rxBuffer
      ensures Valid() && (rxBuffer == old(rxBuffer) || fresh(rxBuffer)) && maxBufferSize == old(maxBufferSize)
      ensures (Value(), net') == Fill(old(Value()), old(maxBufferSize), net)
    {
      var more;
      more, net' := ReadOnce(net);
      while more
        invariant Valid() && (rxBuffer == old(rxBuffer) || fresh(rxBuffer)) && maxBufferSize == old(maxBufferSize)
        invariant Fill(old(Value()), old(maxBufferSize), net) ==
                  if more then Fill(Value(), maxBufferSize, net') else (Value(), net')
        decreases maxBufferSize - bufferSize, more
      {
        more, net' := ReadOnce(net');
      }
    }

    /** `memmem` for the header in the filled part of the buffer. */
    method FindHeader(from: nat) returns (p: Option<nat>)
      requires Valid() && from <= rxBufferIndex
      ensures p == FindFrom(Content(), from)
    {
      var i := from;
      while i + LENGTH <= rxBufferIndex
        invariant from <= i <= rxBufferIndex
        invariant FindFrom(Content(), from) == FindFrom(Content(), i)
      {
        if rxBuffer[i] == 0x3C && rxBuffer[i + 1] == 0x3F && rxBuffer[i + 2] == 0x78 && rxBuffer[i + 3] == 0x6D
           && rxBuffer[i + 4] == 0x6C
        {
          return Some(i);
        }
        i := i + 1;
      }
      return None;
    }

    /** Throwing away what is before `from`: the rest moves to the front. */
    method Discard(from: nat)
      requires Valid() && from <= rxBufferIndex
      modifies this`rxBufferIndex, rxBuffer
      ensures Valid() && Content() == old(Content())[from..]
    {
      rxBufferIndex := rxBufferIndex - from;
      var k := 0;
      while k < rxBufferIndex
        invariant 0 <= k <= rxBufferIndex == old(rxBufferIndex) - from && rxBuffer == old(rxBuffer)
        invariant rxBuffer[..k] == old(rxBuffer[from..from + k])
        invariant forall j :: k <= j < rxBuffer.Length ==> rxBuffer[j] == old(rxBuffer[j])
      {
        rxBuffer[k] := rxBuffer[from + k];
        k := k + 1;
      }
      assert old(Content())[from..] == old(rxBuffer[from..rxBufferIndex]);
    }

    /** The part of `messenger_receive_message` behind the receive loop. */
    method CutMessage<M>(check: Data -> bool, parse: Data -> Option<M>) returns (message: Option<M>)
      requires Valid()
      modifies this`rxBufferIndex, rxBuffer
      ensures Valid() && (message, Content()) == Extract(old(Content()), check, parse)
    {
      message := None;
      var p := FindHeader(0);
      if p.None? {
        return;
      }
      var next := FindHeader(p.value + LENGTH);
      var end := if next.Some? then next.value else rxBufferIndex;
      var text := rxBuffer[p.value..end];
      assert text == Content()[p.value..end];
      if !check(text) {
        if next.Some? {
          Discard(next.value);
        }
        return;
      }
      message := parse(text);
      if next.Some? {
        Discard(next.value);
      } else {
        rxBufferIndex := 0;
      }
    }

    /** `messenger_receive_message`. */
    method Receive<M>(accept: bool, net: seq<Arrival>, check: Data -> bool, parse: Data -> Option<M>)
      returns (message: Option<M>, net': seq<Arrival>)
      requires Valid()
      modifies this, rxBuffer
      ensures Valid() && (rxBuffer == old(rxBuffer) || fresh(rxBuffer)) && maxBufferSize == old(maxBufferSize)
      ensures forall delivered: seq<M> ::
                Link(Value(), net', delivered + ToSeq(message))
                == Step(Link(old(Value()), net, delivered), Call(accept), maxBufferSize, check, parse)
    {
      net' := net;
      if !client {
        client := accept;
      }
      if client {
        net' := FillBuffer(net);
      }
      message := CutMessage(check, parse);
    }
  }
}
