/** The UDP streamer of the monitor (monitor/streamer.c): it cuts a byte stream, handed over in
    pieces of any size, into datagrams of exactly `packetSize` bytes. */
module Streamer {
  import opened Blocking
  import opened Bytes
  import opened Sequences

  /** What one call of `streamer_send` does. `failAt` is the number of the datagram of this call that
      `sendto` refuses; the datagrams before it leave, and if there is no such datagram the call succeeds. */
  datatype Outcome = Outcome(ok: bool, sent: seq<Data>, pending: Data)

  function SendOutcome(pending: Data, data: Data, packetSize: nat, failAt: nat): Outcome
    requires 0 < packetSize
  {
    var packets := Blocks(pending + data, packetSize);
    if |packets| <= failAt then Outcome(true, packets, Rest(pending + data, packetSize))
    else Outcome(false, packets[..failAt], if failAt == 0 then pending else [])
  }

  /** Conservation, in both outcomes: the datagrams sent and the bytes kept are the old bytes followed by
      a prefix of the new ones, and by all of them exactly when the call succeeds or had nothing to lose. */
  lemma {:induction false} SendConserves(pending: Data, data: Data, packetSize: nat, failAt: nat)
    requires |pending| < packetSize
    ensures var out := SendOutcome(pending, data, packetSize, failAt);
            && (forall k :: 0 <= k < |out.sent| ==> |out.sent[k]| == packetSize)
            && |out.pending| < packetSize
            && (out.ok ==> Flatten(out.sent) + out.pending == pending + data)
            && (!out.ok ==> exists n :: 0 <= n < |data| && Flatten(out.sent) + out.pending == pending + data[..n])
  {
    var all := pending + data;
    var packets := Blocks(all, packetSize);
    CutIsCut(all, packetSize);
    if failAt < |packets| {
      assert packets == packets[..failAt] + packets[failAt..];
      FlattenAppend(packets[..failAt], packets[failAt..]);
      var out := Flatten(packets[..failAt]);
      var tail := Flatten(packets[failAt..]) + Rest(all, packetSize);
      assert all == out + tail;
      FlattenLength(packets[..failAt], packetSize);
      assert packets[failAt..][0] == packets[failAt];
      if failAt == 0 {
        FlattenLength(packets, packetSize);
        assert packets[..0] == [];
        assert pending + data[..0] == Flatten([]) + pending;
        assert 0 < |data|;
      } else {
        assert packetSize <= |out| by { assert 1 <= failAt; SmallProduct(failAt, packetSize); }
        var n := |out| - |pending|;
        assert n < |data|;
        assert all[..|out|] == out;
        assert out + [] == pending + data[..n];
      }
    }
  }

  lemma SmallProduct(n: nat, m: nat)
    requires 1 <= n
    ensures m <= n * m
  {
  }

  /** Any number of successful calls, starting with an empty buffer. */
  function Run(pieces: seq<Data>, packetSize: nat): Outcome
    requires 0 < packetSize
  {
    if pieces == [] then Outcome(true, [], [])
    else
      var before := Run(pieces[..|pieces| - 1], packetSize);
      var last := SendOutcome(before.pending, pieces[|pieces| - 1], packetSize,
                              |Blocks(before.pending + pieces[|pieces| - 1], packetSize)|);
      Outcome(last.ok, before.sent + last.sent, last.pending)
  }

  /** Whatever the split into calls, the datagrams are those of the whole stream sent at once. */
  lemma {:induction false} RunIsOneCut(pieces: seq<Data>, packetSize: nat)
    requires 0 < packetSize
    ensures var out := Run(pieces, packetSize);
            && out.ok
            && out.sent == Blocks(Flatten(pieces), packetSize)
            && out.pending == Rest(Flatten(pieces), packetSize)
            && IsCut(Flatten(pieces), packetSize, out.sent, out.pending)
  {
    CutIsCut(Flatten(pieces), packetSize);
    if pieces == [] {
    } else {
      var front, last := pieces[..|pieces| - 1], pieces[|pieces| - 1];
      RunIsOneCut(front, packetSize);
      assert pieces == front + [last];
      FlattenAppend(front, [last]);
      assert Flatten([last]) == last;
      CutInTwo(Flatten(front), last, packetSize);
    }
  }

  /** Any number of calls, each with the number of the datagram it fails at. */
  function RunCalls(calls: seq<(Data, nat)>, packetSize: nat): Outcome
    requires 0 < packetSize
  {
    if calls == [] then Outcome(true, [], [])
    else
      var before := RunCalls(calls[..|calls| - 1], packetSize);
      var (data, failAt) := calls[|calls| - 1];
      var last := SendOutcome(before.pending, data, packetSize, failAt);
      Outcome(last.ok, before.sent + last.sent, last.pending)
  }

  /** Call `k` went through. */
  predicate CallOk(calls: seq<(Data, nat)>, packetSize: nat, k: nat)
    requires 0 < packetSize && k < |calls|
  {
    RunCalls(calls[..k + 1], packetSize).ok
  }

  /** `cuts` says how much of each call's data was taken. */
  predicate Cuts(calls: seq<(Data, nat)>, packetSize: nat, cuts: seq<nat>)
    requires 0 < packetSize
  {
    |cuts| == |calls| && forall k :: 0 <= k < |calls| ==>
      cuts[k] <= |calls[k].0| && (CallOk(calls, packetSize, k) ==> cuts[k] == |calls[k].0|)
  }

  /** The data that was taken. */
  function Taken(calls: seq<(Data, nat)>, cuts: seq<nat>): Data
    requires |cuts| == |calls| && forall k :: 0 <= k < |calls| ==> cuts[k] <= |calls[k].0|
  {
    if calls == [] then []
    else
      var n := |calls| - 1;
      Taken(calls[..n], cuts[..n]) + calls[n].0[..cuts[n]]
  }

  lemma OneMoreCut(calls: seq<(Data, nat)>, packetSize: nat, cuts: seq<nat>, cut: nat)
    requires 0 < packetSize && calls != [] && Cuts(calls[..|calls| - 1], packetSize, cuts)
    requires cut <= |calls[|calls| - 1].0|
    requires RunCalls(calls, packetSize).ok ==> cut == |calls[|calls| - 1].0|
    ensures Cuts(calls, packetSize, cuts + [cut])
    ensures Taken(calls, cuts + [cut]) == Taken(calls[..|calls| - 1], cuts) + calls[|calls| - 1].0[..cut]
  {
    var n := |calls| - 1;
    var all := cuts + [cut];
    assert all[..n] == cuts && calls[..n + 1] == calls;
    forall k | 0 <= k < |calls|
      ensures all[k] <= |calls[k].0| && (CallOk(calls, packetSize, k) ==> all[k] == |calls[k].0|)
    {
      if k < n {
        assert calls[..n][..k + 1] == calls[..k + 1] && calls[..n][k] == calls[k];
      }
    }
  }

  /** Over any run, calls that fail included: the datagrams sent and the bytes kept are a prefix of each call's data,
      in order, and all of it for a call that succeeds. */
  lemma {:induction false} RunTakesPrefixes(calls: seq<(Data, nat)>, packetSize: nat) returns (cuts: seq<nat>)
    requires 0 < packetSize
    ensures var out := RunCalls(calls, packetSize);
            && Cuts(calls, packetSize, cuts) && Flatten(out.sent) + out.pending == Taken(calls, cuts)
            && (forall k :: 0 <= k < |out.sent| ==> |out.sent[k]| == packetSize) && |out.pending| < packetSize
  {
    if calls == [] {
      cuts := [];
    } else {
      var n := |calls| - 1;
      var before := RunCalls(calls[..n], packetSize);
      var (data, failAt) := calls[n];
      var last := SendOutcome(before.pending, data, packetSize, failAt);
      cuts := RunTakesPrefixes(calls[..n], packetSize);
      SendConserves(before.pending, data, packetSize, failAt);
      var cut: nat := |data|;
      if last.ok {
        assert data[..cut] == data;
      } else {
        cut :| 0 <= cut < |data| && Flatten(last.sent) + last.pending == before.pending + data[..cut];
      }
      OneMoreCut(calls, packetSize, cuts, cut);
      FlattenAppend(before.sent, last.sent);
      Associative(Flatten(before.sent), Flatten(last.sent), last.pending);
      Associative(Flatten(before.sent), before.pending, data[..cut]);
      cuts := cuts + [cut];
    }
  }

  /** `StreamerContext`, with the datagrams handed to the socket so far as a ghost history. */
  class StreamerContext {
    const packetSize: nat
    const buffer: array<byte>
    var bufferIndex: nat
    ghost var sent: seq<Data>

    ghost predicate Valid()
      reads this
    {
      && 0 < packetSize == buffer.Length
      && bufferIndex < packetSize
    }

    ghost function Contents(): Data
      reads this, buffer
      requires Valid()
    {
      buffer[..bufferIndex]
    }

    /** `streamer_init`. It takes a packet size of zero, with which nothing can be sent. */
    constructor (packetSize: nat)
      ensures fresh(buffer) && this.packetSize == packetSize && bufferIndex == 0 && sent == []
      ensures Valid() <==> 0 < packetSize
      ensures Valid() ==> Contents() == []
    {
      this.packetSize := packetSize;
      buffer := new byte[packetSize];
      bufferIndex := 0;
      sent := [];
    }

    /** The `memcpy` of `len` bytes of `data`, from `i` on, behind the bytes kept so far. */
    method CopyIn(data: Data, i: nat, len: nat)
      requires Valid() && bufferIndex + len <= packetSize && i + len <= |data|
      modifies buffer
      ensures Contents() == old(Contents())
      ensures buffer[..bufferIndex + len] == old(Contents()) + data[i..i + len]
    {
      forall k | 0 <= k < len { buffer[bufferIndex + k] := data[i + k]; }
      assert Contents() == old(Contents());
      assert buffer[bufferIndex..bufferIndex + len] == data[i..i + len];
      assert buffer[..bufferIndex + len] == Contents() + buffer[bufferIndex..bufferIndex + len];
    }

    /** `streamer_send`: copy and send whole packets, keep the rest. */
    method Send(data: Data, failAt: nat) returns (ok: bool)
      requires Valid()
      modifies this, buffer
      ensures Valid()
      ensures var out := SendOutcome(old(Contents()), data, packetSize, failAt);
              && ok == out.ok
              && sent == old(sent) + out.sent
              && Contents() == out.pending
    {
      if bufferIndex + |data| < packetSize {
        CopyIn(data, 0, |data|);
        bufferIndex := bufferIndex + |data|;
        assert data[0..|data|] == data;
        assert sent == old(sent) + [];
        return true;
      }
      ok := SendPackets(data, failAt);
    }

    /** The copy-and-send loop for data that completes at least one packet. */
    method SendPackets(data: Data, failAt: nat) returns (ok: bool)
      requires Valid() && packetSize <= bufferIndex + |data|
      modifies this, buffer
      ensures Valid()
      ensures var out := SendOutcome(old(Contents()), data, packetSize, failAt);
              && ok == out.ok
              && sent == old(sent) + out.sent
              && Contents() == out.pending
    {
      ghost var start, all := Contents(), Contents() + data;
      ghost var packets := Blocks(all, packetSize);
      var i, count := 0, 0;
      var len := packetSize - bufferIndex;
      assert data[0..] == data;
      while i + len <= |data|
        invariant Valid() && len == packetSize - bufferIndex
        invariant 0 <= i <= |data| && count <= |packets| && count <= failAt
        invariant Contents() == if count == 0 then start else []
        invariant count == 0 ==> i == 0
        invariant sent == old(sent) + packets[..count]
        invariant packets[count..] == Blocks(Contents() + data[i..], packetSize)
        invariant Rest(all, packetSize) == Rest(Contents() + data[i..], packetSize)
        decreases |data| - i
      {
        hide Blocks, Rest;
        NextPacket(Contents(), data, i, len, packetSize);
        CopyIn(data, i, len);
        assert buffer[..packetSize] == buffer[..];
        assert packets[count] == packets[count..][0] == buffer[..];
        if count == failAt {
          return false;
        }
        assert packets[..count + 1] == packets[..count] + [packets[count]];
        assert packets[count + 1..] == packets[count..][1..];
        sent := sent + [buffer[..]];
        count := count + 1;
        bufferIndex := 0;
        i := i + len;
        len := packetSize - bufferIndex;
        assert Contents() + data[i..] == data[i..];
      }
      assert packets[..count] == packets;
      len := |data| - i;
      CopyIn(data, i, len);
      bufferIndex := len;
      assert data[i..i + len] == data[i..];
      return true;
    }
  }

  /** The first packet of the kept bytes followed by the unread data. */
  lemma NextPacket(kept: Data, data: Data, i: nat, len: nat, packetSize: nat)
    requires 0 < packetSize == |kept| + len && i + len <= |data|
    ensures var rest := kept + data[i..];
            && Blocks(rest, packetSize) == [kept + data[i..i + len]] + Blocks(data[i + len..], packetSize)
            && Rest(rest, packetSize) == Rest(data[i + len..], packetSize)
  {
    var rest := kept + data[i..];
    assert rest[..packetSize] == kept + data[i..i + len];
    assert rest[packetSize..] == data[i + len..];
  }
}
