/** From message to message: generator, stream, receive loop, and parsers together. The XML library appears as one
    function from bytes to the nodes of the document, or to nothing when they are not well formed. */
module EndToEnd {
  import opened Bytes
  import opened Codec
  import opened Framing
  import opened Wrappers
  import opened Xml

  type Library = Data -> Option<seq<Node>>

  /** `check_xml` and `parse_xml`. */
  function Check(read: Library): Data -> bool { d => read(d).Some? }

  function ParseData(read: Library): Data -> Option<Message>
  {
    d => match read(d) case None => None case Some(nodes) => Parse(nodes)
  }

  /** What a peer puts on the wire: a message as a document, `core` bytes of which are needed, the rest being white
      space; or bytes that are no document. */
  datatype Sent = Document(message: Message, bytes: Data, core: nat, nodes: seq<Node>) | Corrupt(bytes: Data)

  /** A document the library reads as the nodes the generators print, with any comments and white space between
      them, from its core on; neither a part of it nor it with the beginning of another is well formed. */
  ghost predicate Written(read: Library, s: Sent)
  {
    && Framed(s.bytes)
    && (forall j :: 0 < j < LENGTH ==> read(s.bytes + HEADER[..j]) == None)
    && match s
       case Corrupt(bytes) => forall n :: LENGTH <= n <= |bytes| ==> read(bytes[..n]) == None
       case Document(m, bytes, core, nodes) =>
         && WellTyped(m) && (m.body.Files? ==> AllHaveSections(m.body.files) && InTenthsAll(m.body.files))
         && Strip(nodes) == Print(m) && LENGTH <= core <= |bytes|
         && forall n :: LENGTH <= n <= |bytes| ==> read(bytes[..n]) == if core <= n then Some(nodes) else None
  }

  ghost predicate AllWritten(read: Library, sent: seq<Sent>)
  {
    forall k :: 0 <= k < |sent| ==> Written(read, sent[k])
  }

  function ToSegment(s: Sent): Segment<Message>
  {
    match s
    case Document(m, bytes, core, _) => Good(bytes, core, Some(m))
    case Corrupt(bytes) => Bad(bytes)
  }

  function ToSegments(sent: seq<Sent>): (segs: seq<Segment<Message>>)
    ensures |segs| == |sent|
  {
    seq(|sent|, k requires 0 <= k < |sent| => ToSegment(sent[k]))
  }

  /** The messages that were sent as documents, in order. */
  function Intended(sent: seq<Sent>): seq<Message>
  {
    if sent == [] then [] else (if sent[0].Document? then [sent[0].message] else []) + Intended(sent[1..])
  }

  lemma {:induction false} IntendedMessages(sent: seq<Sent>)
    ensures Messages(ToSegments(sent)) == Intended(sent)
  {
    if sent == [] {
    } else {
      assert ToSegments(sent)[1..] == ToSegments(sent[1..]);
      IntendedMessages(sent[1..]);
    }
  }

  lemma SegmentSound(read: Library, s: Sent)
    requires Written(read, s)
    ensures Sound(ToSegment(s), Check(read), ParseData(read))
  {
    if s.Document? {
      RoundTripWithNoise(s.message, s.nodes);
    }
  }

  lemma SegmentsSound(read: Library, sent: seq<Sent>)
    requires AllWritten(read, sent)
    ensures AllSound(ToSegments(sent), Check(read), ParseData(read))
  {
    forall k | 0 <= k < |sent|
      ensures Sound(ToSegments(sent)[k], Check(read), ParseData(read))
    {
      SegmentSound(read, sent[k]);
    }
  }

  /** Whatever the pieces in which the stream arrives and whatever corruption is in it: the receiver has at every
      moment got the first of the messages sent, unchanged and in order. */
  lemma ReceivesInOrder(read: Library, initial: nat, moves: seq<Move>, future: Data, sent: seq<Sent>)
    requires AllWritten(read, sent) && Arrived(moves) + future == Stream(ToSegments(sent))
    requires 0 < initial && Fits(Fresh<Message>(initial), moves, 16 * initial, Check(read), ParseData(read))
    ensures Run(Fresh<Message>(initial), moves, 16 * initial, Check(read), ParseData(read)).delivered <= Intended(sent)
  {
    SegmentsSound(read, sent);
    IntendedMessages(sent);
    DeliversInOrder(initial, moves, future, ToSegments(sent), Check(read), ParseData(read));
  }

  /** And once everything has arrived, a bounded number of calls later it has got them all. */
  lemma ReceivesAll(read: Library, initial: nat, moves: seq<Move>, sent: seq<Sent>, n: nat)
    requires AllWritten(read, sent) && Arrived(moves) == Stream(ToSegments(sent))
    requires 0 < initial && Fits(Fresh<Message>(initial), moves, 16 * initial, Check(read), ParseData(read))
    requires var l := Run(Fresh<Message>(initial), moves, 16 * initial, Check(read), ParseData(read));
             Quiet(l.net) && |l.buffer.content| + |Wire(l.net)| < 16 * initial && |l.net| + |sent| <= n
    ensures var l := Run(Fresh<Message>(initial), moves, 16 * initial, Check(read), ParseData(read));
            AfterCalls(l, n, 16 * initial, Check(read), ParseData(read)).delivered == Intended(sent)
  {
    SegmentsSound(read, sent);
    IntendedMessages(sent);
    DeliversAll(initial, moves, ToSegments(sent), n, Check(read), ParseData(read));
  }

  /** The assumptions about the library can be met: one that knows a single document, of a single message. */
  lemma LibrariesExist(number: int)
    requires IsInt(number)
    ensures exists read: Library, s: Sent :: s.Document? && Written(read, s) && s.message == Message(Ack, "", number, Rows([]))
  {
    var m := Message(Ack, "", number, Rows([]));
    var bytes := HEADER + [0x3E];
    var read: Library := d => if d == bytes then Some(Print(m)) else None;
    var s := Document(m, bytes, 6, Print(m));
    assert forall i :: 0 < i < |bytes| ==> bytes[i] != 0x3C;
    forall j | 0 < j < LENGTH ensures read(bytes + HEADER[..j]) == None {
      assert |bytes + HEADER[..j]| != |bytes|;
    }
    forall n | LENGTH <= n <= |bytes| ensures read(bytes[..n]) == if 6 <= n then Some(Print(m)) else None {
      assert |bytes[..n]| == n && (n == 6 ==> bytes[..n] == bytes);
    }
    assert Strip(Print(m)) == Print(m) by { assert Print(m)[1..] == []; }
    assert Written(read, s);
  }
}
