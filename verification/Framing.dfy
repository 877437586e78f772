/** How the messenger (controller/messenger.c) finds messages in the bytes a socket delivers in pieces of any size:
    what one call of `messenger_receive_message` takes in, what it cuts out, and what a whole run delivers. */
module Framing {
  import opened Bytes
  import opened Sequences
  import opened Wrappers

  /** "<?xml" */
  const HEADER: Data := [0x3C, 0x3F, 0x78, 0x6D, 0x6C]
  const LENGTH: nat := 5

  // ----- taking in ---------------------------------------------------------------------------------------------

  /** What waits on the socket: data, moments at which there is none, and ends of the connection. */
  datatype Arrival = Chunk(bytes: Data) | Nothing | Closed | Failed

  /** `recv` with room for `space` bytes: at most that many of the first piece, the rest of it stays. */
  function Recv(net: seq<Arrival>, space: nat): (r: (Arrival, seq<Arrival>))
    ensures r.0.Chunk? ==> |r.0.bytes| <= space
  {
    if net == [] then (Nothing, [])
    else if net[0].Chunk? && space < |net[0].bytes| then
      (Chunk(net[0].bytes[..space]), [Chunk(net[0].bytes[space..])] + net[1..])
    else (net[0], net[1..])
  }

  /** What is buffered, how large the buffer is, and whether a client is connected. */
  datatype Buffer = Buffer(content: Data, size: nat, client: bool)

  /** The receive loop: a full buffer is doubled, and given up when it may not grow any more. */
  function Fill(b: Buffer, limit: nat, net: seq<Arrival>): (r: (Buffer, seq<Arrival>))
    requires |b.content| < b.size
    ensures |r.0.content| < r.0.size
    decreases limit - b.size
  {
    var (got, net') := Recv(net, b.size - |b.content|);
    if got.Nothing? then (b, net')
    else if !got.Chunk? || got.bytes == [] then (b.(client := false), net')
    else
      var content := b.content + got.bytes;
      if |content| < b.size then (b.(content := content), net')
      else if b.size < limit then Fill(b.(content := content, size := 2 * b.size), limit, net')
      else (b.(content := []), net')
  }

  /** One call's part: a missing client is accepted if there is one, and only a client is read from. */
  function TakeIn(b: Buffer, limit: nat, accept: bool, net: seq<Arrival>): (r: (Buffer, seq<Arrival>))
    requires |b.content| < b.size
    ensures |r.0.content| < r.0.size
  {
    var client := b.client || accept;
    if client then Fill(b.(client := true), limit, net) else (b, net)
  }

  // ----- cutting out -------------------------------------------------------------------------------------------

  predicate HeaderAt(s: Data, i: nat)
  {
    i + LENGTH <= |s| && s[i] == 0x3C && s[i + 1] == 0x3F && s[i + 2] == 0x78 && s[i + 3] == 0x6D && s[i + 4] == 0x6C
  }

  /** A header is where the text of an XML declaration begins. */
  lemma HeaderSpelled(s: Data, i: nat)
    ensures HeaderAt(s, i) <==> i + 5 <= |s| && forall k :: 0 <= k < 5 ==> s[i..i + 5][k] as int == "<?xml"[k] as int
    ensures HeaderAt(s, i) <==> i + LENGTH <= |s| && s[i..i + LENGTH] == HEADER
  {
    if i + 5 <= |s| {
      var t := s[i..i + 5];
      assert t[0] == s[i] && t[1] == s[i + 1] && t[2] == s[i + 2] && t[3] == s[i + 3] && t[4] == s[i + 4];
      assert "<?xml"[0] == '<' && "<?xml"[1] == '?' && "<?xml"[2] == 'x' && "<?xml"[3] == 'm' && "<?xml"[4] == 'l';
    }
  }

  /** `memmem`: the first header from `i` on. */
  function FindFrom(s: Data, i: nat): (p: Option<nat>)
    requires i <= |s|
    ensures p.Some? ==> i <= p.value && p.value + LENGTH <= |s|
    decreases |s| - i
  {
    if |s| < i + LENGTH then None else if HeaderAt(s, i) then Some(i) else FindFrom(s, i + 1)
  }

  lemma {:induction false} FindsFirst(s: Data, i: nat)
    requires i <= |s|
    ensures var p := FindFrom(s, i);
            && (p.Some? ==> HeaderAt(s, p.value))
            && (forall j :: i <= j < (if p.Some? then p.value else |s|) ==> !HeaderAt(s, j))
    decreases |s| - i
  {
    if i + LENGTH <= |s| && !HeaderAt(s, i) {
      FindsFirst(s, i + 1);
    }
  }

  /** The first header is at `p`, and the one behind it, if there is one, at `next`. */
  function Cut<M>(content: Data, p: nat, next: Option<nat>, check: Data -> bool, parse: Data -> Option<M>)
    : (r: (Option<M>, Data))
    requires p <= |content| && (next.Some? ==> p <= next.value <= |content|)
    ensures |r.1| <= |content|
  {
    match next
    case Some(n) => (if check(content[p..n]) then parse(content[p..n]) else None, content[n..])
    case None => if check(content[p..]) then (parse(content[p..]), []) else (None, content)
  }

  /** What a call cuts out of the buffer: between two headers what is not well formed is thrown away; behind the
      last one it is kept. A message that is cut out but means nothing is gone. */
  function Extract<M>(content: Data, check: Data -> bool, parse: Data -> Option<M>): (r: (Option<M>, Data))
    ensures |r.1| <= |content|
  {
    match FindFrom(content, 0)
    case None => (None, content)
    case Some(p) => Cut(content, p, FindFrom(content, p + LENGTH), check, parse)
  }

  // ----- the stream --------------------------------------------------------------------------------------------

  /** A piece of the stream from one header to the next. A good one is well formed from `core` bytes on (what
      follows is white space), and means `message`, or nothing when its root is unknown. */
  datatype Segment<M> = Good(bytes: Data, core: nat, message: Option<M>) | Bad(bytes: Data)

  /** It begins with the only header in it. */
  predicate Framed(bytes: Data)
  {
    HeaderAt(bytes, 0) && forall i :: 0 < i < |bytes| ==> !HeaderAt(bytes, i)
  }

  /** What has to be true of the library's notion of well-formed: a good segment becomes well formed at its core and
      stays so, a bad one never is, and neither is with the beginning of the next header behind it. */
  ghost predicate Sound<M(!new)>(seg: Segment<M>, check: Data -> bool, parse: Data -> Option<M>)
  {
    && Framed(seg.bytes)
    && (seg.Good? ==> LENGTH <= seg.core <= |seg.bytes|)
    && (forall n :: LENGTH <= n <= |seg.bytes| ==>
          && check(seg.bytes[..n]) == (seg.Good? && seg.core <= n)
          && (seg.Good? && seg.core <= n ==> parse(seg.bytes[..n]) == seg.message))
    && (forall j :: 0 < j < LENGTH ==> !check(seg.bytes + HEADER[..j]))
  }

  ghost predicate AllSound<M(!new)>(segs: seq<Segment<M>>, check: Data -> bool, parse: Data -> Option<M>)
  {
    forall k :: 0 <= k < |segs| ==> Sound(segs[k], check, parse)
  }

  function Stream<M>(segs: seq<Segment<M>>): Data
  {
    if segs == [] then [] else segs[0].bytes + Stream(segs[1..])
  }

  function ToSeq<M>(m: Option<M>): seq<M> { if m.Some? then [m.value] else [] }

  /** The messages of the good segments. */
  function Messages<M>(segs: seq<Segment<M>>): seq<M>
  {
    if segs == [] then []
    else (if segs[0].Good? then ToSeq(segs[0].message) else []) + Messages(segs[1..])
  }

  // ----- where the headers are ----------------------------------------------------------------------------------

  /** `r` holds no header. */
  predicate Headless(r: Data) { forall i :: 0 <= i < |r| ==> !HeaderAt(r, i) }

  /** A header does not overlap another. */
  lemma NoOverlap(s: Data, i: nat, j: nat)
    requires HeaderAt(s, i) && HeaderAt(s, j)
    ensures i == j || i + LENGTH <= j || j + LENGTH <= i
  {
  }

  lemma HeaderMoves(a: Data, b: Data, i: nat)
    ensures HeaderAt(a + b, |a| + i) == HeaderAt(b, i)
  {
  }

  lemma HeaderIn(a: Data, b: Data, i: nat)
    requires i + LENGTH <= |a|
    ensures HeaderAt(a + b, i) == HeaderAt(a, i)
  {
  }

  /** The first header behind headless bytes is where the next segment begins. */
  lemma FirstHeader(r: Data, t: Data, i: nat)
    requires Headless(r) && i < |r| && (t == [] || HeaderAt(t, 0))
    ensures !HeaderAt(r + t, i)
  {
    if HeaderAt(r + t, i) {
      if i + LENGTH <= |r| {
        HeaderIn(r, t, i);
      } else {
        HeaderMoves(r, t, 0);
        NoOverlap(r + t, i, |r|);
      }
    }
  }

  lemma StreamHead<M>(segs: seq<Segment<M>>)
    requires AllFramed(segs)
    ensures segs == [] ==> Stream(segs) == []
    ensures segs != [] ==> HeaderAt(Stream(segs), 0)
  {
    if segs != [] {
      HeaderIn(segs[0].bytes, Stream(segs[1..]), 0);
    }
  }

  /** Searching a prefix of the stream: the first header is at `at` if it is there at all. */
  lemma Searched(whole: Data, b: Data, from: nat, at: nat)
    requires b <= whole && from <= |b| && from <= at
    requires at < |whole| ==> HeaderAt(whole, at)
    requires forall i :: from <= i < at ==> !HeaderAt(whole, i)
    ensures FindFrom(b, from) == if at < |whole| && at + LENGTH <= |b| then Some(at) else None
  {
    FindsFirst(b, from);
    assert whole == b + whole[|b|..];
    forall i | from <= i && i + LENGTH <= |b|
      ensures HeaderAt(b, i) == HeaderAt(whole, i)
    {
      HeaderIn(b, whole[|b|..], i);
    }
  }

  /** A framed segment has no header but its first, whatever segment follows. */
  lemma SecondHeader(seg: Data, t: Data, i: nat)
    requires Framed(seg) && 0 < i < |seg| && (t == [] || HeaderAt(t, 0))
    ensures !HeaderAt(seg + t, i)
  {
    if HeaderAt(seg + t, i) {
      if i + LENGTH <= |seg| {
        HeaderIn(seg, t, i);
      } else {
        HeaderMoves(seg, t, 0);
        NoOverlap(seg + t, i, |seg|);
      }
    }
  }

  // ----- one call ------------------------------------------------------------------------------------------------

  ghost predicate AllFramed<M>(segs: seq<Segment<M>>)
  {
    forall k :: 0 <= k < |segs| ==> Framed(segs[k].bytes)
  }

  /** The buffer holds the beginning of headless bytes and then segments: the first header is that of the first
      segment. */
  lemma FirstSearch<M>(b: Data, rest: Data, r: Data, segs: seq<Segment<M>>)
    requires b + rest == r + Stream(segs) && Headless(r) && AllFramed(segs)
    ensures FindFrom(b, 0) == if segs != [] && |r| + LENGTH <= |b| then Some(|r|) else None
  {
    var whole := r + Stream(segs);
    StreamHead(segs);
    forall i | 0 <= i < |r| ensures !HeaderAt(whole, i) { FirstHeader(r, Stream(segs), i); }
    HeaderMoves(r, Stream(segs), 0);
    Searched(whole, b, 0, |r|);
  }

  lemma NoneBetween(r: Data, seg: Data, tail: Data)
    requires Framed(seg) && (tail == [] || HeaderAt(tail, 0))
    ensures forall i :: |r| < i < |r| + |seg| ==> !HeaderAt(r + (seg + tail), i)
  {
    forall i | |r| < i < |r| + |seg| ensures !HeaderAt(r + (seg + tail), i) {
      SecondHeader(seg, tail, i - |r|);
      HeaderMoves(r, seg + tail, i - |r|);
    }
  }

  lemma OneBehind(r: Data, seg: Data, tail: Data)
    requires HeaderAt(tail, 0)
    ensures HeaderAt(r + (seg + tail), |r| + |seg|)
  {
    HeaderMoves(seg, tail, 0);
    HeaderMoves(r, seg + tail, |seg|);
  }

  /** Where the headers of headless bytes, a segment, and what follows are. */
  ghost predicate Layout(whole: Data, start: nat, end: nat)
  {
    && start + LENGTH <= end <= |whole|
    && (forall i :: start < i < end ==> !HeaderAt(whole, i))
    && (end < |whole| ==> HeaderAt(whole, end))
  }

  lemma LayoutOf(r: Data, seg: Data, tail: Data)
    requires Framed(seg) && (tail == [] || HeaderAt(tail, 0))
    ensures Layout(r + (seg + tail), |r|, |r| + |seg|)
  {
    NoneBetween(r, seg, tail);
    if tail != [] {
      OneBehind(r, seg, tail);
    }
  }

  /** And the next is that of the second. */
  lemma SecondSearch(b: Data, whole: Data, start: nat, end: nat)
    requires b <= whole && Layout(whole, start, end) && start + LENGTH <= |b|
    ensures FindFrom(b, start + LENGTH) == if end < |whole| && end + LENGTH <= |b| then Some(end) else None
  {
    Searched(whole, b, start + LENGTH, end);
  }

  /** `t`, at least a header, is the beginning of the segments, and no second header is found in it: it is a part
      of the first segment, or the whole of it and the beginning of a header. */
  lemma NoSecondHeader<M>(t: Data, rest: Data, segs: seq<Segment<M>>)
    requires t + rest == Stream(segs) && segs != []
    requires AllFramed(segs)
    requires |segs| == 1 || |t| < |segs[0].bytes| + LENGTH
    ensures var seg := segs[0].bytes;
            if |t| <= |seg| then t == seg[..|t|] && rest == seg[|t|..] + Stream(segs[1..])
            else |t| - |seg| < LENGTH && t == seg + HEADER[..|t| - |seg|]
  {
    hide Framed, AllFramed, HeaderAt;
    var seg, tail := segs[0].bytes, Stream(segs[1..]);
    SplitAt(t, rest, seg, tail);
    if |seg| < |t| {
      TailHead(segs);
      HeaderStart(tail, |t| - |seg|);
    }
  }

  /** What follows the first segment begins with a header. */
  lemma TailHead<M>(segs: seq<Segment<M>>)
    requires AllFramed(segs) && segs != [] && Stream(segs[1..]) != []
    ensures |segs| > 1 && HeaderAt(Stream(segs[1..]), 0)
  {
    StreamHead(segs[1..]);
  }

  /** Two ways of cutting the same bytes. */
  lemma SplitAt(t: Data, rest: Data, seg: Data, tail: Data)
    requires t + rest == seg + tail
    ensures if |t| <= |seg| then t == seg[..|t|] && rest == seg[|t|..] + tail
            else |t| - |seg| <= |tail| && t == seg + tail[..|t| - |seg|]
  {
    var all := seg + tail;
    assert t == all[..|t|] && rest == all[|t|..];
  }

  lemma HeaderStart(tail: Data, j: nat)
    requires HeaderAt(tail, 0) && j < LENGTH
    ensures tail[..j] == HEADER[..j]
  {
  }

  /** What is behind the first bytes of the buffer. */
  lemma Behind(b: Data, rest: Data, r: Data, all: Data)
    requires b + rest == r + all && |r| <= |b|
    ensures b[|r|..] + rest == all
    ensures forall n :: |r| <= n <= |b| ==> b[|r|..n] == all[..n - |r|] && b[n..] + rest == all[n - |r|..]
  {
    assert (b + rest)[|r|..] == b[|r|..] + rest && (r + all)[|r|..] == all;
    forall n | |r| <= n <= |b|
      ensures b[|r|..n] == all[..n - |r|] && b[n..] + rest == all[n - |r|..]
    {
      assert b[|r|..n] == (b + rest)[|r|..n] == (r + all)[|r|..n] == all[..n - |r|];
      assert b[n..] + rest == (b + rest)[n..] == (r + all)[n..] == all[n - |r|..];
    }
  }

  /** The rest of a segment from its core on holds no header. */
  lemma TailHeadless(seg: Data, n: nat)
    requires Framed(seg) && 0 < n <= |seg|
    ensures Headless(seg[n..])
  {
    forall i | 0 <= i < |seg[n..]| ensures !HeaderAt(seg[n..], i) {
      assert seg == seg[..n] + seg[n..];
      HeaderMoves(seg[..n], seg[n..], i);
    }
  }

  /** Whether what is behind the last header is well formed. */
  lemma LastCheck<M(!new)>(t: Data, rest: Data, segs: seq<Segment<M>>, check: Data -> bool, parse: Data -> Option<M>)
    requires t + rest == Stream(segs) && segs != [] && AllSound(segs, check, parse) && LENGTH <= |t|
    requires |segs| == 1 || |t| < |segs[0].bytes| + LENGTH
    ensures var seg := segs[0];
            && check(t) == (seg.Good? && seg.core <= |t| <= |seg.bytes|)
            && (check(t) ==> parse(t) == seg.message && rest == seg.bytes[|t|..] + Stream(segs[1..]))
  {
    NoSecondHeader(t, rest, segs);
    assert Sound(segs[0], check, parse);
  }

  /** Whether a complete segment is well formed. */
  lemma WholeCheck<M(!new)>(seg: Segment<M>, check: Data -> bool, parse: Data -> Option<M>)
    requires Sound(seg, check, parse)
    ensures check(seg.bytes) == seg.Good? && (seg.Good? ==> parse(seg.bytes) == seg.message)
  {
    assert seg.bytes[..|seg.bytes|] == seg.bytes;
  }

  lemma LayoutOfStream<M>(whole: Data, r: Data, segs: seq<Segment<M>>)
    requires whole == r + Stream(segs) && AllFramed(segs) && segs != []
    ensures var end := |r| + |segs[0].bytes|; Layout(whole, |r|, end) && (end < |whole| <==> |segs| > 1)
  {
    StreamHead(segs[1..]);
    LayoutOf(r, segs[0].bytes, Stream(segs[1..]));
  }

  /** Where the next segment begins, if its header is there. */
  function NextSegment<M>(b: Data, r: Data, segs: seq<Segment<M>>): Option<nat>
    requires segs != []
  {
    var n := |r| + |segs[0].bytes|;
    if |segs| > 1 && n + LENGTH <= |b| then Some(n) else None
  }

  lemma SearchBehind<M>(b: Data, whole: Data, r: Data, segs: seq<Segment<M>>)
    requires segs != [] && b <= whole && |r| + LENGTH <= |b|
    requires var end := |r| + |segs[0].bytes|; Layout(whole, |r|, end) && (end < |whole| <==> |segs| > 1)
    ensures FindFrom(b, |r| + LENGTH) == NextSegment(b, r, segs)
  {
    SecondSearch(b, whole, |r|, |r| + |segs[0].bytes|);
  }

  /** Both searches: a call cuts at the first segment, or finds no header. */
  lemma ExtractIsCut<M>(b: Data, rest: Data, r: Data, segs: seq<Segment<M>>, check: Data -> bool,
                        parse: Data -> Option<M>)
    requires b + rest == r + Stream(segs) && Headless(r) && AllFramed(segs)
    ensures Extract(b, check, parse) ==
              if segs == [] || |b| < |r| + LENGTH then (None, b)
              else Cut(b, |r|, NextSegment(b, r, segs), check, parse)
  {
    FirstSearch(b, rest, r, segs);
    if segs != [] && |r| + LENGTH <= |b| {
      LayoutOfStream(b + rest, r, segs);
      SearchBehind(b, b + rest, r, segs);
    }
  }

  /** A complete segment, with the header of the next one behind it. */
  lemma CutSegment<M(!new)>(b: Data, rest: Data, r: Data, segs: seq<Segment<M>>, check: Data -> bool,
                            parse: Data -> Option<M>)
    requires b + rest == r + Stream(segs) && segs != [] && Sound(segs[0], check, parse)
    requires |r| + |segs[0].bytes| <= |b|
    ensures var (m, b') := Cut(b, |r|, Some(|r| + |segs[0].bytes|), check, parse);
            b' + rest == Stream(segs[1..]) && ToSeq(m) == if segs[0].Good? then ToSeq(segs[0].message) else []
  {
    var seg := segs[0].bytes;
    Behind(b, rest, r, Stream(segs));
    assert Stream(segs)[..|seg|] == seg && Stream(segs)[|seg|..] == Stream(segs[1..]);
    WholeCheck(segs[0], check, parse);
  }

  /** What is behind the last header. */
  lemma CutLast<M(!new)>(b: Data, rest: Data, r: Data, segs: seq<Segment<M>>, check: Data -> bool,
                         parse: Data -> Option<M>)
    requires b + rest == r + Stream(segs) && AllSound(segs, check, parse) && segs != [] && |r| + LENGTH <= |b|
    requires |segs| == 1 || |b| < |r| + |segs[0].bytes| + LENGTH
    ensures var (m, b') := Cut(b, |r|, None, check, parse);
            var seg, n := segs[0], |b| - |r|;
            if seg.Good? && seg.core <= n <= |seg.bytes|
            then m == seg.message && b' == [] && rest == seg.bytes[n..] + Stream(segs[1..])
            else m == None && b' == b
  {
    hide AllSound, Stream;
    Behind(b, rest, r, Stream(segs));
    LastCheck(b[|r|..], rest, segs, check, parse);
  }

  /** The call that finds the next segment's header. */
  lemma CutStep<M(!new)>(b: Data, rest: Data, r: Data, segs: seq<Segment<M>>, check: Data -> bool,
                         parse: Data -> Option<M>)
    requires b + rest == r + Stream(segs) && Headless(r) && AllSound(segs, check, parse)
    requires |segs| > 1 && |r| + |segs[0].bytes| + LENGTH <= |b|
    ensures var (m, b') := Extract(b, check, parse);
            b' + rest == Stream(segs[1..]) && Messages(segs) == ToSeq(m) + Messages(segs[1..])
  {
    assert Framed(segs[0].bytes);
    ExtractIsCut(b, rest, r, segs, check, parse);
    CutSegment(b, rest, r, segs, check, parse);
  }

  /** The call that finds no second header. */
  lemma LastStep<M(!new)>(b: Data, rest: Data, r: Data, segs: seq<Segment<M>>, check: Data -> bool,
                          parse: Data -> Option<M>)
    requires b + rest == r + Stream(segs) && Headless(r) && AllSound(segs, check, parse) && segs != []
    requires |segs| == 1 || |b| < |r| + |segs[0].bytes| + LENGTH
    ensures var (m, b') := Extract(b, check, parse);
            var seg, n := segs[0], |b| - |r|;
            if seg.Good? && seg.core <= n <= |seg.bytes|
            then m == seg.message && b' == [] && rest == seg.bytes[n..] + Stream(segs[1..])
            else m == None && b' == b
  {
    ExtractIsCut(b, rest, r, segs, check, parse);
    if |r| + LENGTH <= |b| {
      CutLast(b, rest, r, segs, check, parse);
    }
  }

  /** What one call does. The next message is cut out if the segment it stands in is complete and good; a complete
      bad segment is thrown away, an incomplete one kept. `r'` and `segs'` are what the buffer holds the beginning
      of afterwards. */
  lemma ExtractStep<M(!new)>(b: Data, rest: Data, r: Data, segs: seq<Segment<M>>, check: Data -> bool,
                             parse: Data -> Option<M>) returns (r': Data, segs': seq<Segment<M>>)
    requires b + rest == r + Stream(segs) && Headless(r) && AllSound(segs, check, parse)
    ensures var (m, b') := Extract(b, check, parse);
            b' + rest == r' + Stream(segs') && Messages(segs) == ToSeq(m) + Messages(segs')
    ensures Headless(r') && AllSound(segs', check, parse)
    ensures segs' == segs || (segs != [] && segs' == segs[1..])
    ensures rest == [] && |segs| > 1 ==> segs' == segs[1..]
    ensures rest == [] && |segs| == 1 && segs[0].Good? ==> segs' == []
  {
    r', segs' := r, segs;
    assert ToSeq<M>(None) + Messages(segs) == Messages(segs);
    if segs == [] {
      ExtractIsCut(b, rest, r, segs, check, parse);
    } else {
      var seg, n := segs[0], |b| - |r|;
      if |segs| > 1 && |seg.bytes| + LENGTH <= n {
        CutStep(b, rest, r, segs, check, parse);
        r', segs' := [], segs[1..];
        assert r' + Stream(segs') == Stream(segs');
      } else {
        LastStep(b, rest, r, segs, check, parse);
        if seg.Good? && seg.core <= n <= |seg.bytes| {
          r', segs' := seg.bytes[n..], segs[1..];
          TailHeadless(seg.bytes, n);
          assert [] + rest == rest;
        }
      }
      if rest == [] {
        EndOfStream(b, r, segs);
      }
    }
  }

  lemma EndOfStream<M>(b: Data, r: Data, segs: seq<Segment<M>>)
    requires b + [] == r + Stream(segs) && segs != [] && AllFramed(segs)
    ensures |b| == |r| + |segs[0].bytes| + |Stream(segs[1..])|
    ensures |segs| > 1 ==> |Stream(segs[1..])| >= LENGTH
  {
    if |segs| > 1 {
      StreamHead(segs[1..]);
    }
  }

  // ----- what the receive loop keeps -----------------------------------------------------------------------------

  /** The bytes that wait on the socket. */
  function Wire(net: seq<Arrival>): Data
  {
    if net == [] then [] else (if net[0].Chunk? then net[0].bytes else []) + Wire(net[1..])
  }

  /** The connection does not end. */
  predicate Quiet(net: seq<Arrival>)
  {
    forall k :: 0 <= k < |net| ==> net[k].Nothing? || (net[k].Chunk? && net[k].bytes != [])
  }

  /** A piece of which only a part is taken. */
  lemma SplitPiece(net: seq<Arrival>, space: nat)
    requires net != [] && net[0].Chunk? && space < |net[0].bytes|
    ensures Wire(net) == net[0].bytes[..space] + Wire([Chunk(net[0].bytes[space..])] + net[1..])
  {
    var bytes, left := net[0].bytes, [Chunk(net[0].bytes[space..])] + net[1..];
    assert left[1..] == net[1..] && bytes == bytes[..space] + bytes[space..];
    Associative(bytes[..space], bytes[space..], Wire(net[1..]));
  }

  lemma RecvKeeps(net: seq<Arrival>, space: nat)
    ensures var (got, net') := Recv(net, space);
            && Wire(net) == (if got.Chunk? then got.bytes else []) + Wire(net')
            && (net != [] ==> |net'| < |net| || (|net'| == |net| && got.Chunk? && |got.bytes| == space))
  {
    if net != [] && net[0].Chunk? && space < |net[0].bytes| {
      SplitPiece(net, space);
    }
  }

  lemma RecvQuiet(net: seq<Arrival>, space: nat)
    requires Quiet(net)
    ensures var (got, net') := Recv(net, space);
            Quiet(net') && !got.Closed? && !got.Failed? && (0 < space && got.Chunk? ==> got.bytes != [])
  {
  }

  /** As long as what is buffered and what waits stay below the limit, nothing is lost between socket and buffer. */
  lemma {:induction false} FillKeeps(b: Buffer, limit: nat, net: seq<Arrival>)
    requires |b.content| < b.size && |b.content| + |Wire(net)| < limit
    ensures var (r, net') := Fill(b, limit, net); r.content + Wire(net') == b.content + Wire(net)
    decreases limit - b.size
  {
    RecvKeeps(net, b.size - |b.content|);
    var (got, net') := Recv(net, b.size - |b.content|);
    if got.Chunk? && got.bytes != [] {
      var content := b.content + got.bytes;
      Associative(b.content, got.bytes, Wire(net'));
      if |content| == b.size && b.size < limit {
        FillKeeps(b.(content := content, size := 2 * b.size), limit, net');
      }
    }
  }

  /** A quiet connection stays, and a call takes in at least the first piece. */
  lemma {:induction false} FillQuiet(b: Buffer, limit: nat, net: seq<Arrival>)
    requires |b.content| < b.size && |b.content| + |Wire(net)| < limit && Quiet(net)
    ensures var (r, net') := Fill(b, limit, net);
            Quiet(net') && r.client == b.client && (if net == [] then net' == [] else |net'| < |net|)
    decreases limit - b.size
  {
    RecvKeeps(net, b.size - |b.content|);
    RecvQuiet(net, b.size - |b.content|);
    var (got, net') := Recv(net, b.size - |b.content|);
    if got.Chunk? {
      var content := b.content + got.bytes;
      if |content| == b.size && b.size < limit {
        FillQuiet(b.(content := content, size := 2 * b.size), limit, net');
      }
    }
  }

  /** The capacity is the initial one doubled at most four times. */
  predicate Capacity(size: nat, initial: nat)
  {
    size == initial || size == 2 * initial || size == 4 * initial || size == 8 * initial || size == 16 * initial
  }

  lemma {:induction false} FillCapacity(b: Buffer, initial: nat, net: seq<Arrival>)
    requires |b.content| < b.size && Capacity(b.size, initial)
    ensures Capacity(Fill(b, 16 * initial, net).0.size, initial)
    decreases 16 * initial - b.size
  {
    var got := Recv(net, b.size - |b.content|).0;
    if got.Chunk? && got.bytes != [] {
      var content := b.content + got.bytes;
      if |content| == b.size && b.size < 16 * initial {
        FillCapacity(b.(content := content, size := 2 * b.size), initial, Recv(net, b.size - |b.content|).1);
      }
    }
  }

  // ----- runs ------------------------------------------------------------------------------------------------------

  datatype Link<M> = Link(buffer: Buffer, net: seq<Arrival>, delivered: seq<M>)

  /** Something arrives at the socket, or the program calls `messenger_receive_message`, a client waiting or not. */
  datatype Move = Arrive(pieces: seq<Arrival>) | Call(accept: bool)

  /** The link, whose buffer is never full between calls. */
  predicate Valid<M>(l: Link<M>) { |l.buffer.content| < l.buffer.size }

  function Step<M>(l: Link<M>, move: Move, limit: nat, check: Data -> bool, parse: Data -> Option<M>): (r: Link<M>)
    requires Valid(l)
    ensures Valid(r)
  {
    match move
    case Arrive(pieces) => l.(net := l.net + pieces)
    case Call(accept) =>
      var (b, net) := TakeIn(l.buffer, limit, accept, l.net);
      var (m, content) := Extract(b.content, check, parse);
      Link(b.(content := content), net, l.delivered + ToSeq(m))
  }

  function Run<M>(l: Link<M>, moves: seq<Move>, limit: nat, check: Data -> bool, parse: Data -> Option<M>): (r: Link<M>)
    requires Valid(l)
    ensures Valid(r)
    decreases |moves|
  {
    if moves == [] then l else Run(Step(l, moves[0], limit, check, parse), moves[1..], limit, check, parse)
  }

  /** At each call what is buffered and what waits stay below the limit. */
  ghost predicate Fits<M>(l: Link<M>, moves: seq<Move>, limit: nat, check: Data -> bool, parse: Data -> Option<M>)
    requires Valid(l)
    decreases |moves|
  {
    moves != [] ==>
      && (moves[0].Call? ==> |l.buffer.content| + |Wire(l.net)| < limit)
      && Fits(Step(l, moves[0], limit, check, parse), moves[1..], limit, check, parse)
  }

  /** Everything that arrives. */
  function Arrived(moves: seq<Move>): Data
  {
    if moves == [] then [] else (if moves[0].Arrive? then Wire(moves[0].pieces) else []) + Arrived(moves[1..])
  }

  lemma {:induction false} WireAppend(a: seq<Arrival>, b: seq<Arrival>)
    ensures Wire(a + b) == Wire(a) + Wire(b)
  {
    if a == [] {
      assert a + b == b;
      assert [] + Wire(b) == Wire(b);
    } else {
      assert (a + b)[1..] == a[1..] + b;
      WireAppend(a[1..], b);
      Associative(if a[0].Chunk? then a[0].bytes else [], Wire(a[1..]), Wire(b));
    }
  }

  lemma TakeInKeeps(b: Buffer, limit: nat, accept: bool, net: seq<Arrival>)
    requires |b.content| < b.size && |b.content| + |Wire(net)| < limit
    ensures var (r, net') := TakeIn(b, limit, accept, net);
            && r.content + Wire(net') == b.content + Wire(net)
            && (accept && Quiet(net) ==>
                  r.client && Quiet(net') && (if net == [] then net' == [] else |net'| < |net|))
  {
    FillKeeps(b.(client := true), limit, net);
    if Quiet(net) {
      FillQuiet(b.(client := true), limit, net);
    }
  }

  /** What is buffered and what is still to come, from the buffer on. */
  function Ahead<M>(l: Link<M>, future: Data): Data { l.buffer.content + (Wire(l.net) + future) }

  /** One call in a run. */
  lemma CallKeeps<M(!new)>(l: Link<M>, accept: bool, future: Data, r: Data, segs: seq<Segment<M>>, limit: nat,
                           check: Data -> bool, parse: Data -> Option<M>) returns (r': Data, segs': seq<Segment<M>>)
    requires Valid(l) && |l.buffer.content| + |Wire(l.net)| < limit
    requires Ahead(l, future) == r + Stream(segs) && Headless(r) && AllSound(segs, check, parse)
    ensures var l' := Step(l, Call(accept), limit, check, parse);
            && Ahead(l', future) == r' + Stream(segs') && Headless(r') && AllSound(segs', check, parse)
            && l'.delivered + Messages(segs') == l.delivered + Messages(segs)
            && (segs' == segs || (segs != [] && segs' == segs[1..]))
            && (Wire(l'.net) + future == [] ==>
                  (|segs| > 1 ==> segs' == segs[1..]) && (|segs| == 1 && segs[0].Good? ==> segs' == []))
  {
    TakeInKeeps(l.buffer, limit, accept, l.net);
    var (b, net) := TakeIn(l.buffer, limit, accept, l.net);
    Associative(l.buffer.content, Wire(l.net), future);
    Associative(b.content, Wire(net), future);
    r', segs' := ExtractStep(b.content, Wire(net) + future, r, segs, check, parse);
    var m := Extract(b.content, check, parse).0;
    Associative(l.delivered, ToSeq(m), Messages(segs'));
  }

  /** Over any run: what has been delivered, and what the buffer, the socket and the future still hold, are the
      messages sent, in order. */
  lemma {:induction false} RunKeeps<M(!new)>(l: Link<M>, moves: seq<Move>, future: Data, r: Data,
                                             segs: seq<Segment<M>>, limit: nat, check: Data -> bool,
                                             parse: Data -> Option<M>) returns (r': Data, segs': seq<Segment<M>>)
    requires Valid(l) && Fits(l, moves, limit, check, parse)
    requires Ahead(l, Arrived(moves) + future) == r + Stream(segs) && Headless(r) && AllSound(segs, check, parse)
    ensures var l' := Run(l, moves, limit, check, parse);
            && Ahead(l', future) == r' + Stream(segs') && Headless(r') && AllSound(segs', check, parse)
            && l'.delivered + Messages(segs') == l.delivered + Messages(segs)
            && |segs'| <= |segs|
    decreases |moves|
  {
    if moves == [] {
      assert [] + future == future;
      r', segs' := r, segs;
    } else {
      var l1, rest := Step(l, moves[0], limit, check, parse), Arrived(moves[1..]);
      if moves[0].Arrive? {
        var new_ := Wire(moves[0].pieces);
        WireAppend(l.net, moves[0].pieces);
        Associative(new_, rest, future);
        Associative(Wire(l.net), new_, rest + future);
        r', segs' := RunKeeps(l1, moves[1..], future, r, segs, limit, check, parse);
      } else {
        assert Arrived(moves) == rest;
        var r1, segs1 := CallKeeps(l, moves[0].accept, rest + future, r, segs, limit, check, parse);
        r', segs' := RunKeeps(l1, moves[1..], future, r1, segs1, limit, check, parse);
      }
    }
  }

  /** A messenger that has just been set up. */
  function Fresh<M>(initial: nat): Link<M>
  {
    Link(Buffer([], initial, false), [], [])
  }

  /** For any split of the stream into pieces, whatever corrupt segments are in it, and with any reconnections: the
      messages delivered so far are the first of those sent, in order; none is lost, repeated or made up. */
  lemma DeliversInOrder<M(!new)>(initial: nat, moves: seq<Move>, future: Data, segs: seq<Segment<M>>,
                                 check: Data -> bool, parse: Data -> Option<M>)
    requires 0 < initial && Fits(Fresh<M>(initial), moves, 16 * initial, check, parse)
    requires Arrived(moves) + future == Stream(segs) && AllSound(segs, check, parse)
    ensures Run(Fresh<M>(initial), moves, 16 * initial, check, parse).delivered <= Messages(segs)
  {
    var all := Arrived(moves) + future;
    assert [] + all == all && [] + ([] + all) == all && [] + Messages(segs) == Messages(segs);
    var r', segs' := RunKeeps(Fresh<M>(initial), moves, future, [], segs, 16 * initial, check, parse);
  }

  /** The link after `n` calls with a client, nothing arriving in between. */
  function AfterCalls<M>(l: Link<M>, n: nat, limit: nat, check: Data -> bool, parse: Data -> Option<M>): Link<M>
    requires Valid(l)
    decreases n
  {
    if n == 0 then l else AfterCalls(Step(l, Call(true), limit, check, parse), n - 1, limit, check, parse)
  }

  lemma CallShrinks<M>(l: Link<M>, limit: nat, check: Data -> bool, parse: Data -> Option<M>)
    requires Valid(l) && Quiet(l.net) && |l.buffer.content| + |Wire(l.net)| < limit
    ensures var l1 := Step(l, Call(true), limit, check, parse);
            && Quiet(l1.net) && |l1.buffer.content| + |Wire(l1.net)| < limit
            && (if l.net == [] then l1.net == [] else |l1.net| < |l.net|)
  {
    TakeInKeeps(l.buffer, limit, true, l.net);
    var (b, net) := TakeIn(l.buffer, limit, true, l.net);
    assert |b.content| + |Wire(net)| == |b.content + Wire(net)|;
  }

  /** Nothing more arrives, and `n` calls are enough: each takes a piece from the socket or cuts a segment out of
      the buffer, and a bad segment at the end stays. */
  ghost predicate Enough<M(!new)>(l: Link<M>, n: nat, r: Data, segs: seq<Segment<M>>, limit: nat, check: Data -> bool,
                                  parse: Data -> Option<M>)
  {
    && Valid(l) && Quiet(l.net) && |l.buffer.content| + |Wire(l.net)| < limit
    && Ahead(l, []) == r + Stream(segs) && Headless(r) && AllSound(segs, check, parse)
    && (|l.net| + |segs| <= n || (l.net == [] && |segs| == 1 && segs[0].Bad?))
  }

  lemma CallProgress<M(!new)>(l: Link<M>, n: nat, r: Data, segs: seq<Segment<M>>, limit: nat, check: Data -> bool,
                              parse: Data -> Option<M>) returns (r': Data, segs': seq<Segment<M>>)
    requires 0 < n && Enough(l, n, r, segs, limit, check, parse)
    ensures var l1 := Step(l, Call(true), limit, check, parse);
            && Enough(l1, n - 1, r', segs', limit, check, parse)
            && l1.delivered + Messages(segs') == l.delivered + Messages(segs)
  {
    r', segs' := CallKeeps(l, true, [], r, segs, limit, check, parse);
    CallShrinks(l, limit, check, parse);
  }

  lemma NothingLeft<M(!new)>(l: Link<M>, r: Data, segs: seq<Segment<M>>, limit: nat, check: Data -> bool,
                             parse: Data -> Option<M>)
    requires Enough(l, 0, r, segs, limit, check, parse)
    ensures Messages(segs) == []
  {
    if segs != [] {
      assert segs[1..] == [];
    }
  }

  /** When nothing more arrives, as many further calls as there are pieces on the socket and segments deliver
      what is left; more calls deliver nothing more. */
  lemma {:induction false} CallsFinish<M(!new)>(l: Link<M>, n: nat, r: Data, segs: seq<Segment<M>>, limit: nat,
                                                check: Data -> bool, parse: Data -> Option<M>)
    requires Enough(l, n, r, segs, limit, check, parse)
    ensures AfterCalls(l, n, limit, check, parse).delivered == l.delivered + Messages(segs)
    decreases n
  {
    if n == 0 {
      NothingLeft(l, r, segs, limit, check, parse);
      assert l.delivered + [] == l.delivered;
    } else {
      var r1, segs1 := CallProgress(l, n, r, segs, limit, check, parse);
      CallsFinish(Step(l, Call(true), limit, check, parse), n - 1, r1, segs1, limit, check, parse);
    }
  }

  /** Once everything has arrived, finitely many calls deliver exactly the messages of the good segments: a corrupt
      segment costs itself and no other. */
  lemma DeliversAll<M(!new)>(initial: nat, moves: seq<Move>, segs: seq<Segment<M>>, n: nat, check: Data -> bool,
                             parse: Data -> Option<M>)
    requires 0 < initial && Fits(Fresh<M>(initial), moves, 16 * initial, check, parse)
    requires Arrived(moves) == Stream(segs) && AllSound(segs, check, parse)
    requires var l := Run(Fresh<M>(initial), moves, 16 * initial, check, parse);
             Quiet(l.net) && |l.buffer.content| + |Wire(l.net)| < 16 * initial && |l.net| + |segs| <= n
    ensures var l := Run(Fresh<M>(initial), moves, 16 * initial, check, parse);
            AfterCalls(l, n, 16 * initial, check, parse).delivered == Messages(segs)
  {
    var all, limit := Arrived(moves), 16 * initial;
    assert all + [] == all && [] + all == all && [] + Messages(segs) == Messages(segs);
    var r', segs' := RunKeeps(Fresh<M>(initial), moves, [], [], segs, limit, check, parse);
    CallsFinish(Run(Fresh<M>(initial), moves, limit, check, parse), n, r', segs', limit, check, parse);
  }

  /** Over any run whatsoever the buffer holds the initial size times 2^k bytes, k at most 4, and is never full
      after a call. */
  lemma {:induction false} CapacityBounded<M(!new)>(l: Link<M>, initial: nat, moves: seq<Move>, check: Data -> bool,
                                                    parse: Data -> Option<M>)
    requires Valid(l) && Capacity(l.buffer.size, initial)
    ensures var l' := Run(l, moves, 16 * initial, check, parse);
            Capacity(l'.buffer.size, initial) && |l'.buffer.content| < l'.buffer.size
    decreases |moves|
  {
    if moves == [] {
    } else {
      FillCapacity(l.buffer.(client := true), initial, l.net);
      CapacityBounded(Step(l, moves[0], 16 * initial, check, parse), initial, moves[1..], check, parse);
    }
  }
}
