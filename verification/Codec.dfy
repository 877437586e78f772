/** The messages between controller and client as XML nodes (controller/messenger.c): the parsers and the order in
    which they are tried, the generators of the messages that have a parser, and what a round trip gives. */
module Codec {
  import opened Sequences
  import opened Text
  import opened Wrappers
  import opened Xml

  /** The messages there is a parser for, in the order of the parsers. */
  datatype Kind =
    | Ack | Alive | StreamStart | StreamStop | LoudnessStart | LoudnessStop | StatusStart | StatusStop | ChannelChange
    | LoudnessReset | Schedule | ScheduleRequest | PlaybackListRequest | LogListRequest | UserLoudness
    | UserLoudnessRequest | ChannelListRequest

  const CHAIN: seq<Kind> :=
    [Ack, Alive, StreamStart, StreamStop, LoudnessStart, LoudnessStop, StatusStart, StatusStop, ChannelChange,
     LoudnessReset, Schedule, ScheduleRequest, PlaybackListRequest, LogListRequest, UserLoudness,
     UserLoudnessRequest, ChannelListRequest]

  function Root(k: Kind): string
  {
    match k
    case Ack => "ack"
    case Alive => "alive"
    case StreamStart => "stream_start"
    case StreamStop => "stream_stop"
    case LoudnessStart => "loudness_start"
    case LoudnessStop => "loudness_stop"
    case StatusStart => "status_start"
    case StatusStop => "status_stop"
    case ChannelChange => "channel_change"
    case LoudnessReset => "loudness_reset"
    case Schedule => "schedule"
    case ScheduleRequest => "schedule_request"
    case PlaybackListRequest => "playback_list_request"
    case LogListRequest => "log_list_request"
    case UserLoudness => "user_loudness"
    case UserLoudnessRequest => "user_loudness_request"
    case ChannelListRequest => "channel_list_request"
  }

  /** An attribute of a child element: a number, or a text with the size of its field. */
  datatype Column = Number(name: string) | Words(name: string, size: nat)

  /** The child elements a parser collects: their name and the attributes they must have. */
  datatype Shape = NoChildren | Children(name: string, columns: seq<Column>) | FilesWithSections

  function ShapeOf(k: Kind): Shape
  {
    match k
    case StreamStart => Children("card", [Number("index"), Number("port")])
    case StreamStop => Children("card", [Number("index")])
    case ChannelChange => Children("card", [Number("index"), Number("channel")])
    case LoudnessReset => Children("card", [Number("index")])
    case Schedule => Children("card", [Number("index"), Words("start", 24), Words("end", 24), Number("channel")])
    case UserLoudness => FilesWithSections
    case UserLoudnessRequest => Children("file", [Words("name", 128)])
    case _ => NoChildren
  }

  datatype Field = Integer(value: int) | Str(text: string)
  type Row = seq<Field>

  datatype Section = Section(start: string, end: string, loudness: real, comment: string)
  datatype File = File(name: string, recordName: string, sections: seq<Section>)

  datatype Body = Rows(rows: seq<Row>) | Files(files: seq<File>)
  datatype Message = Message(kind: Kind, ip: string, number: int, body: Body)

  const IP_SIZE: nat := 16
  const NAME_SIZE: nat := 128
  const TIME_SIZE: nat := 16

  // ----- parsing ---------------------------------------------------------------------------------------------------

  /** `strncpy` into a field. */
  function Copied(s: string, size: nat): string { if |s| < size then s else s[..size] }

  function ParseField(attributes: Attributes, c: Column): Option<Field>
  {
    match GetAttribute(attributes, c.name)
    case None => None
    case Some(s) => Some(if c.Number? then Integer(ToInt(Strtol(s))) else Str(Copied(s, c.size)))
  }

  function ParseRow(attributes: Attributes, columns: seq<Column>): (r: Option<Row>)
    ensures r.Some? ==> |r.value| == |columns|
  {
    if columns == [] then Some([])
    else
      match ParseField(attributes, columns[0])
      case None => None
      case Some(f) =>
        match ParseRow(attributes, columns[1..])
        case None => None
        case Some(rest) => Some([f] + rest)
  }

  function ParseSection(attributes: Attributes): Option<Section>
  {
    var start, end := GetAttribute(attributes, "start"), GetAttribute(attributes, "end");
    var loudness, comment := GetAttribute(attributes, "loudness"), GetAttribute(attributes, "comment");
    if start.Some? && end.Some? && loudness.Some? && comment.Some? then
      Some(Section(Copied(start.value, TIME_SIZE), Copied(end.value, TIME_SIZE), Strtod(loudness.value),
                   Copied(comment.value, NAME_SIZE)))
    else None
  }

  /** What a parser returns and where it leaves the reader. */
  type Parsed<T> = (Option<T>, seq<Node>)

  /** The node a loop over children looks at next. */
  function Next(nodes: seq<Node>): (r: seq<Node>)
    requires nodes != []
    ensures |r| < |nodes| && (r != [] ==> !Noise(r[0]))
  {
    Skip(nodes[1..])
  }

  function Prepend<T>(x: T, p: Parsed<seq<T>>): Parsed<seq<T>>
  {
    (if p.0.Some? then Some([x] + p.0.value) else None, p.1)
  }

  /** The children behind the current node: up to the first node that is no element. */
  function ParseRows(nodes: seq<Node>, child: string, columns: seq<Column>): (r: Parsed<seq<Row>>)
    requires nodes != []
    ensures |r.1| < |nodes|
    decreases |nodes|
  {
    var at := Next(nodes);
    if at == [] || !at[0].Element? then (Some([]), at)
    else if at[0].name != child then (None, at)
    else
      match ParseRow(at[0].attributes, columns)
      case None => (None, at)
      case Some(row) => Prepend(row, ParseRows(at, child, columns))
  }

  function ParseSections(nodes: seq<Node>): (r: Parsed<seq<Section>>)
    requires nodes != []
    ensures |r.1| < |nodes|
    decreases |nodes|
  {
    var at := Next(nodes);
    if at == [] || !at[0].Element? then (Some([]), at)
    else if at[0].name != "section" then (None, at)
    else
      match ParseSection(at[0].attributes)
      case None => (None, at)
      case Some(section) => Prepend(section, ParseSections(at))
  }

  /** Files with their sections; the sections of a file must be followed by its end node. */
  function ParseFiles(nodes: seq<Node>): (r: Parsed<seq<File>>)
    requires nodes != []
    ensures |r.1| < |nodes|
    decreases |nodes|
  {
    var at := Next(nodes);
    if at == [] || !at[0].Element? then (Some([]), at)
    else if at[0].name != "file" then (None, at)
    else
      var name, recordName := GetAttribute(at[0].attributes, "name"), GetAttribute(at[0].attributes, "record_name");
      if name.None? || recordName.None? then (None, at)
      else
        var (sections, end) := ParseSections(at);
        if sections.None? || end == [] || !end[0].End? || end[0].name != "file" then (None, end)
        else Prepend(File(Copied(name.value, NAME_SIZE), Copied(recordName.value, NAME_SIZE), sections.value), ParseFiles(end))
  }

  function ParseBody(k: Kind, nodes: seq<Node>): (r: Parsed<Body>)
    requires nodes != []
    ensures |r.1| <= |nodes|
  {
    match ShapeOf(k)
    case NoChildren => (Some(Rows([])), nodes)
    case Children(child, columns) =>
      var (rows, at) := ParseRows(nodes, child, columns);
      (if rows.Some? then Some(Rows(rows.value)) else None, at)
    case FilesWithSections =>
      var (files, at) := ParseFiles(nodes);
      (if files.Some? then Some(Files(files.value)) else None, at)
  }

  function ParseIp(attributes: Attributes): string
  {
    match GetAttribute(attributes, "ip") case None => "" case Some(s) => Copied(s, IP_SIZE)
  }

  function ParseNumber(attributes: Attributes): int
  {
    match GetAttribute(attributes, "number") case None => 0 case Some(s) => ToInt(Strtol(s))
  }

  /** One parser. */
  function ParseKind(k: Kind, nodes: seq<Node>): (r: Parsed<Message>)
    ensures |r.1| <= |nodes|
  {
    var at := Skip(nodes);
    if at == [] || !at[0].Element? || at[0].name != Root(k) then (None, at)
    else
      var (body, end) := ParseBody(k, at);
      (if body.Some? then Some(Message(k, ParseIp(at[0].attributes), ParseNumber(at[0].attributes), body.value))
       else None, end)
  }

  /** The parsers one after the other, each from where the one before it left the reader. */
  function ParseChain(kinds: seq<Kind>, nodes: seq<Node>): Option<Message>
  {
    if kinds == [] then None
    else
      var (m, end) := ParseKind(kinds[0], nodes);
      if m.Some? then m else ParseChain(kinds[1..], end)
  }

  /** `parse_xml`, from the nodes of the document. */
  function Parse(nodes: seq<Node>): Option<Message>
  {
    if nodes == [] then None else ParseChain(CHAIN, nodes)
  }

  // ----- comments and white space do not matter ------------------------------------------------------------------------

  /** Parsing without the noise comes to the same result at the same place. */
  ghost predicate SameButNoise<T>(p: Parsed<T>, q: Parsed<T>) { q.0 == p.0 && q.1 == Strip(p.1) }

  lemma NextStripped(nodes: seq<Node>)
    requires nodes != [] && !Noise(nodes[0])
    ensures Strip(nodes) != [] && Strip(nodes)[0] == nodes[0] && Next(Strip(nodes)) == Strip(Next(nodes))
  {
    SkipStrips(nodes[1..]);
  }

  lemma HeadStripped(nodes: seq<Node>)
    requires nodes == [] || !Noise(nodes[0])
    ensures (nodes == []) == (Strip(nodes) == []) && (nodes != [] ==> Strip(nodes)[0] == nodes[0])
  {
  }

  lemma {:induction false} RowsStripped(nodes: seq<Node>, child: string, columns: seq<Column>)
    requires nodes != [] && !Noise(nodes[0])
    ensures Strip(nodes) != []
    ensures SameButNoise(ParseRows(nodes, child, columns), ParseRows(Strip(nodes), child, columns))
    decreases |nodes|
  {
    NextStripped(nodes);
    var at := Next(nodes);
    HeadStripped(at);
    if at == [] {
    } else {
      RowsStripped(at, child, columns);
    }
  }

  lemma {:induction false} SectionsStripped(nodes: seq<Node>)
    requires nodes != [] && !Noise(nodes[0])
    ensures Strip(nodes) != [] && SameButNoise(ParseSections(nodes), ParseSections(Strip(nodes)))
    ensures var end := ParseSections(nodes).1; end != [] ==> !Noise(end[0])
    decreases |nodes|
  {
    NextStripped(nodes);
    var at := Next(nodes);
    HeadStripped(at);
    if at == [] {
    } else {
      SectionsStripped(at);
    }
  }

  lemma {:induction false} FilesStripped(nodes: seq<Node>)
    requires nodes != [] && !Noise(nodes[0])
    ensures Strip(nodes) != [] && SameButNoise(ParseFiles(nodes), ParseFiles(Strip(nodes)))
    decreases |nodes|
  {
    hide ParseSections, GetAttribute, Skip;
    NextStripped(nodes);
    var at := Next(nodes);
    HeadStripped(at);
    if at == [] {
    } else {
      SectionsStripped(at);
      var end := ParseSections(at).1;
      HeadStripped(end);
      if end != [] {
        FilesStripped(end);
      }
    }
  }

  lemma BodyStripped(k: Kind, nodes: seq<Node>)
    requires nodes != [] && !Noise(nodes[0])
    ensures Strip(nodes) != [] && SameButNoise(ParseBody(k, nodes), ParseBody(k, Strip(nodes)))
  {
    match ShapeOf(k)
    case NoChildren =>
    case Children(child, columns) => RowsStripped(nodes, child, columns);
    case FilesWithSections => FilesStripped(nodes);
  }

  lemma KindStripped(k: Kind, nodes: seq<Node>)
    ensures SameButNoise(ParseKind(k, nodes), ParseKind(k, Strip(nodes)))
  {
    SkipStrips(nodes);
    var at := Skip(nodes);
    HeadStripped(at);
    if at != [] {
      BodyStripped(k, at);
    }
  }

  lemma {:induction false} ChainStripped(kinds: seq<Kind>, nodes: seq<Node>)
    ensures ParseChain(kinds, nodes) == ParseChain(kinds, Strip(nodes))
    decreases |kinds|
  {
    if kinds == [] {
    } else {
      KindStripped(kinds[0], nodes);
      ChainStripped(kinds[1..], ParseKind(kinds[0], nodes).1);
    }
  }

  lemma {:induction false} NothingParsesNothing(kinds: seq<Kind>)
    ensures ParseChain(kinds, []) == None
  {
    if kinds == [] {
    } else {
      NothingParsesNothing(kinds[1..]);
    }
  }

  /** For every document, well-formed message or not: comments and white space anywhere make no difference. */
  lemma NoiseDoesNotMatter(nodes: seq<Node>)
    ensures Parse(nodes) == Parse(Strip(nodes))
  {
    if nodes != [] {
      ChainStripped(CHAIN, nodes);
      NothingParsesNothing(CHAIN);
    }
  }

  // ----- the chain reaches the right parser ----------------------------------------------------------------------------

  /** The parser a root element is meant for. */
  function KindOf(root: string): Option<Kind>
  {
    if root == "ack" then Some(Ack)
    else if root == "alive" then Some(Alive)
    else if root == "stream_start" then Some(StreamStart)
    else if root == "stream_stop" then Some(StreamStop)
    else if root == "loudness_start" then Some(LoudnessStart)
    else if root == "loudness_stop" then Some(LoudnessStop)
    else if root == "status_start" then Some(StatusStart)
    else if root == "status_stop" then Some(StatusStop)
    else if root == "channel_change" then Some(ChannelChange)
    else if root == "loudness_reset" then Some(LoudnessReset)
    else if root == "schedule" then Some(Schedule)
    else if root == "schedule_request" then Some(ScheduleRequest)
    else if root == "playback_list_request" then Some(PlaybackListRequest)
    else if root == "log_list_request" then Some(LogListRequest)
    else if root == "user_loudness" then Some(UserLoudness)
    else if root == "user_loudness_request" then Some(UserLoudnessRequest)
    else if root == "channel_list_request" then Some(ChannelListRequest)
    else None
  }

  lemma RootsDiffer(k: Kind)
    ensures KindOf(Root(k)) == Some(k)
  {
  }

  /** The reader stands at nothing any parser takes. */
  predicate Unknown(nodes: seq<Node>)
  {
    var at := Skip(nodes); at == [] || !at[0].Element? || KindOf(at[0].name) == None
  }

  lemma {:induction false} UnknownIsRefused(kinds: seq<Kind>, nodes: seq<Node>)
    requires Unknown(nodes)
    ensures ParseChain(kinds, nodes) == None
  {
    if kinds == [] {
    } else {
      RootsDiffer(kinds[0]);
      UnknownIsRefused(kinds[1..], ParseKind(kinds[0], nodes).1);
    }
  }

  /** The parsers before the right one leave the reader at the root; and where the right one fails at something no
      parser takes, the others fail too. */
  lemma {:induction false} ChainReaches(kinds: seq<Kind>, k: Kind, nodes: seq<Node>)
    requires k in kinds && Skip(nodes) != [] && Skip(nodes)[0].Element? && Skip(nodes)[0].name == Root(k)
    ensures var (m, end) := ParseKind(k, nodes); m.Some? || Unknown(end) ==> ParseChain(kinds, nodes) == m
    decreases |kinds|
  {
    var at := Skip(nodes);
    if kinds[0] != k {
      RootsDiffer(k);
      RootsDiffer(kinds[0]);
      assert ParseKind(kinds[0], nodes) == (None, at) && Skip(at) == at;
      ChainReaches(kinds[1..], k, at);
    } else {
      var (m, end) := ParseKind(k, nodes);
      if m.None? && Unknown(end) {
        UnknownIsRefused(kinds[1..], end);
      }
    }
  }

  lemma InChain(k: Kind)
    ensures k in CHAIN
  {
    assert CHAIN[0] == Ack && CHAIN[1] == Alive && CHAIN[2] == StreamStart && CHAIN[3] == StreamStop;
    assert CHAIN[4] == LoudnessStart && CHAIN[5] == LoudnessStop && CHAIN[6] == StatusStart && CHAIN[7] == StatusStop;
    assert CHAIN[8] == ChannelChange && CHAIN[9] == LoudnessReset && CHAIN[10] == Schedule;
    assert CHAIN[11] == ScheduleRequest && CHAIN[12] == PlaybackListRequest && CHAIN[13] == LogListRequest;
    assert CHAIN[14] == UserLoudness && CHAIN[15] == UserLoudnessRequest && CHAIN[16] == ChannelListRequest;
  }

  // ----- what the C structures can hold ------------------------------------------------------------------------------------

  predicate IsInt(n: int) { -INT_MAX - 1 <= n <= INT_MAX }

  predicate FieldFits(f: Field, c: Column)
  {
    if c.Number? then f.Integer? && IsInt(f.value) else f.Str? && |f.text| < c.size
  }

  predicate RowFits(row: Row, columns: seq<Column>)
  {
    |row| == |columns| && forall i :: 0 <= i < |row| ==> FieldFits(row[i], columns[i])
  }

  predicate RowsFit(rows: seq<Row>, columns: seq<Column>)
  {
    forall i :: 0 <= i < |rows| ==> RowFits(rows[i], columns)
  }

  predicate SectionFits(s: Section)
  {
    |s.start| < TIME_SIZE && |s.end| < TIME_SIZE && |s.comment| < NAME_SIZE
  }

  predicate FileFits(f: File)
  {
    && |f.name| < NAME_SIZE && |f.recordName| < NAME_SIZE
    && forall i :: 0 <= i < |f.sections| ==> SectionFits(f.sections[i])
  }

  // ----- printing --------------------------------------------------------------------------------------------------------

  function PrintField(f: Field): string { if f.Integer? then IntToString(f.value) else f.text }

  function PrintRow(columns: seq<Column>, row: Row): Attributes
    requires |row| == |columns|
  {
    seq(|row|, i requires 0 <= i < |row| => (columns[i].name, PrintField(row[i])))
  }

  function PrintRows(child: string, columns: seq<Column>, rows: seq<Row>): (nodes: seq<Node>)
    requires RowsFit(rows, columns)
    ensures |nodes| == |rows|
  {
    seq(|rows|, i requires 0 <= i < |rows| => Element(child, PrintRow(columns, rows[i])))
  }

  function PrintSection(s: Section): Node
  {
    Element("section", [("start", s.start), ("end", s.end), ("loudness", FormatTenths(s.loudness)), ("comment", s.comment)])
  }

  function PrintSections(sections: seq<Section>): (nodes: seq<Node>)
    ensures |nodes| == |sections|
  {
    seq(|sections|, i requires 0 <= i < |sections| => PrintSection(sections[i]))
  }

  /** An end node only where there is something inside. */
  function Enclose(head: Node, inside: seq<Node>): seq<Node>
    requires head.Element?
  {
    [head] + inside + if inside == [] then [] else [End(head.name)]
  }

  function FileNode(f: File): Node { Element("file", [("name", f.name), ("record_name", f.recordName)]) }

  function PrintFile(f: File): seq<Node>
  {
    Enclose(FileNode(f), PrintSections(f.sections))
  }

  function PrintFiles(files: seq<File>): seq<Node>
  {
    if files == [] then [] else PrintFile(files[0]) + PrintFiles(files[1..])
  }

  predicate WellTyped(m: Message)
  {
    && |m.ip| < IP_SIZE && IsInt(m.number)
    && match ShapeOf(m.kind)
       case NoChildren => m.body == Rows([])
       case Children(_, columns) =>
         m.body.Rows? && RowsFit(m.body.rows, columns)
       case FilesWithSections =>
         m.body.Files? && forall i :: 0 <= i < |m.body.files| ==> FileFits(m.body.files[i])
  }

  function PrintBody(m: Message): seq<Node>
    requires WellTyped(m)
  {
    match ShapeOf(m.kind)
    case NoChildren => []
    case Children(child, columns) => PrintRows(child, columns, m.body.rows)
    case FilesWithSections => PrintFiles(m.body.files)
  }

  /** `generate_xml`, as the nodes of the document. */
  function Print(m: Message): seq<Node>
    requires WellTyped(m)
  {
    Enclose(Element(Root(m.kind), [("ip", m.ip), ("number", IntToString(m.number))]), PrintBody(m))
  }

  // ----- round trips --------------------------------------------------------------------------------------------------------

  predicate DistinctNames(columns: seq<Column>)
  {
    forall i, j :: 0 <= i < j < |columns| ==> columns[i].name != columns[j].name
  }

  lemma {:induction false} PrintedAttribute(columns: seq<Column>, row: Row, i: nat)
    requires |row| == |columns| && i < |row| && DistinctNames(columns)
    ensures GetAttribute(PrintRow(columns, row), columns[i].name) == Some(PrintField(row[i]))
  {
    if i > 0 {
      assert PrintRow(columns, row)[1..] == PrintRow(columns[1..], row[1..]);
      PrintedAttribute(columns[1..], row[1..], i - 1);
    }
  }

  lemma FieldRoundTrip(attributes: Attributes, c: Column, f: Field)
    requires FieldFits(f, c) && GetAttribute(attributes, c.name) == Some(PrintField(f))
    ensures ParseField(attributes, c) == Some(f)
  {
    if f.Integer? {
      IntRoundTrip(f.value);
    }
  }

  lemma {:induction false} RowParsed(attributes: Attributes, columns: seq<Column>, row: Row)
    requires RowFits(row, columns)
    requires forall i :: 0 <= i < |row| ==> GetAttribute(attributes, columns[i].name) == Some(PrintField(row[i]))
    ensures ParseRow(attributes, columns) == Some(row)
  {
    if row == [] {
    } else {
      FieldRoundTrip(attributes, columns[0], row[0]);
      RowParsed(attributes, columns[1..], row[1..]);
      assert [row[0]] + row[1..] == row;
    }
  }

  lemma RowRoundTrip(columns: seq<Column>, row: Row)
    requires DistinctNames(columns) && RowFits(row, columns)
    ensures ParseRow(PrintRow(columns, row), columns) == Some(row)
  {
    forall i | 0 <= i < |row|
      ensures GetAttribute(PrintRow(columns, row), columns[i].name) == Some(PrintField(row[i]))
    {
      PrintedAttribute(columns, row, i);
    }
    RowParsed(PrintRow(columns, row), columns, row);
  }

  /** What stands behind the children: nothing, or the end of the root. */
  predicate IsTail(tail: seq<Node>) { tail == [] || tail[0].End? }

  lemma NextOf(head: Node, behind: seq<Node>)
    ensures Next([head] + behind) == Skip(behind)
  {
    assert ([head] + behind)[1..] == behind;
  }

  lemma RowsAndTail(child: string, columns: seq<Column>, rows: seq<Row>, tail: seq<Node>)
    requires RowsFit(rows, columns)
    ensures PrintRows(child, columns, rows) + tail ==
              if rows == [] then tail
              else [Element(child, PrintRow(columns, rows[0]))] + (PrintRows(child, columns, rows[1..]) + tail)
  {
    if rows == [] {
      assert PrintRows(child, columns, rows) + tail == tail;
    } else {
      assert PrintRows(child, columns, rows)
             == [Element(child, PrintRow(columns, rows[0]))] + PrintRows(child, columns, rows[1..]);
    }
  }

  lemma RowStep(head: Node, child: string, columns: seq<Column>, row: Row, rest: seq<Node>)
    requires DistinctNames(columns) && RowFits(row, columns)
    ensures var node := Element(child, PrintRow(columns, row));
            ParseRows([head] + ([node] + rest), child, columns) == Prepend(row, ParseRows([node] + rest, child, columns))
  {
    NextOf(head, [Element(child, PrintRow(columns, row))] + rest);
    RowRoundTrip(columns, row);
  }

  lemma {:induction false} RowsRoundTrip(head: Node, child: string, columns: seq<Column>, rows: seq<Row>, tail: seq<Node>)
    requires DistinctNames(columns) && RowsFit(rows, columns) && IsTail(tail)
    ensures ParseRows([head] + (PrintRows(child, columns, rows) + tail), child, columns) == (Some(rows), tail)
    decreases |rows|
  {
    hide PrintRow, ParseRow, DistinctNames;
    RowsAndTail(child, columns, rows, tail);
    if rows == [] {
      NextOf(head, tail);
    } else {
      var node, rest := Element(child, PrintRow(columns, rows[0])), PrintRows(child, columns, rows[1..]) + tail;
      RowStep(head, child, columns, rows[0], rest);
      RowsRoundTrip(node, child, columns, rows[1..], tail);
      assert [rows[0]] + rows[1..] == rows;
    }
  }

  /** Loudness is printed in tenths. */
  function RoundedSection(s: Section): Section { s.(loudness := NearestTenth(s.loudness)) }

  function RoundedSections(sections: seq<Section>): seq<Section>
  {
    seq(|sections|, i requires 0 <= i < |sections| => RoundedSection(sections[i]))
  }

  function RoundedFile(f: File): File { f.(sections := RoundedSections(f.sections)) }

  function RoundedFiles(files: seq<File>): seq<File>
  {
    seq(|files|, i requires 0 <= i < |files| => RoundedFile(files[i]))
  }

  lemma SectionRoundTrip(s: Section)
    requires SectionFits(s)
    ensures ParseSection(PrintSection(s).attributes) == Some(RoundedSection(s))
  {
    DecimalRoundTrip(s.loudness);
    var a := PrintSection(s).attributes;
    assert GetAttribute(a, "start") == Some(s.start);
    assert a[1..][0] == ("end", s.end);
    assert GetAttribute(a, "end") == GetAttribute(a[1..], "end") == Some(s.end);
    assert GetAttribute(a, "loudness") == GetAttribute(a[1..], "loudness") == GetAttribute(a[1..][1..], "loudness");
    assert GetAttribute(a, "comment") == GetAttribute(a[1..], "comment") == GetAttribute(a[1..][1..], "comment")
           == GetAttribute(a[1..][1..][1..], "comment");
  }

  lemma SectionsAndTail(sections: seq<Section>, tail: seq<Node>)
    ensures PrintSections(sections) + tail ==
              if sections == [] then tail else [PrintSection(sections[0])] + (PrintSections(sections[1..]) + tail)
  {
    if sections == [] {
      assert PrintSections(sections) + tail == tail;
    } else {
      assert PrintSections(sections) == [PrintSection(sections[0])] + PrintSections(sections[1..]);
    }
  }

  lemma SectionStep(head: Node, section: Section, rest: seq<Node>)
    requires SectionFits(section)
    ensures ParseSections([head] + ([PrintSection(section)] + rest))
            == Prepend(RoundedSection(section), ParseSections([PrintSection(section)] + rest))
  {
    NextOf(head, [PrintSection(section)] + rest);
    SectionRoundTrip(section);
  }

  lemma {:induction false} SectionsRoundTrip(head: Node, sections: seq<Section>, tail: seq<Node>)
    requires (forall i :: 0 <= i < |sections| ==> SectionFits(sections[i])) && IsTail(tail)
    ensures ParseSections([head] + (PrintSections(sections) + tail)) == (Some(RoundedSections(sections)), tail)
    decreases |sections|
  {
    hide PrintSection, SectionFits, RoundedSection, ParseSection;
    SectionsAndTail(sections, tail);
    if sections == [] {
      NextOf(head, tail);
      assert RoundedSections(sections) == [];
    } else {
      SectionStep(head, sections[0], PrintSections(sections[1..]) + tail);
      SectionsRoundTrip(PrintSection(sections[0]), sections[1..], tail);
      assert [RoundedSection(sections[0])] + RoundedSections(sections[1..]) == RoundedSections(sections);
    }
  }

  predicate AllHaveSections(files: seq<File>) { forall i :: 0 <= i < |files| ==> files[i].sections != [] }

  lemma {:induction false} NoSections(head: Node, next: Node, behind: seq<Node>)
    requires next.End? || (next.Element? && next.name == "file")
    ensures ParseSections([head] + ([next] + behind)) == (if next.End? then Some([]) else None, [next] + behind)
  {
    assert ([head] + ([next] + behind))[1..] == [next] + behind;
  }

  /** A file with sections, and what is behind it. */
  lemma FileStep(head: Node, f: File, rest: seq<Node>)
    requires FileFits(f) && f.sections != []
    ensures ParseFiles([head] + ([FileNode(f)] + (PrintSections(f.sections) + ([End("file")] + rest))))
            == Prepend(RoundedFile(f), ParseFiles([End("file")] + rest))
  {
    var tail := [End("file")] + rest;
    var inside := [FileNode(f)] + (PrintSections(f.sections) + tail);
    assert ([head] + inside)[1..] == inside;
    FileAttributes(f);
    SectionsRoundTrip(FileNode(f), f.sections, tail);
  }

  /** A file without sections: what is behind it is not its end. */
  lemma FileWithout(head: Node, f: File, next: Node, behind: seq<Node>)
    requires (next.End? && next.name != "file") || (next.Element? && next.name == "file")
    ensures ParseFiles([head] + ([FileNode(f)] + ([next] + behind))) == (None, [next] + behind)
  {
    var inside := [FileNode(f)] + ([next] + behind);
    assert ([head] + inside)[1..] == inside;
    FileAttributes(f);
    NoSections(FileNode(f), next, behind);
  }

  /** The nodes from the files on, with what is behind them. */
  function FilesAndTail(files: seq<File>, tail: seq<Node>): seq<Node>
  {
    if files == [] then tail
    else
      var f, rest := files[0], FilesAndTail(files[1..], tail);
      [FileNode(f)] + if f.sections == [] then rest else PrintSections(f.sections) + ([End("file")] + rest)
  }

  lemma {:induction false} FilesWithTail(files: seq<File>, tail: seq<Node>)
    ensures PrintFiles(files) + tail == FilesAndTail(files, tail)
  {
    if files == [] {
      assert PrintFiles(files) + tail == tail;
    } else {
      FilesWithTail(files[1..], tail);
      Associative(PrintFile(files[0]), PrintFiles(files[1..]), tail);
      var f, rest := files[0], FilesAndTail(files[1..], tail);
      if f.sections != [] {
        assert PrintFile(f) + rest == [FileNode(f)] + (PrintSections(f.sections) + ([End("file")] + rest));
      } else {
        assert PrintFile(f) == [FileNode(f)];
      }
    }
  }

  lemma NextIsFile(files: seq<File>, root: string, behind: seq<Node>)
    ensures var rest := FilesAndTail(files, [End(root)] + behind);
            rest != [] && rest == [rest[0]] + rest[1..]
            && (if files == [] then rest[0] == End(root) else rest[0].Element? && rest[0].name == "file")
  {
  }

  /** All files come back if each has a section; otherwise the parser gives up at a node that no other parser
      takes either. */
  ghost predicate FilesOutcome(p: Parsed<seq<File>>, files: seq<File>, tail: seq<Node>)
  {
    if AllHaveSections(files) then p == (Some(RoundedFiles(files)), tail) else p.0 == None && Unknown(p.1)
  }

  lemma OutcomeStep(p: Parsed<seq<File>>, files: seq<File>, tail: seq<Node>)
    requires files != [] && files[0].sections != [] && FilesOutcome(p, files[1..], tail)
    ensures FilesOutcome(Prepend(RoundedFile(files[0]), p), files, tail)
  {
    AllOrNot(files);
    assert [RoundedFile(files[0])] + RoundedFiles(files[1..]) == RoundedFiles(files);
  }

  lemma OutcomeWithout(head: Node, files: seq<File>, root: string, behind: seq<Node>)
    requires files != [] && files[0].sections == [] && root != "file"
    ensures var p := ParseFiles([head] + FilesAndTail(files, [End(root)] + behind));
            p.0 == None && Unknown(p.1) && !AllHaveSections(files)
  {
    hide PrintSections, ParseFiles;
    var rest := FilesAndTail(files[1..], [End(root)] + behind);
    NextIsFile(files[1..], root, behind);
    FileWithout(head, files[0], rest[0], rest[1..]);
  }

  lemma {:induction false} FilesRoundTrip(head: Node, files: seq<File>, root: string, behind: seq<Node>)
    requires (forall i :: 0 <= i < |files| ==> FileFits(files[i])) && root != "file"
    ensures var tail := [End(root)] + behind;
            FilesOutcome(ParseFiles([head] + FilesAndTail(files, tail)), files, tail)
    decreases |files|
  {
    var tail := [End(root)] + behind;
    if files == [] {
      assert ([head] + tail)[1..] == tail;
      assert RoundedFiles(files) == [];
    } else if files[0].sections == [] {
      OutcomeWithout(head, files, root, behind);
    } else {
      FileStep(head, files[0], FilesAndTail(files[1..], tail));
      FilesRoundTrip(End("file"), files[1..], root, behind);
      OutcomeStep(ParseFiles([End("file")] + FilesAndTail(files[1..], tail)), files, tail);
    }
  }

  lemma AllOrNot(files: seq<File>)
    requires files != []
    ensures AllHaveSections(files) <==> files[0].sections != [] && AllHaveSections(files[1..])
  {
    if files[0].sections != [] && AllHaveSections(files[1..]) {
      assert forall i :: 0 < i < |files| ==> files[i] == files[1..][i - 1];
    }
  }

  lemma FileAttributes(f: File)
    ensures var a := [("name", f.name), ("record_name", f.recordName)];
            GetAttribute(a, "name") == Some(f.name) && GetAttribute(a, "record_name") == Some(f.recordName)
  {
    var a := [("name", f.name), ("record_name", f.recordName)];
    assert GetAttribute(a, "record_name") == GetAttribute(a[1..], "record_name");
  }

  /** The message as it comes back. */
  function Rounded(m: Message): Message
  {
    if m.body.Files? then m.(body := Files(RoundedFiles(m.body.files))) else m
  }

  lemma ShapeHasDistinctNames(k: Kind)
    ensures match ShapeOf(k) case Children(_, columns) => DistinctNames(columns) case _ => true
  {
  }

  lemma BodyRoundTrip(m: Message)
    requires WellTyped(m)
    ensures var (r, at) := ParseBody(m.kind, Print(m));
            if m.body.Files? ==> AllHaveSections(m.body.files) then r == Some(Rounded(m).body)
            else r == None && Unknown(at)
  {
    var head := Print(m)[0];
    var inside := PrintBody(m);
    var tail := if inside == [] then [] else [End(head.name)];
    assert Print(m) == [head] + (inside + tail);
    match ShapeOf(m.kind)
    case NoChildren =>
    case Children(child, columns) =>
      ShapeHasDistinctNames(m.kind);
      RowsRoundTrip(head, child, columns, m.body.rows, tail);
    case FilesWithSections =>
      if m.body.files == [] {
        assert Print(m)[1..] == [];
        assert RoundedFiles(m.body.files) == [];
      } else {
        FilesWithTail(m.body.files, tail);
        assert inside != [] && [End(head.name)] + [] == [End(head.name)];
        FilesRoundTrip(head, m.body.files, head.name, []);
      }
  }

  /** What printing a message and parsing it through the whole chain gives, for every message the C structures can
      hold: the message with its loudness in tenths, or nothing when a file has no section. */
  lemma PrintThenParse(m: Message)
    requires WellTyped(m)
    ensures Parse(Print(m)) == if m.body.Files? ==> AllHaveSections(m.body.files) then Some(Rounded(m)) else None
  {
    var a := Print(m)[0].attributes;
    assert a == [("ip", m.ip), ("number", IntToString(m.number))];
    assert GetAttribute(a, "number") == GetAttribute(a[1..], "number");
    IntRoundTrip(m.number);
    BodyRoundTrip(m);
    InChain(m.kind);
    ChainReaches(CHAIN, m.kind, Print(m));
  }

  predicate InTenthsAll(files: seq<File>)
  {
    forall i, j :: 0 <= i < |files| && 0 <= j < |files[i].sections| ==> InTenths(files[i].sections[j].loudness)
  }

  /** So the round trip is the identity exactly on the messages whose files all have sections and whose loudness is
      in tenths. */
  lemma RoundTripIff(m: Message)
    requires WellTyped(m)
    ensures Parse(Print(m)) == Some(m) <==>
            (m.body.Files? ==> AllHaveSections(m.body.files) && InTenthsAll(m.body.files))
  {
    PrintThenParse(m);
    if m.body.Files? {
      RoundedIff(m.body.files);
    }
  }

  lemma RoundedIff(files: seq<File>)
    ensures RoundedFiles(files) == files <==> InTenthsAll(files)
  {
    forall i, j | 0 <= i < |files| && 0 <= j < |files[i].sections|
      ensures RoundedFiles(files)[i].sections[j] == files[i].sections[j] <==> InTenths(files[i].sections[j].loudness)
    {
      var x := files[i].sections[j].loudness;
      TenthsRoundTrip(x);
      DecimalRoundTrip(x);
    }
    if InTenthsAll(files) {
      forall i | 0 <= i < |files| ensures RoundedFiles(files)[i] == files[i] {
        assert RoundedSections(files[i].sections) == files[i].sections;
      }
    }
  }

  /** The round trip with comments and white space put in anywhere. */
  lemma RoundTripWithNoise(m: Message, nodes: seq<Node>)
    requires WellTyped(m) && Strip(nodes) == Print(m)
    requires m.body.Files? ==> AllHaveSections(m.body.files) && InTenthsAll(m.body.files)
    ensures Parse(nodes) == Some(m)
  {
    NoiseDoesNotMatter(nodes);
    RoundTripIff(m);
  }

  /** A file without sections is lost, and the message with it. */
  lemma NoSectionsNoMessage()
    ensures var m := Message(UserLoudness, "", 1, Files([File("a.ts", "b.ts", [])]));
            WellTyped(m) && Parse(Print(m)) == None
  {
    var m := Message(UserLoudness, "", 1, Files([File("a.ts", "b.ts", [])]));
    assert m.body.files[0].sections == [];
    PrintThenParse(m);
  }
}
