/** The documents the parsers of controller/messenger.c take, element by element and attribute by attribute: what each
    root with its children means, and which documents are refused. */
module MessageForms {
  import opened Codec
  import opened Text
  import opened Wrappers
  import opened Xml

  /** A root with its attributes and children, each child without children of its own. */
  function Document(root: string, a: Attributes, children: seq<(string, Attributes)>): seq<Node>
  {
    Enclose(Element(root, a), Elements(children))
  }

  function Elements(children: seq<(string, Attributes)>): (nodes: seq<Node>)
    ensures |nodes| == |children|
  {
    seq(|children|, i requires 0 <= i < |children| => Element(children[i].0, children[i].1))
  }

  /** A message with the address and the number in the root's attributes. */
  function Headed(k: Kind, a: Attributes, body: Body): Message
  {
    Message(k,
            match GetAttribute(a, "ip") case None => "" case Some(s) => Copied(s, 16),
            match GetAttribute(a, "number") case None => 0 case Some(s) => ToInt(Strtol(s)),
            body)
  }

  /** The children as rows; nothing if one has another name or means no row. */
  function AllRows(children: seq<(string, Attributes)>, name: string, row: Attributes -> Option<Row>): Option<seq<Row>>
  {
    if children == [] then Some([])
    else if children[0].0 != name then None
    else
      match (row(children[0].1), AllRows(children[1..], name, row))
      case (Some(r), Some(rest)) => Some([r] + rest)
      case _ => None
  }

  /** What a document with these children means. */
  function Meaning(k: Kind, a: Attributes, children: seq<(string, Attributes)>, name: string,
                   row: Attributes -> Option<Row>): Option<Message>
  {
    match AllRows(children, name, row) case None => None case Some(rows) => Some(Headed(k, a, Rows(rows)))
  }

  /** No child bears the name of a root. */
  predicate NoRootInside(children: seq<(string, Attributes)>)
  {
    forall i :: 0 <= i < |children| ==> KindOf(children[i].0) == None
  }

  // ----- the rows, attribute by attribute ------------------------------------------------------------------------------

  function Numeral(s: string): Field { Integer(ToInt(Strtol(s))) }

  function StreamRow(a: Attributes): Option<Row>
  {
    match (GetAttribute(a, "index"), GetAttribute(a, "port"))
    case (Some(index), Some(port)) => Some([Numeral(index), Numeral(port)])
    case _ => None
  }

  function IndexRow(a: Attributes): Option<Row>
  {
    match GetAttribute(a, "index") case Some(index) => Some([Numeral(index)]) case None => None
  }

  function ChannelRow(a: Attributes): Option<Row>
  {
    match (GetAttribute(a, "index"), GetAttribute(a, "channel"))
    case (Some(index), Some(channel)) => Some([Numeral(index), Numeral(channel)])
    case _ => None
  }

  function ScheduleRow(a: Attributes): Option<Row>
  {
    match (GetAttribute(a, "index"), GetAttribute(a, "start"), GetAttribute(a, "end"), GetAttribute(a, "channel"))
    case (Some(index), Some(start), Some(end), Some(channel)) =>
      Some([Numeral(index), Str(Copied(start, 24)), Str(Copied(end, 24)), Numeral(channel)])
    case _ => None
  }

  function NameRow(a: Attributes): Option<Row>
  {
    match GetAttribute(a, "name") case Some(name) => Some([Str(Copied(name, 128))]) case None => None
  }

  // ----- documents of rows ---------------------------------------------------------------------------------------------

  lemma {:induction false} SameRows(children: seq<(string, Attributes)>, name: string, f: Attributes -> Option<Row>,
                                    g: Attributes -> Option<Row>)
    requires forall a :: f(a) == g(a)
    ensures AllRows(children, name, f) == AllRows(children, name, g)
  {
    if children == [] {
    } else {
      SameRows(children[1..], name, f, g);
    }
  }

  /** The loop over the children, up to the end of the root or the first child that is refused. */
  ghost predicate Outcome(p: Parsed<seq<Row>>, rows: Option<seq<Row>>, tail: seq<Node>)
  {
    if rows.Some? then p == (rows, tail) else p.0 == None && Unknown(p.1)
  }

  lemma FirstElement(children: seq<(string, Attributes)>, tail: seq<Node>)
    ensures Elements(children) + tail ==
              if children == [] then tail
              else [Element(children[0].0, children[0].1)] + (Elements(children[1..]) + tail)
  {
    if children == [] {
      assert Elements(children) + tail == tail;
    } else {
      assert Elements(children) == [Element(children[0].0, children[0].1)] + Elements(children[1..]);
    }
  }

  lemma {:induction false} ChildrenParsed(head: Node, name: string, columns: seq<Column>,
                                          children: seq<(string, Attributes)>, tail: seq<Node>)
    requires IsTail(tail) && NoRootInside(children)
    ensures Outcome(ParseRows([head] + (Elements(children) + tail), name, columns),
                    AllRows(children, name, a => ParseRow(a, columns)), tail)
    decreases |children|
  {
    FirstElement(children, tail);
    NextOf(head, Elements(children) + tail);
    if children == [] {
    } else {
      var node := Element(children[0].0, children[0].1);
      ChildrenParsed(node, name, columns, children[1..], tail);
    }
  }

  /** The parser of the kind, at its root. */
  lemma KindOfRows(k: Kind, a: Attributes, children: seq<(string, Attributes)>, name: string, columns: seq<Column>)
    requires ShapeOf(k) == Children(name, columns) && NoRootInside(children)
    ensures var (m, end) := ParseKind(k, Document(Root(k), a, children));
            && m == Meaning(k, a, children, name, b => ParseRow(b, columns)) && (m.Some? || Unknown(end))
  {
    hide ShapeOf, Root, KindOf, GetAttribute, ParseRows, NoRootInside;
    var head := Element(Root(k), a);
    var nodes, tail := Document(Root(k), a, children), if children == [] then [] else [End(Root(k))];
    assert nodes == [head] + (Elements(children) + tail);
    ChildrenParsed(head, name, columns, children, tail);
  }

  /** A whole document, through all parsers. */
  lemma DocumentOfRows(k: Kind, a: Attributes, children: seq<(string, Attributes)>, name: string, columns: seq<Column>,
                       row: Attributes -> Option<Row>)
    requires ShapeOf(k) == Children(name, columns) && NoRootInside(children)
    requires forall b :: row(b) == ParseRow(b, columns)
    ensures Parse(Document(Root(k), a, children)) == Meaning(k, a, children, name, row)
  {
    hide ShapeOf, Root, KindOf, ParseKind, NoRootInside, Unknown, Elements;
    KindOfRows(k, a, children, name, columns);
    SameRows(children, name, row, b => ParseRow(b, columns));
    InChain(k);
    ChainReaches(CHAIN, k, Document(Root(k), a, children));
  }

  lemma OneColumn(a: Attributes, x: Column)
    ensures ParseRow(a, [x]) == match ParseField(a, x) case Some(f) => Some([f]) case None => None
  {
    assert [x][1..] == [] && ParseRow(a, []) == Some([]);
    if ParseField(a, x).Some? {
      assert [ParseField(a, x).value] + [] == [ParseField(a, x).value];
    }
  }

  /** Two attributes, read one after the other. */
  lemma TwoColumns(a: Attributes, x: Column, y: Column)
    ensures ParseRow(a, [x, y]) ==
              match (ParseField(a, x), ParseField(a, y)) case (Some(f), Some(g)) => Some([f, g]) case _ => None
  {
    assert [x, y][1..] == [y];
    OneColumn(a, y);
    if ParseField(a, x).Some? && ParseField(a, y).Some? {
      assert [ParseField(a, x).value] + [ParseField(a, y).value] == [ParseField(a, x).value, ParseField(a, y).value];
    }
  }

  lemma FourColumns(a: Attributes)
    ensures ParseRow(a, [Number("index"), Words("start", 24), Words("end", 24), Number("channel")]) == ScheduleRow(a)
  {
    var index, start, end, channel := Number("index"), Words("start", 24), Words("end", 24), Number("channel");
    assert [index, start, end, channel][1..] == [start, end, channel] && [start, end, channel][1..] == [end, channel];
    TwoColumns(a, end, channel);
    var last := ParseRow(a, [end, channel]);
    if last.Some? && ParseField(a, start).Some? {
      var f := ParseField(a, start).value;
      assert [f] + last.value == [f, last.value[0], last.value[1]];
      if ParseField(a, index).Some? {
        var g := ParseField(a, index).value;
        assert [g] + ([f] + last.value) == [g, f, last.value[0], last.value[1]];
      }
    }
  }

  /** `stream_start`: cards with index and port. */
  lemma StreamStartMeans(a: Attributes, cards: seq<(string, Attributes)>)
    requires NoRootInside(cards)
    ensures Parse(Document("stream_start", a, cards)) == Meaning(StreamStart, a, cards, "card", StreamRow)
  {
    forall b ensures StreamRow(b) == ParseRow(b, [Number("index"), Number("port")]) {
      TwoColumns(b, Number("index"), Number("port"));
    }
    DocumentOfRows(StreamStart, a, cards, "card", [Number("index"), Number("port")], StreamRow);
  }

  /** `stream_stop`: cards with index. */
  lemma StreamStopMeans(a: Attributes, cards: seq<(string, Attributes)>)
    requires NoRootInside(cards)
    ensures Parse(Document("stream_stop", a, cards)) == Meaning(StreamStop, a, cards, "card", IndexRow)
  {
    forall b ensures IndexRow(b) == ParseRow(b, [Number("index")]) { OneColumn(b, Number("index")); }
    DocumentOfRows(StreamStop, a, cards, "card", [Number("index")], IndexRow);
  }

  /** `channel_change`: cards with index and channel. */
  lemma ChannelChangeMeans(a: Attributes, cards: seq<(string, Attributes)>)
    requires NoRootInside(cards)
    ensures Parse(Document("channel_change", a, cards)) == Meaning(ChannelChange, a, cards, "card", ChannelRow)
  {
    forall b ensures ChannelRow(b) == ParseRow(b, [Number("index"), Number("channel")]) {
      TwoColumns(b, Number("index"), Number("channel"));
    }
    DocumentOfRows(ChannelChange, a, cards, "card", [Number("index"), Number("channel")], ChannelRow);
  }

  /** `loudness_reset`: cards with index. */
  lemma LoudnessResetMeans(a: Attributes, cards: seq<(string, Attributes)>)
    requires NoRootInside(cards)
    ensures Parse(Document("loudness_reset", a, cards)) == Meaning(LoudnessReset, a, cards, "card", IndexRow)
  {
    forall b ensures IndexRow(b) == ParseRow(b, [Number("index")]) { OneColumn(b, Number("index")); }
    DocumentOfRows(LoudnessReset, a, cards, "card", [Number("index")], IndexRow);
  }

  /** `schedule`: cards with index, start, end and channel. */
  lemma ScheduleMeans(a: Attributes, cards: seq<(string, Attributes)>)
    requires NoRootInside(cards)
    ensures Parse(Document("schedule", a, cards)) == Meaning(Schedule, a, cards, "card", ScheduleRow)
  {
    var columns := [Number("index"), Words("start", 24), Words("end", 24), Number("channel")];
    forall b ensures ScheduleRow(b) == ParseRow(b, columns) { FourColumns(b); }
    DocumentOfRows(Schedule, a, cards, "card", columns, ScheduleRow);
  }

  /** `user_loudness_request`: files with a name. */
  lemma UserLoudnessRequestMeans(a: Attributes, files: seq<(string, Attributes)>)
    requires NoRootInside(files)
    ensures Parse(Document("user_loudness_request", a, files)) == Meaning(UserLoudnessRequest, a, files, "file", NameRow)
  {
    forall b ensures NameRow(b) == ParseRow(b, [Words("name", 128)]) { OneColumn(b, Words("name", 128)); }
    DocumentOfRows(UserLoudnessRequest, a, files, "file", [Words("name", 128)], NameRow);
  }

  /** The roots of the messages without children, each with its message. */
  const PLAIN: seq<(string, Kind)> :=
    [("ack", Ack), ("alive", Alive), ("loudness_start", LoudnessStart), ("loudness_stop", LoudnessStop),
     ("status_start", StatusStart), ("status_stop", StatusStop), ("schedule_request", ScheduleRequest),
     ("playback_list_request", PlaybackListRequest), ("log_list_request", LogListRequest),
     ("channel_list_request", ChannelListRequest)]

  /** They mean their message whatever follows. */
  lemma PlainMeans(i: nat, a: Attributes, behind: seq<Node>)
    requires i < |PLAIN|
    ensures Parse([Element(PLAIN[i].0, a)] + behind) == Some(Headed(PLAIN[i].1, a, Rows([])))
  {
    var (root, k) := PLAIN[i];
    var nodes := [Element(root, a)] + behind;
    assert Root(k) == root && ShapeOf(k) == NoChildren;
    InChain(k);
    ChainReaches(CHAIN, k, nodes);
  }

  /** The ten parsers before that of a schedule leave the reader at its root. */
  lemma FirstTen(nodes: seq<Node>)
    requires nodes != [] && nodes[0].Element? && nodes[0].name == "schedule"
    ensures Parse(nodes) == ParseChain(CHAIN[10..], nodes)
  {
    StepOver(nodes, 0);
    assert CHAIN[0..] == CHAIN;
  }

  lemma {:induction false} StepOver(nodes: seq<Node>, i: nat)
    requires nodes != [] && nodes[0].Element? && nodes[0].name == "schedule" && i <= 10
    ensures ParseChain(CHAIN[i..], nodes) == ParseChain(CHAIN[10..], nodes)
    decreases 10 - i
  {
    hide Root, KindOf, ParseKind;
    if i == 10 {
    } else {
      assert CHAIN[i..][0] == CHAIN[i] && CHAIN[i..][1..] == CHAIN[i + 1..];
      NotForSchedules(CHAIN[i], nodes);
      StepOver(nodes, i + 1);
    }
  }

  lemma NotForSchedules(k: Kind, nodes: seq<Node>)
    requires k != Schedule && nodes != [] && nodes[0].Element? && nodes[0].name == "schedule"
    ensures ParseKind(k, nodes) == (None, nodes)
  {
    RootsDiffer(k);
    RootsDiffer(Schedule);
    assert Root(Schedule) == "schedule";
  }

  /** Without the condition on names a root's child can be taken for a message of its own: where a parser gives up, the
      ones behind it go on. */
  lemma RootInsideIsTaken(a: Attributes, b: Attributes)
    ensures Parse(Document("schedule", a, [("schedule_request", b)])) == Some(Headed(ScheduleRequest, b, Rows([])))
  {
    hide KindOf, GetAttribute, ParseKind, Headed;
    var nodes, at := Document("schedule", a, [("schedule_request", b)]), [Element("schedule_request", b), End("schedule")];
    assert nodes == [Element("schedule", a)] + at;
    FirstTen(nodes);
    assert CHAIN[10..][0] == Schedule && CHAIN[10..][1..] == CHAIN[11..];
    GivesUp(a, at);
    assert CHAIN[11..][0] == ScheduleRequest;
    TakesRequest(b, [End("schedule")]);
    assert at == [Element("schedule_request", b)] + [End("schedule")];
  }

  lemma TakesRequest(b: Attributes, behind: seq<Node>)
    ensures ParseKind(ScheduleRequest, [Element("schedule_request", b)] + behind).0
            == Some(Headed(ScheduleRequest, b, Rows([])))
  {
    assert Skip([Element("schedule_request", b)] + behind) == [Element("schedule_request", b)] + behind;
  }

  /** The parser of a schedule stops at a child that is no card. */
  lemma GivesUp(a: Attributes, at: seq<Node>)
    requires at != [] && at[0].Element? && at[0].name != "card"
    ensures ParseKind(Schedule, [Element("schedule", a)] + at) == (None, at)
  {
    NextOf(Element("schedule", a), at);
  }

  // ----- user_loudness -------------------------------------------------------------------------------------------------

  /** A file element with the attributes of its sections. */
  datatype FileElement = FileElement(attributes: Attributes, sections: seq<Attributes>)

  function SectionNodes(sections: seq<Attributes>): (nodes: seq<Node>)
    ensures |nodes| == |sections|
  {
    seq(|sections|, i requires 0 <= i < |sections| => Element("section", sections[i]))
  }

  /** The files with what is behind them. */
  function FileNodes(files: seq<FileElement>, tail: seq<Node>): seq<Node>
  {
    if files == [] then tail
    else
      var f, rest := files[0], FileNodes(files[1..], tail);
      [Element("file", f.attributes)]
      + if f.sections == [] then rest else SectionNodes(f.sections) + ([End("file")] + rest)
  }

  function UserLoudnessDocument(a: Attributes, files: seq<FileElement>): seq<Node>
  {
    [Element("user_loudness", a)] + if files == [] then [] else FileNodes(files, [End("user_loudness")])
  }

  function SectionOf(a: Attributes): Option<Section>
  {
    match (GetAttribute(a, "start"), GetAttribute(a, "end"), GetAttribute(a, "loudness"), GetAttribute(a, "comment"))
    case (Some(start), Some(end), Some(loudness), Some(comment)) =>
      Some(Section(Copied(start, 16), Copied(end, 16), Strtod(loudness), Copied(comment, 128)))
    case _ => None
  }

  function AllSections(sections: seq<Attributes>): Option<seq<Section>>
  {
    if sections == [] then Some([])
    else
      match (SectionOf(sections[0]), AllSections(sections[1..]))
      case (Some(s), Some(rest)) => Some([s] + rest)
      case _ => None
  }

  /** A file needs a name, the name of a recording, and at least one section; each section needs all its attributes. */
  function FileOf(f: FileElement): Option<File>
  {
    match (GetAttribute(f.attributes, "name"), GetAttribute(f.attributes, "record_name"), AllSections(f.sections))
    case (Some(name), Some(recordName), Some(sections)) =>
      if sections == [] then None else Some(File(Copied(name, 128), Copied(recordName, 128), sections))
    case _ => None
  }

  function AllFiles(files: seq<FileElement>): Option<seq<File>>
  {
    if files == [] then Some([])
    else
      match (FileOf(files[0]), AllFiles(files[1..]))
      case (Some(f), Some(rest)) => Some([f] + rest)
      case _ => None
  }

  lemma FirstSection(sections: seq<Attributes>, tail: seq<Node>)
    ensures SectionNodes(sections) + tail ==
              if sections == [] then tail
              else [Element("section", sections[0])] + (SectionNodes(sections[1..]) + tail)
  {
    if sections == [] {
      assert SectionNodes(sections) + tail == tail;
    } else {
      assert SectionNodes(sections) == [Element("section", sections[0])] + SectionNodes(sections[1..]);
    }
  }

  lemma SectionIsRead(a: Attributes)
    ensures ParseSection(a) == SectionOf(a)
  {
  }

  lemma {:induction false} SectionsParsed(head: Node, sections: seq<Attributes>, tail: seq<Node>)
    requires IsTail(tail)
    ensures var p := ParseSections([head] + (SectionNodes(sections) + tail));
            if AllSections(sections).Some? then p == (AllSections(sections), tail)
            else p.0 == None && p.1 != [] && p.1[0].Element? && p.1[0].name == "section"
    decreases |sections|
  {
    hide SectionOf, ParseSection, SectionNodes;
    NextOf(head, SectionNodes(sections) + tail);
    FirstSection(sections, tail);
    if sections == [] {
    } else {
      SectionIsRead(sections[0]);
      SectionsParsed(Element("section", sections[0]), sections[1..], tail);
    }
  }

  /** Whether the files are all read; otherwise the reader is left at something no parser takes. */
  ghost predicate FilesRead(p: Parsed<seq<File>>, files: Option<seq<File>>, tail: seq<Node>)
  {
    if files.Some? then p == (files, tail) else p.0 == None && Unknown(p.1)
  }

  lemma AfterFile(files: seq<FileElement>, tail: seq<Node>)
    requires tail != [] && tail[0] == End("user_loudness")
    ensures FollowsFile(FileNodes(files, tail))
  {
  }

  /** The loop over the files comes to a file element. */
  lemma FileElementFirst(head: Node, a: Attributes, behind: seq<Node>)
    ensures var node := Element("file", a);
            var (sections, end) := ParseSections([node] + behind);
            ParseFiles([head] + ([node] + behind)) ==
              match (GetAttribute(a, "name"), GetAttribute(a, "record_name"))
              case (Some(name), Some(recordName)) =>
                if sections.None? || end == [] || !end[0].End? || end[0].name != "file" then (None, end)
                else Prepend(File(Copied(name, 128), Copied(recordName, 128), sections.value), ParseFiles(end))
              case _ => (None, [node] + behind)
  {
    hide GetAttribute, ParseSections;
    NextOf(head, [Element("file", a)] + behind);
  }

  /** What follows a file. */
  predicate FollowsFile(rest: seq<Node>)
  {
    rest != [] && (rest[0] == End("user_loudness") || (rest[0].Element? && rest[0].name == "file"))
  }

  /** A file without sections is not read. */
  lemma FileWithoutSections(head: Node, a: Attributes, rest: seq<Node>)
    requires FollowsFile(rest)
    ensures var p := ParseFiles([head] + ([Element("file", a)] + rest)); p.0 == None && Unknown(p.1)
  {
    hide GetAttribute;
    var node := Element("file", a);
    FileElementFirst(head, a, rest);
    NextOf(node, rest);
    assert ParseSections([node] + rest) == (if rest[0].End? then Some([]) else None, rest);
  }

  /** One with sections is read up to its end, or the parser gives up. */
  lemma FileWithSections(head: Node, f: FileElement, rest: seq<Node>)
    requires f.sections != []
    ensures var p := ParseFiles([head] + ([Element("file", f.attributes)]
                                          + (SectionNodes(f.sections) + ([End("file")] + rest))));
            if FileOf(f).Some? then p == Prepend(FileOf(f).value, ParseFiles([End("file")] + rest))
            else p.0 == None && Unknown(p.1)
  {
    hide GetAttribute, SectionNodes, ParseSections, ParseFiles, SectionOf;
    FileElementFirst(head, f.attributes, SectionNodes(f.sections) + ([End("file")] + rest));
    SectionsParsed(Element("file", f.attributes), f.sections, [End("file")] + rest);
  }

  /** One file: what is behind its end is read next, or the parser gives up. */
  lemma OneFile(head: Node, f: FileElement, rest: seq<Node>)
    requires FollowsFile(rest)
    ensures var nodes := [Element("file", f.attributes)]
                         + if f.sections == [] then rest else SectionNodes(f.sections) + ([End("file")] + rest);
            var p := ParseFiles([head] + nodes);
            if FileOf(f).Some? then p == Prepend(FileOf(f).value, ParseFiles([End("file")] + rest))
            else p.0 == None && Unknown(p.1)
  {
    hide GetAttribute, SectionNodes, ParseSections, ParseFiles, SectionOf, Unknown;
    if f.sections == [] {
      FileWithoutSections(head, f.attributes, rest);
    } else {
      FileWithSections(head, f, rest);
    }
  }

  lemma {:induction false} FilesParsed(head: Node, files: seq<FileElement>, tail: seq<Node>)
    requires tail != [] && tail[0] == End("user_loudness")
    ensures FilesRead(ParseFiles([head] + FileNodes(files, tail)), AllFiles(files), tail)
    decreases |files|
  {
    hide ParseFiles, ParseSections, FileOf, SectionNodes;
    if files == [] {
      NoFiles(head, tail);
    } else {
      AfterFile(files[1..], tail);
      OneFile(head, files[0], FileNodes(files[1..], tail));
      FilesParsed(End("file"), files[1..], tail);
    }
  }

  lemma NoFiles(head: Node, tail: seq<Node>)
    requires tail == [] || tail[0].End?
    ensures ParseFiles([head] + tail) == (Some([]), tail)
  {
    NextOf(head, tail);
  }

  /** `user_loudness`: files with name and record_name, their sections with start, end, loudness and comment. */
  lemma UserLoudnessMeans(a: Attributes, files: seq<FileElement>)
    ensures Parse(UserLoudnessDocument(a, files)) ==
              match AllFiles(files) case None => None case Some(fs) => Some(Headed(UserLoudness, a, Files(fs)))
  {
    hide ParseFiles, FileNodes, AllFiles, KindOf, GetAttribute;
    var head, nodes := Element("user_loudness", a), UserLoudnessDocument(a, files);
    if files == [] {
      NoFiles(head, []);
      assert AllFiles(files) == Some([]) by { NothingInside(); }
    } else {
      FilesParsed(head, files, [End("user_loudness")]);
    }
    InChain(UserLoudness);
    ChainReaches(CHAIN, UserLoudness, nodes);
  }

  lemma NothingInside()
    ensures AllFiles([]) == Some([])
  {
  }

  // ----- what the generators write -------------------------------------------------------------------------------------

  /** An entry of a schedule as the client is told it. */
  datatype Entry = Entry(index: int, start: string, end: string, channel: int)

  predicate EntryFits(e: Entry) { IsInt(e.index) && |e.start| < 24 && |e.end| < 24 && IsInt(e.channel) }

  function ScheduleOf(ip: string, number: int, entries: seq<Entry>): Message
  {
    Message(Schedule, ip, number, Rows(seq(|entries|, i requires 0 <= i < |entries| =>
      [Integer(entries[i].index), Str(entries[i].start), Str(entries[i].end), Integer(entries[i].channel)])))
  }

  function Cards(entries: seq<Entry>): seq<(string, Attributes)>
  {
    seq(|entries|, i requires 0 <= i < |entries| =>
      ("card", [("index", IntToString(entries[i].index)), ("start", entries[i].start), ("end", entries[i].end),
                ("channel", IntToString(entries[i].channel))]))
  }

  /** A schedule is written attribute by attribute, and read back. */
  lemma ScheduleIsWritten(ip: string, number: int, entries: seq<Entry>)
    requires |ip| < 16 && IsInt(number) && forall i :: 0 <= i < |entries| ==> EntryFits(entries[i])
    ensures var m := ScheduleOf(ip, number, entries);
            && WellTyped(m)
            && Print(m) == Document("schedule", [("ip", ip), ("number", IntToString(number))], Cards(entries))
            && Parse(Print(m)) == Some(m)
  {
    var m := ScheduleOf(ip, number, entries);
    var columns := [Number("index"), Words("start", 24), Words("end", 24), Number("channel")];
    forall i | 0 <= i < |entries|
      ensures RowFits(m.body.rows[i], columns) && PrintRow(columns, m.body.rows[i]) == Cards(entries)[i].1
    {
      var row := m.body.rows[i];
      assert PrintRow(columns, row) == Cards(entries)[i].1;
    }
    assert PrintRows("card", columns, m.body.rows) == Elements(Cards(entries));
    RoundTripIff(m);
  }
}
