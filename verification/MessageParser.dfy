/** The parsers of controller/messenger.c as loops over a reader that moves on. */
module MessageParser {
  import opened Codec
  import opened Sequences
  import opened Wrappers
  import opened Xml

  /** What was collected before, in front of what the rest of a loop collects. */
  function PrependAll<T>(before: seq<T>, p: Parsed<seq<T>>): Parsed<seq<T>>
  {
    (if p.0.Some? then Some(before + p.0.value) else None, p.1)
  }

  lemma PrependOneMore<T>(before: seq<T>, x: T, p: Parsed<seq<T>>)
    ensures PrependAll(before, Prepend(x, p)) == PrependAll(before + [x], p)
  {
    if p.0.Some? {
      Associative(before, [x], p.0.value);
    }
  }

  /** Moving to the next node and over the noise. */
  method Advance(reader: XmlReader)
    requires reader.ahead != []
    modifies reader
    ensures reader.ahead == Next(old(reader.ahead))
  {
    var ok := reader.Read();
    if ok {
      reader.SkipNoise();
    }
  }

  /** The attributes of one child, in the order of the columns. */
  method ReadRow(attributes: Attributes, columns: seq<Column>) returns (row: Option<Row>)
    ensures row == ParseRow(attributes, columns)
  {
    var fields: Row := [];
    var i := 0;
    assert columns[0..] == columns && forall r: Row :: fields + r == r;
    while i < |columns|
      invariant 0 <= i <= |columns|
      invariant ParseRow(attributes, columns) ==
                match ParseRow(attributes, columns[i..]) case None => None case Some(rest) => Some(fields + rest)
    {
      var field := ParseField(attributes, columns[i]);
      if field.None? {
        return None;
      }
      ghost var rest := ParseRow(attributes, columns[i + 1..]);
      assert columns[i..][1..] == columns[i + 1..];
      if rest.Some? {
        Associative(fields, [field.value], rest.value);
      }
      fields := fields + [field.value];
      i := i + 1;
    }
    assert fields + [] == fields;
    return Some(fields);
  }

  /** The loop over the children of the messages that have a list of equal children. */
  method ReadRows(reader: XmlReader, child: string, columns: seq<Column>) returns (rows: Option<seq<Row>>)
    requires reader.ahead != []
    modifies reader
    ensures (rows, reader.ahead) == ParseRows(old(reader.ahead), child, columns)
  {
    var data: seq<Row> := [];
    ghost var p := ParseRows(reader.ahead, child, columns);
    assert p == PrependAll(data, p) by { if p.0.Some? { assert [] + p.0.value == p.0.value; } }
    while true
      invariant reader.ahead != [] && p == PrependAll(data, ParseRows(reader.ahead, child, columns))
      decreases |reader.ahead|
    {
      ghost var before := reader.ahead;
      Advance(reader);
      if |reader.ahead| == 0 || !reader.ahead[0].Element? {
        assert data + [] == data;
        return Some(data);
      }
      if reader.ahead[0].name != child {
        return None;
      }
      var row := ReadRow(reader.ahead[0].attributes, columns);
      if row.None? {
        return None;
      }
      PrependOneMore(data, row.value, ParseRows(reader.ahead, child, columns));
      data := data + [row.value];
    }
  }

  /** The loop over the sections of a file. */
  method ReadSections(reader: XmlReader) returns (sections: Option<seq<Section>>)
    requires reader.ahead != []
    modifies reader
    ensures (sections, reader.ahead) == ParseSections(old(reader.ahead))
  {
    var data: seq<Section> := [];
    ghost var p := ParseSections(reader.ahead);
    assert p == PrependAll(data, p) by { if p.0.Some? { assert [] + p.0.value == p.0.value; } }
    while true
      invariant reader.ahead != [] && p == PrependAll(data, ParseSections(reader.ahead))
      decreases |reader.ahead|
    {
      Advance(reader);
      if |reader.ahead| == 0 || !reader.ahead[0].Element? {
        assert data + [] == data;
        return Some(data);
      }
      if reader.ahead[0].name != "section" {
        return None;
      }
      var section := ParseSection(reader.ahead[0].attributes);
      if section.None? {
        return None;
      }
      PrependOneMore(data, section.value, ParseSections(reader.ahead));
      data := data + [section.value];
    }
  }

  /** The loop over the files of a user-loudness message. */
  method ReadFiles(reader: XmlReader) returns (files: Option<seq<File>>)
    requires reader.ahead != []
    modifies reader
    ensures (files, reader.ahead) == ParseFiles(old(reader.ahead))
  {
    var data: seq<File> := [];
    ghost var p := ParseFiles(reader.ahead);
    assert p == PrependAll(data, p) by { if p.0.Some? { assert [] + p.0.value == p.0.value; } }
    while true
      invariant reader.ahead != [] && p == PrependAll(data, ParseFiles(reader.ahead))
      decreases |reader.ahead|
    {
      Advance(reader);
      if |reader.ahead| == 0 || !reader.ahead[0].Element? {
        assert data + [] == data;
        return Some(data);
      }
      if reader.ahead[0].name != "file" {
        return None;
      }
      var name := GetAttribute(reader.ahead[0].attributes, "name");
      if name.None? {
        return None;
      }
      var recordName := GetAttribute(reader.ahead[0].attributes, "record_name");
      if recordName.None? {
        return None;
      }
      ghost var file := reader.ahead;
      var sections := ReadSections(reader);
      if sections.None? {
        return None;
      }
      SectionsStripped(file);
      reader.SkipNoise();
      if |reader.ahead| == 0 || !reader.ahead[0].End? || reader.ahead[0].name != "file" {
        return None;
      }
      var read := File(Copied(name.value, NAME_SIZE), Copied(recordName.value, NAME_SIZE), sections.value);
      PrependOneMore(data, read, ParseFiles(reader.ahead));
      data := data + [read];
    }
  }

  /** One `parse_*_xml`. */
  method ReadMessage(k: Kind, reader: XmlReader) returns (m: Option<Message>)
    modifies reader
    ensures (m, reader.ahead) == ParseKind(k, old(reader.ahead))
  {
    reader.SkipNoise();
    if |reader.ahead| == 0 || !reader.ahead[0].Element? || reader.ahead[0].name != Root(k) {
      return None;
    }
    var ip, number := ParseIp(reader.ahead[0].attributes), ParseNumber(reader.ahead[0].attributes);
    match ShapeOf(k) {
      case NoChildren =>
        return Some(Message(k, ip, number, Rows([])));
      case Children(child, columns) =>
        var rows := ReadRows(reader, child, columns);
        return if rows.Some? then Some(Message(k, ip, number, Rows(rows.value))) else None;
      case FilesWithSections =>
        var files := ReadFiles(reader);
        return if files.Some? then Some(Message(k, ip, number, Files(files.value))) else None;
    }
  }

  /** `parse_xml`: the parsers one after the other. */
  method ParseXml(nodes: seq<Node>) returns (m: Option<Message>)
    ensures m == Parse(nodes)
  {
    if |nodes| == 0 {
      return None;
    }
    var reader := new XmlReader(nodes);
    var i := 0;
    while i < |CHAIN|
      invariant 0 <= i <= |CHAIN| && ParseChain(CHAIN[i..], reader.ahead) == ParseChain(CHAIN, nodes)
    {
      m := ReadMessage(CHAIN[i], reader);
      if m.Some? {
        return;
      }
      assert CHAIN[i..][1..] == CHAIN[i + 1..];
      i := i + 1;
    }
    return None;
  }
}
