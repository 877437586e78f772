/** The generators of controller/messenger.c for the messages that have a parser too, as loops over a writer. */
module MessageGenerator {
  import opened Codec
  import opened Sequences
  import opened Text
  import opened Xml

  /** Attributes of the element that has just been started. */
  method WriteAttributes(writer: XmlWriter, attributes: Attributes)
    requires writer.nodes != [] && writer.nodes[|writer.nodes| - 1].Element?
    modifies writer`nodes
    ensures var n := |old(writer.nodes)| - 1; var e := old(writer.nodes)[n];
            |writer.nodes| == n + 1 && writer.nodes[..n] == old(writer.nodes)[..n]
            && writer.nodes[n] == Element(e.name, e.attributes + attributes)
  {
    var i := 0;
    ghost var n := |writer.nodes| - 1;
    ghost var e := writer.nodes[n];
    assert e.attributes + [] == e.attributes;
    while i < |attributes|
      invariant 0 <= i <= |attributes| && |writer.nodes| == n + 1 && writer.nodes[..n] == old(writer.nodes)[..n]
      invariant writer.nodes[n] == Element(e.name, e.attributes + attributes[..i])
    {
      writer.WriteAttribute(attributes[i].0, attributes[i].1);
      assert attributes[..i] + [attributes[i]] == attributes[..i + 1];
      Associative(e.attributes, attributes[..i], [attributes[i]]);
      i := i + 1;
    }
    assert attributes[..i] == attributes;
  }

  /** An element that stays open. */
  method OpenElement(writer: XmlWriter, name: string, attributes: Attributes)
    modifies writer
    ensures writer.nodes == old(writer.nodes) + [Element(name, attributes)]
    ensures writer.pending == WithChild(old(writer.pending)) + [(name, false)]
  {
    ghost var n := |writer.nodes|;
    ghost var before := writer.nodes;
    writer.StartElement(name);
    assert writer.nodes[..n] == before;
    WriteAttributes(writer, attributes);
    assert writer.nodes == writer.nodes[..n] + [writer.nodes[n]] && [] + attributes == attributes;
  }

  /** An element without children. */
  method WriteElement(writer: XmlWriter, name: string, attributes: Attributes)
    modifies writer
    ensures writer.nodes == old(writer.nodes) + [Element(name, attributes)]
    ensures writer.pending == WithChild(old(writer.pending))
  {
    OpenElement(writer, name, attributes);
    ghost var p := WithChild(old(writer.pending));
    assert (p + [(name, false)])[..|p|] == p;
    writer.EndElement();
    assert writer.nodes + [] == writer.nodes;
  }

  method StartMessage(m: Message, writer: XmlWriter)
    requires writer.nodes == [] && writer.pending == []
    modifies writer
    ensures writer.nodes == [Element(Root(m.kind), [("ip", m.ip), ("number", IntToString(m.number))])]
    ensures writer.pending == [(Root(m.kind), false)]
  {
    OpenElement(writer, Root(m.kind), [("ip", m.ip), ("number", IntToString(m.number))]);
  }

  /** `generate_ack_xml` and `generate_alive_xml`. */
  method GeneratePlain(m: Message, writer: XmlWriter)
    requires WellTyped(m) && (m.kind.Ack? || m.kind.Alive?)
    requires writer.nodes == [] && writer.pending == []
    modifies writer
    ensures writer.nodes == Print(m) && writer.pending == []
  {
    StartMessage(m, writer);
    writer.EndElement();
  }

  /** `generate_schedule_xml`. */
  method GenerateSchedule(m: Message, writer: XmlWriter)
    requires WellTyped(m) && m.kind.Schedule?
    requires writer.nodes == [] && writer.pending == []
    modifies writer
    ensures writer.nodes == Print(m) && writer.pending == []
  {
    StartMessage(m, writer);
    var data, columns := m.body.rows, ShapeOf(Schedule).columns;
    ghost var head := writer.nodes[0];
    var i := 0;
    while i < |data|
      invariant 0 <= i <= |data|
      invariant writer.nodes == [head] + PrintRows("card", columns, data[..i])
      invariant writer.pending == [("schedule", i > 0)]
    {
      WriteElement(writer, "card", PrintRow(columns, data[i]));
      assert PrintRows("card", columns, data[..i + 1])
             == PrintRows("card", columns, data[..i]) + [Element("card", PrintRow(columns, data[i]))];
      i := i + 1;
    }
    assert data[..i] == data;
    writer.EndElement();
  }

  /** The sections of a file, and its end. */
  method GenerateFile(f: File, writer: XmlWriter)
    requires |writer.pending| == 1 && writer.pending[0].0 == "user_loudness"
    modifies writer
    ensures writer.nodes == old(writer.nodes) + PrintFile(f) && writer.pending == [("user_loudness", true)]
  {
    ghost var before := writer.nodes;
    OpenElement(writer, "file", [("name", f.name), ("record_name", f.recordName)]);
    var j := 0;
    while j < |f.sections|
      invariant 0 <= j <= |f.sections|
      invariant writer.nodes == before + ([FileNode(f)] + PrintSections(f.sections[..j]))
      invariant writer.pending == [("user_loudness", true), ("file", j > 0)]
    {
      WriteElement(writer, "section", PrintSection(f.sections[j]).attributes);
      assert PrintSections(f.sections[..j + 1]) == PrintSections(f.sections[..j]) + [PrintSection(f.sections[j])];
      j := j + 1;
    }
    assert f.sections[..j] == f.sections;
    writer.EndElement();
  }

  lemma OneMoreFile(nodes: seq<Node>, files: seq<File>, i: nat)
    requires i < |files|
    ensures nodes + PrintFiles(files[i..]) == (nodes + PrintFile(files[i])) + PrintFiles(files[i + 1..])
  {
    assert files[i..][1..] == files[i + 1..];
    Associative(nodes, PrintFile(files[i]), PrintFiles(files[i + 1..]));
  }

  lemma EndOfFiles(m: Message, nodes: seq<Node>)
    requires WellTyped(m) && m.kind.UserLoudness?
    requires var head := Element(Root(m.kind), [("ip", m.ip), ("number", IntToString(m.number))]);
             nodes + PrintFiles([]) == [head] + PrintFiles(m.body.files)
    ensures nodes + (if m.body.files != [] then [End("user_loudness")] else []) == Print(m)
  {
    assert nodes + [] == nodes;
  }

  /** `generate_user_loudness_xml`. */
  method GenerateUserLoudness(m: Message, writer: XmlWriter)
    requires WellTyped(m) && m.kind.UserLoudness?
    requires writer.nodes == [] && writer.pending == []
    modifies writer
    ensures writer.nodes == Print(m) && writer.pending == []
  {
    StartMessage(m, writer);
    var data := m.body.files;
    ghost var head := writer.nodes[0];
    var i := 0;
    while i < |data|
      invariant 0 <= i <= |data|
      invariant writer.nodes + PrintFiles(data[i..]) == [head] + PrintFiles(data)
      invariant writer.pending == [("user_loudness", i > 0)]
    {
      OneMoreFile(writer.nodes, data, i);
      GenerateFile(data[i], writer);
      i := i + 1;
    }
    assert data[i..] == [];
    EndOfFiles(m, writer.nodes);
    writer.EndElement();
  }

  /** The part of `generate_xml` for these messages. */
  method GenerateXml(m: Message) returns (nodes: seq<Node>)
    requires WellTyped(m) && (m.kind.Ack? || m.kind.Alive? || m.kind.Schedule? || m.kind.UserLoudness?)
    ensures nodes == Print(m)
  {
    var writer := new XmlWriter();
    if m.kind.Schedule? {
      GenerateSchedule(m, writer);
    } else if m.kind.UserLoudness? {
      GenerateUserLoudness(m, writer);
    } else {
      GeneratePlain(m, writer);
    }
    nodes := writer.nodes;
  }
}
