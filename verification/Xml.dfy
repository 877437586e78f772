/** An XML document as the library's reader delivers it: a list of nodes. An element without children is one node;
    one with children is followed by them and an end node. */
module Xml {
  import opened Wrappers

  type Attributes = seq<(string, string)>

  datatype Node = Element(name: string, attributes: Attributes) | End(name: string) | Comment | Whitespace | Other

  /** What the parsers step over. */
  predicate Noise(n: Node) { n.Comment? || n.Whitespace? }

  function GetAttribute(attributes: Attributes, name: string): Option<string>
  {
    if attributes == [] then None
    else if attributes[0].0 == name then Some(attributes[0].1)
    else GetAttribute(attributes[1..], name)
  }

  /** Without the leading noise. */
  function Skip(nodes: seq<Node>): (r: seq<Node>)
    ensures |r| <= |nodes| && (r != [] ==> !Noise(r[0]))
  {
    if nodes != [] && Noise(nodes[0]) then Skip(nodes[1..]) else nodes
  }

  /** Without any noise. */
  function Strip(nodes: seq<Node>): seq<Node>
  {
    if nodes == [] then [] else (if Noise(nodes[0]) then [] else [nodes[0]]) + Strip(nodes[1..])
  }

  lemma {:induction false} SkipStrips(nodes: seq<Node>)
    ensures Strip(Skip(nodes)) == Strip(nodes) && Skip(Strip(nodes)) == Strip(nodes)
    ensures (Skip(nodes) == []) == (Strip(nodes) == [])
    ensures Skip(nodes) != [] ==> Strip(nodes) == [Skip(nodes)[0]] + Strip(Skip(nodes)[1..])
  {
    if nodes == [] {
    } else {
      SkipStrips(nodes[1..]);
      assert [] + Strip(nodes[1..]) == Strip(nodes[1..]);
    }
  }

  // ----- the library's reader and writer ------------------------------------------------------------------------------

  /** A reader that has been moved to the first node: `ahead` is the current node and what is behind it. */
  class XmlReader {
    var ahead: seq<Node>

    constructor (nodes: seq<Node>)
      ensures ahead == nodes
    {
      ahead := nodes;
    }

    /** Moving to the next node; false when there is none. */
    method Read() returns (ok: bool)
      modifies this
      ensures ahead == (if |old(ahead)| <= 1 then [] else old(ahead)[1..]) && ok == (ahead != [])
    {
      ahead := if |ahead| <= 1 then [] else ahead[1..];
      ok := |ahead| > 0;
    }

    /** The loop every parser begins with. */
    method SkipNoise()
      modifies this
      ensures ahead == Skip(old(ahead))
    {
      while |ahead| > 0 && Noise(ahead[0])
        invariant Skip(ahead) == Skip(old(ahead))
        decreases |ahead|
      {
        var _ := Read();
      }
    }
  }

  /** The innermost open element has a child. */
  function WithChild(pending: seq<(string, bool)>): seq<(string, bool)>
  {
    var n := |pending|;
    if n == 0 then [] else pending[..n - 1] + [(pending[n - 1].0, true)]
  }

  /** A writer, seen through the nodes a reader of its output delivers. `pending` are the elements that are still
      open, each with whether it has children. */
  class XmlWriter {
    var nodes: seq<Node>
    var pending: seq<(string, bool)>

    constructor ()
      ensures nodes == [] && pending == []
    {
      nodes, pending := [], [];
    }

    method StartElement(name: string)
      modifies this
      ensures nodes == old(nodes) + [Element(name, [])]
      ensures pending == WithChild(old(pending)) + [(name, false)]
    {
      nodes := nodes + [Element(name, [])];
      pending := WithChild(pending) + [(name, false)];
    }

    method WriteAttribute(name: string, value: string)
      requires nodes != [] && nodes[|nodes| - 1].Element?
      modifies this`nodes
      ensures var n := |old(nodes)| - 1; var e := old(nodes)[n];
              |nodes| == n + 1 && nodes[..n] == old(nodes)[..n]
              && nodes[n] == Element(e.name, e.attributes + [(name, value)])
    {
      var n := |nodes| - 1;
      var e := nodes[n];
      nodes := nodes[..n] + [Element(e.name, e.attributes + [(name, value)])];
    }

    method EndElement()
      requires pending != []
      modifies this
      ensures var p := old(pending)[|old(pending)| - 1];
              nodes == old(nodes) + (if p.1 then [End(p.0)] else [])
      ensures pending == old(pending)[..|old(pending)| - 1]
    {
      var n := |pending| - 1;
      nodes := nodes + (if pending[n].1 then [End(pending[n].0)] else []);
      pending := pending[..n];
    }
  }
}
