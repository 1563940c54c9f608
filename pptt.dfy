/** The Processor Properties Topology Table walker (`parse_pptt`).

    The table is the 36-byte header followed by self-length-prefixed nodes:
    processor hierarchy nodes (type 0, ACPI 6.6 section 5.2.30.1) and cache
    type nodes (type 1, section 5.2.30.2). Each node adds labelled graph
    nodes and edges to a topology graph. Here the graph is a value: the
    ordered node statements and the ordered edge statements the walk emits;
    a node is identified by its byte offset in the table. */
module Pptt {
  import opened AcpiTable
  import opened TableExamples
  import opened PpttCaption

  /** "PPTT" */
  const Signature: Bytes := [0x50, 0x50, 0x54, 0x54]
  /** Fixed part of a processor hierarchy node, before its private resources. */
  const ProcessorSize: nat := 20
  /** Size of a cache type node. */
  const CacheSize: nat := 28
  /** Cache flags that must all be set for the node to be drawn and its
      next-level edge added: size valid (bit 0), allocation type valid
      (bit 3), cache type valid (bit 4) and write policy valid (bit 5). */
  const InfoMask: bv32 := 0x39

  /** One `dot.node` statement: the node's id (its offset), its label and
      whether it is drawn with the filled style. */
  datatype GraphNode = GraphNode(id: nat, caption: Caption, filled: bool)

  /** One `dot.edge` statement, from `from` to `to`. */
  datatype Edge = Edge(from: nat, to: nat)

  datatype Graph = Graph(nodes: seq<GraphNode>, edges: seq<Edge>)

  /** The graph node of the processor node at `offset`. */
  function ProcessorNode(offset: nat, flags: bv32, processorId: nat): GraphNode {
    var (caption, filled) := ProcessorCaption(flags, processorId);
    GraphNode(offset, caption, filled)
  }

  /** Under the info mask, the separate bit-4 test before drawing a cache
      node cannot fail: bit 4 is one of the mask's bits. */
  lemma InfoMaskImpliesBit4(flags: bv32)
    requires flags & InfoMask == InfoMask
    ensures FlagBit(flags, 4)
  {
  }

  // ---------------------------------------------------------------------
  // Decoding one node

  /** What the loop body does with the node at one offset. */
  datatype NodeStep =
    | Stop                      // `break`: the walk ends and the graph so far is kept
    | Fail(error: Error)        // an exception: the whole parse fails
    | Advance(length: nat, nodes: seq<GraphNode>, edges: seq<Edge>)

  /** The edges to the `count` private resources of the processor node at
      `offset`, in the order they are listed after its fixed part. */
  function PrivateEdges(data: Bytes, offset: nat, count: nat): (es: seq<Edge>)
    requires offset + ProcessorSize + 4 * count <= |data|
    ensures |es| == count
    ensures forall i :: 0 <= i < count ==>
      es[i] == Edge(offset, LE32(data, offset + ProcessorSize + 4 * i))
    decreases count
  {
    if count == 0 then []
    else
      PrivateEdges(data, offset, count - 1)
        + [Edge(offset, LE32(data, offset + ProcessorSize + 4 * (count - 1)))]
  }

  /** A processor hierarchy node (type 0): flags at byte 4, parent at 8,
      ACPI processor ID at 12, number of private resources at 16, then the
      private resource references, 4 bytes each. */
  function DecodeProcessor(data: Bytes, offset: nat): (r: NodeStep)
    requires offset < |data|
    ensures r.Advance? ==> 1 <= r.length && offset + r.length <= |data|
    ensures r.Advance? ==> |r.nodes| == 1 && r.nodes[0].id == offset
  {
    if offset + ProcessorSize > |data| then Stop
    else
      var length := data[offset + 1] as nat;
      if length == 0 || offset + length > |data| then Stop
      else
        var flags := Bits32(data, offset + 4);
        var parent := LE32(data, offset + 8);
        var processorId := LE32(data, offset + 12);
        var count := LE32(data, offset + 16);
        var node := ProcessorNode(offset, flags, processorId);
        var parentEdges := if parent != 0 then [Edge(parent, offset)] else [];
        if count != 0 && offset + ProcessorSize + 4 * count > |data| then Fail(OutOfBounds)
        else Advance(length, [node], parentEdges + PrivateEdges(data, offset, count))
  }

  /** A cache type node (type 1): flags at byte 4, next level of cache at 8,
      size at 12, attributes at byte 21. */
  function DecodeCache(data: Bytes, offset: nat): (r: NodeStep)
    requires offset < |data|
    ensures r.Advance? ==> 1 <= r.length && offset + r.length <= |data|
    ensures r.Advance? ==> |r.nodes| <= 1 && (|r.nodes| == 1 ==> r.nodes[0].id == offset)
  {
    if offset + CacheSize > |data| then Stop
    else
      var length := data[offset + 1] as nat;
      if length == 0 || offset + length > |data| then Stop
      else
        var flags := Bits32(data, offset + 4);
        var nextLevel := LE32(data, offset + 8);
        var size := LE32(data, offset + 12);
        var attributes := data[offset + 21];
        if flags & InfoMask == InfoMask then
          var nodes := if FlagBit(flags, 4) then [GraphNode(offset, CacheCaption(attributes, size), false)] else [];
          var edges := if nextLevel != 0 then [Edge(offset, nextLevel)] else [];
          Advance(length, nodes, edges)
        else Advance(length, [], [])
  }

  /** One pass of the loop body at `offset`. Whatever the node, an advance
      moves forward by at least one byte and stays inside the buffer, and
      the nodes it adds are at `offset`. */
  function DecodeNode(data: Bytes, offset: nat): (r: NodeStep)
    requires offset < |data|
    ensures r == Fail(InvalidNodeType) <==> data[offset] > 1
    ensures r.Advance? ==> 1 <= r.length && offset + r.length <= |data|
    ensures r.Advance? ==> |r.nodes| <= 1 && (|r.nodes| == 1 ==> r.nodes[0].id == offset)
  {
    var nodeType := data[offset];
    if nodeType == 0 then DecodeProcessor(data, offset)
    else if nodeType == 1 then DecodeCache(data, offset)
    else Fail(InvalidNodeType)
  }

  /** A processor node stops the walk silently when its fixed part does not
      fit, its declared length is 0 or it runs past the buffer. It raises
      only when its private resource list runs past the buffer, even though
      the declared length fit. */
  lemma ProcessorOutcome(data: Bytes, offset: nat)
    requires offset < |data| && data[offset] == 0
    ensures var r := DecodeNode(data, offset);
      && (r.Stop? <==>
           offset + ProcessorSize > |data|
           || data[offset + 1] == 0 || offset + data[offset + 1] as nat > |data|)
      && (r.Fail? <==>
           !r.Stop? && LE32(data, offset + 16) != 0
           && offset + ProcessorSize + 4 * LE32(data, offset + 16) > |data|)
      && (r.Fail? ==> r.error == OutOfBounds)
  {
  }

  /** A processor node that is accepted advances by its declared length and
      adds exactly one node, an edge parent -> self when the parent is not
      0, then one edge self -> each private resource, in listed order (see
      `PrivateEdges`). */
  lemma ProcessorAdvance(data: Bytes, offset: nat)
    requires offset < |data| && data[offset] == 0
    requires DecodeNode(data, offset).Advance?
    ensures var r := DecodeNode(data, offset);
      var parent, count := LE32(data, offset + 8), LE32(data, offset + 16);
      && r.length == data[offset + 1] as nat
      && r.nodes == [ProcessorNode(offset, Bits32(data, offset + 4), LE32(data, offset + 12))]
      && r.edges == (if parent != 0 then [Edge(parent, offset)] else []) + PrivateEdges(data, offset, count)
  {
  }

  /** A cache node never raises. It stops the walk silently when it does not
      fit in 28 bytes, its declared length is 0 or it runs past the buffer.
      Otherwise it adds a labelled node iff all info-mask flags are set, and
      an edge self -> next level iff the mask holds and the next level is
      not 0. */
  lemma CacheStep(data: Bytes, offset: nat)
    requires offset < |data| && data[offset] == 1
    ensures var r := DecodeNode(data, offset);
      && !r.Fail?
      && (r.Stop? <==>
           offset + CacheSize > |data|
           || data[offset + 1] == 0 || offset + data[offset + 1] as nat > |data|)
    ensures var r := DecodeNode(data, offset);
      r.Advance? ==>
        var flags, next := Bits32(data, offset + 4), LE32(data, offset + 8);
        var drawn := flags & InfoMask == InfoMask;
        && r.length == data[offset + 1] as nat
        && (|r.nodes| == 1 <==> drawn)
        && (drawn ==> r.nodes == [GraphNode(offset, CacheCaption(data[offset + 21], LE32(data, offset + 12)), false)])
        && (r.edges == [Edge(offset, next)] <==> drawn && next != 0)
        && (r.edges == [] <==> !drawn || next == 0)
  {
    var r := DecodeNode(data, offset);
    if r.Advance? {
      var flags := Bits32(data, offset + 4);
      if flags & InfoMask == InfoMask {
        InfoMaskImpliesBit4(flags);
      }
    }
  }

  // ---------------------------------------------------------------------
  // The walk

  /** The loop from `offset` on, with graph `g` built so far. */
  function Walk(data: Bytes, offset: nat, g: Graph): Result<Graph>
    decreases |data| - offset, 1
  {
    if offset >= |data| then Ok(g) else Visit(data, offset, g)
  }

  /** One pass of the loop body at `offset`: decode the node there and go on
      behind it, stop, or raise. */
  function Visit(data: Bytes, offset: nat, g: Graph): Result<Graph>
    requires offset < |data|
    decreases |data| - offset, 0
  {
    match DecodeNode(data, offset)
    case Stop => Ok(g)
    case Fail(e) => Err(e)
    case Advance(length, nodes, edges) =>
      Walk(data, offset + length, Graph(g.nodes + nodes, g.edges + edges))
  }

  /** The result of `parse_pptt` on `data`: the header check, then the walk
      from the end of the header with an empty graph. */
  function TopologyGraph(data: Bytes): Result<Graph> {
    match CheckHeader(data, Signature)
    case Some(e) => Err(e)
    case None => Walk(data, HeaderSize, Graph([], []))
  }

  /** One iteration of the walk, unfolded, for the step `r` the node at
      `offset` gives. */
  lemma WalkStep(data: Bytes, offset: nat, g: Graph, r: NodeStep)
    requires offset < |data| && r == DecodeNode(data, offset)
    ensures r.Stop? ==> Walk(data, offset, g) == Ok(g)
    ensures r.Fail? ==> Walk(data, offset, g) == Err(r.error)
    ensures r.Advance? ==>
      && offset < offset + r.length <= |data|
      && Walk(data, offset, g) == Walk(data, offset + r.length, Graph(g.nodes + r.nodes, g.edges + r.edges))
  {
  }

  /** The loop over the private resources of a processor node: one edge
      self -> reference per listed reference, appended in order. */
  method AppendPrivateEdges(data: Bytes, offset: nat, count: nat, edges: seq<Edge>)
    returns (r: seq<Edge>)
    requires offset + ProcessorSize + 4 * count <= |data|
    ensures r == edges + PrivateEdges(data, offset, count)
  {
    r := edges;
    var index := 0;
    while index < count
      invariant index <= count
      invariant r == edges + PrivateEdges(data, offset, index)
    {
      r := r + [Edge(offset, LE32(data, offset + ProcessorSize + 4 * index))];
      index := index + 1;
    }
  }

  /** The processor branch of the loop body: the `break` checks, the node
      statement, the parent edge, and the loop over the private resources
      (which raises first if the list runs past the buffer). */
  method ProcessorStatements(data: Bytes, offset: nat) returns (step: NodeStep)
    requires offset < |data|
    ensures step == DecodeProcessor(data, offset)
  {
    if offset + ProcessorSize > |data| {
      return Stop;
    }
    var length := data[offset + 1] as nat;
    if length == 0 || offset + length > |data| {
      return Stop;
    }
    var flags := Bits32(data, offset + 4);
    var parent := LE32(data, offset + 8);
    var processorId := LE32(data, offset + 12);
    var count := LE32(data, offset + 16);
    var nodes := [ProcessorNode(offset, flags, processorId)];
    var edges := [];
    if parent != 0 {
      edges := [Edge(parent, offset)];
    }
    if count != 0 {
      if offset + ProcessorSize + 4 * count > |data| {
        return Fail(OutOfBounds);
      }
      edges := AppendPrivateEdges(data, offset, count, edges);
    }
    return Advance(length, nodes, edges);
  }

  /** The cache branch of the loop body: the `break` checks, then the node
      statement and the next-level edge, both under the info mask. */
  method CacheStatements(data: Bytes, offset: nat) returns (step: NodeStep)
    requires offset < |data|
    ensures step == DecodeCache(data, offset)
  {
    if offset + CacheSize > |data| {
      return Stop;
    }
    var length := data[offset + 1] as nat;
    if length == 0 || offset + length > |data| {
      return Stop;
    }
    var flags := Bits32(data, offset + 4);
    var nextLevel := LE32(data, offset + 8);
    var size := LE32(data, offset + 12);
    var attributes := data[offset + 21];
    var nodes := [];
    var edges := [];
    if flags & InfoMask == InfoMask {
      var caption := CacheCaption(attributes, size);
      if FlagBit(flags, 4) {
        nodes := [GraphNode(offset, caption, false)];
      }
      if nextLevel != 0 {
        edges := [Edge(offset, nextLevel)];
      }
    }
    return Advance(length, nodes, edges);
  }

  /** The loop body's dispatch on the node type byte; any type other than 0
      or 1 raises. */
  method NodeStatements(data: Bytes, offset: nat) returns (step: NodeStep)
    requires offset < |data|
    ensures step == DecodeNode(data, offset)
  {
    var nodeType := data[offset];
    if nodeType == 0 {
      step := ProcessorStatements(data, offset);
    } else if nodeType == 1 {
      step := CacheStatements(data, offset);
    } else {
      step := Fail(InvalidNodeType);
    }
  }

  /** `parse_pptt`: the header check, then the loop over the nodes, which
      appends each node's statements to the graph and advances by the
      node's declared length. */
  method ParsePptt(data: Bytes) returns (r: Result<Graph>)
    ensures r == TopologyGraph(data)
  {
    if |data| < HeaderSize {
      return Err(TooShort);
    }
    if data[..4] != Signature {
      return Err(BadSignature);
    }
    var offset: nat := HeaderSize;
    var nodes: seq<GraphNode> := [];
    var edges: seq<Edge> := [];
    while offset < |data|
      invariant Walk(data, offset, Graph(nodes, edges)) == TopologyGraph(data)
      decreases |data| - offset
    {
      var step := NodeStatements(data, offset);
      WalkStep(data, offset, Graph(nodes, edges), step);
      if step.Stop? {
        break;
      }
      if step.Fail? {
        return Err(step.error);
      }
      offset, nodes, edges := offset + step.length, nodes + step.nodes, edges + step.edges;
    }
    return Ok(Graph(nodes, edges));
  }

  // ---------------------------------------------------------------------
  // Properties of the walk

  /** The graph is only ever extended: the walk appends node and edge
      statements to what it was given and never drops or rewrites one, so a
      `break` returns everything emitted before it. */
  lemma {:induction false} WalkExtends(data: Bytes, offset: nat, g: Graph)
    requires Walk(data, offset, g).Ok?
    ensures var h := Walk(data, offset, g).value;
      g.nodes <= h.nodes && g.edges <= h.edges
    decreases |data| - offset
  {
    if offset < |data| {
      var r := DecodeNode(data, offset);
      WalkStep(data, offset, g, r);
      if r.Advance? {
        var g' := Graph(g.nodes + r.nodes, g.edges + r.edges);
        WalkExtends(data, offset + r.length, g');
      }
    }
  }

  /** The walk itself raises only for a bad node type or a private resource
      list that runs past the buffer. */
  lemma {:induction false} WalkErrors(data: Bytes, offset: nat, g: Graph)
    requires Walk(data, offset, g).Err?
    ensures Walk(data, offset, g).error in {InvalidNodeType, OutOfBounds}
    decreases |data| - offset
  {
    if offset < |data| {
      var r := DecodeNode(data, offset);
      WalkStep(data, offset, g, r);
      if r.Fail? {
        assert r.error in {InvalidNodeType, OutOfBounds};
      } else if r.Advance? {
        WalkErrors(data, offset + r.length, Graph(g.nodes + r.nodes, g.edges + r.edges));
      }
    }
  }

  /** Node ids strictly increase along `nodes` and lie in [lo, hi). */
  ghost predicate IdsAscendingWithin(nodes: seq<GraphNode>, lo: nat, hi: nat) {
    && (forall i, j :: 0 <= i < j < |nodes| ==> nodes[i].id < nodes[j].id)
    && (forall i :: 0 <= i < |nodes| ==> lo <= nodes[i].id < hi)
  }

  /** Appending at most one node with id `offset` keeps the ids ascending. */
  lemma AppendAscending(nodes: seq<GraphNode>, extra: seq<GraphNode>, lo: nat, offset: nat, next: nat)
    requires IdsAscendingWithin(nodes, lo, offset)
    requires |extra| <= 1 && (|extra| == 1 ==> extra[0].id == offset)
    requires lo <= offset < next
    ensures IdsAscendingWithin(nodes + extra, lo, next)
  {
  }

  /** The offsets the walk visits strictly increase and stay in the buffer,
      so every graph node comes from a distinct offset inside the table, in
      buffer order. */
  lemma {:induction false} WalkIdsAscending(data: Bytes, offset: nat, g: Graph, lo: nat)
    requires offset <= |data|
    requires Walk(data, offset, g).Ok?
    requires IdsAscendingWithin(g.nodes, lo, offset)
    requires lo <= offset
    ensures IdsAscendingWithin(Walk(data, offset, g).value.nodes, lo, |data|)
    decreases |data| - offset
  {
    if offset < |data| {
      var r := DecodeNode(data, offset);
      WalkStep(data, offset, g, r);
      if r.Advance? {
        var g' := Graph(g.nodes + r.nodes, g.edges + r.edges);
        AppendAscending(g.nodes, r.nodes, lo, offset, offset + r.length);
        WalkIdsAscending(data, offset + r.length, g', lo);
      }
    }
  }

  /** The header outcomes of `parse_pptt`: too short exactly below 36 bytes,
      invalid exactly when the signature is not "PPTT"; a graph otherwise
      unless a node raises, and then every node id lies inside the table
      body, ascending. */
  lemma ParseOutcomes(data: Bytes)
    ensures TopologyGraph(data) == Err(TooShort) <==> |data| < HeaderSize
    ensures TopologyGraph(data) == Err(BadSignature) <==>
      |data| >= HeaderSize && data[..4] != Signature
    ensures TopologyGraph(data).Ok? ==>
      IdsAscendingWithin(TopologyGraph(data).value.nodes, HeaderSize, |data|)
  {
    if CheckHeader(data, Signature) == None {
      var w := Walk(data, HeaderSize, Graph([], []));
      if w.Err? {
        WalkErrors(data, HeaderSize, Graph([], []));
      } else {
        WalkIdsAscending(data, HeaderSize, Graph([], []), HeaderSize);
      }
    }
  }

  /** A node type other than 0 or 1 reached by the walk aborts the parse. */
  lemma InvalidTypeAborts(data: Bytes, offset: nat, g: Graph)
    requires offset < |data| && data[offset] > 1
    ensures Walk(data, offset, g) == Err(InvalidNodeType)
  {
  }

  /** A processor hierarchy node of length 20 with flags 0x0A (processor ID
      valid, leaf), no parent, ACPI processor ID 3 and no private
      resources. */
  function SingleCpuNode(): Bytes {
    [0x00, 0x14, 0x00, 0x00, 0x0A, 0x00, 0x00, 0x00, 0x00, 0x00,
     0x00, 0x00, 0x03, 0x00, 0x00, 0x00, 0x00, 0x00, 0x00, 0x00]
  }

  lemma SingleCpuNodeFields()
    ensures var node := SingleCpuNode();
      && LE32(node, 4) == 0xA && LE32(node, 8) == 0
      && LE32(node, 12) == 3 && LE32(node, 16) == 0
  {
    var node := SingleCpuNode();
    LEZero(node, 5, 3);
    LEZero(node, 8, 4);
    LEZero(node, 13, 3);
    LEZero(node, 16, 4);
  }

  /** The same fields, read in the whole table at offset 36. */
  lemma SingleCpuTableFields(rest: Bytes)
    requires |rest| == 32
    ensures |ExampleTable(Signature, rest, SingleCpuNode())| == 56
    ensures var data := ExampleTable(Signature, rest, SingleCpuNode());
      && data[..4] == Signature && data[36] == 0 && data[37] == 20
      && LE32(data, 40) == 0xA && LE32(data, 44) == 0
      && LE32(data, 48) == 3 && LE32(data, 52) == 0
  {
    var node := SingleCpuNode();
    var data := ExampleTable(Signature, rest, node);
    SingleCpuNodeFields();
    ExampleTableRead(Signature, rest, node, 4, 40, 4);
    ExampleTableRead(Signature, rest, node, 8, 44, 4);
    ExampleTableRead(Signature, rest, node, 12, 48, 4);
    ExampleTableRead(Signature, rest, node, 16, 52, 4);
    assert data[36] == node[0] && data[37] == node[1];
  }

  /** Any 56-byte table holding, at offset 36, a processor node of length
      20 with flags 0x0A, no parent, processor ID 3 and no private resources
      gives one filled "cpu3" node and no edge; the other bytes do not
      matter. */
  lemma SingleCpuWalk(data: Bytes)
    requires |data| == 56 && data[..4] == Signature
    requires data[36] == 0 && data[37] == 20
    requires LE32(data, 40) == 0xA && LE32(data, 44) == 0
    requires LE32(data, 48) == 3 && LE32(data, 52) == 0
    ensures TopologyGraph(data) == Ok(Graph([GraphNode(36, Cpu(3), true)], []))
  {
    ProcessorOutcome(data, 36);
    ProcessorAdvance(data, 36);
    assert PrivateEdges(data, 36, 0) == [];
    assert ProcessorNode(36, 0xA, 3) == GraphNode(36, Cpu(3), true);
    var r := DecodeNode(data, 36);
    assert r == Advance(20, [GraphNode(36, Cpu(3), true)], []);
    WalkStep(data, 36, Graph([], []), r);
    var g := Graph([GraphNode(36, Cpu(3), true)], []);
    assert Graph([] + r.nodes, [] + r.edges) == g;
  }

  /** The header, whatever its other fields hold, and that one node. */
  lemma SingleCpuExample(rest: Bytes)
    requires |rest| == 32
    ensures TopologyGraph(ExampleTable(Signature, rest, SingleCpuNode()))
      == Ok(Graph([GraphNode(36, Cpu(3), true)], []))
  {
    SingleCpuTableFields(rest);
    SingleCpuWalk(ExampleTable(Signature, rest, SingleCpuNode()));
  }
}
