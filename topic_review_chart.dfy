/** The comprehensive topic review view (src/components/medico/comprehensive-topic-review.tsx):
    the form's topic rule and the Mermaid text drawn from the review's
    flowchart. */
module TopicReviewChart {
  import opened Common
  import opened Strings

  const MinTopicLength := 3
  const TopicTooShort := "Topic must be at least 3 characters."
  const Indent := "  "
  const Arrow := " --> "

  /** A node; `labelText` is the node's `data.label`. */
  datatype FlowNode = FlowNode(id: string, labelText: string)
  datatype FlowEdge = FlowEdge(source: string, target: string)
  datatype Flowchart = Flowchart(nodes: seq<FlowNode>, edges: seq<FlowEdge>)

  /** The form's rule for `topic`: the message when it is shorter than three. */
  function TopicError(topic: string): (e: Option<string>)
    ensures e.Some? <==> |topic| < MinTopicLength
    ensures e.Some? ==> e.value == TopicTooShort
  {
    if |topic| < MinTopicLength then Some(TopicTooShort) else None
  }

  /** A node's line: two spaces, the id, and the label verbatim between `["` and `"]`. */
  function NodeLine(n: FlowNode): (l: string)
    ensures |l| == |n.id| + |n.labelText| + 6
    ensures l[..2] == Indent && l[2..2 + |n.id|] == n.id && l[2 + |n.id|..4 + |n.id|] == "[\""
    ensures l[4 + |n.id|..4 + |n.id| + |n.labelText|] == n.labelText && l[|l| - 2..] == "\"]"
  {
    Indent + n.id + "[\"" + n.labelText + "\"]"
  }

  /** An edge's line: two spaces, the source, ` --> `, the target. */
  function EdgeLine(e: FlowEdge): (l: string)
    ensures |l| == |e.source| + |e.target| + 7
    ensures l[..2] == Indent && l[2..2 + |e.source|] == e.source
    ensures l[2 + |e.source|..7 + |e.source|] == Arrow && l[7 + |e.source|..] == e.target
  {
    Indent + e.source + Arrow + e.target
  }

  function NodeLines(ns: seq<FlowNode>): (ls: seq<string>)
    ensures |ls| == |ns|
    ensures forall i :: 0 <= i < |ns| ==> ls[i] == NodeLine(ns[i])
  {
    seq(|ns|, i requires 0 <= i < |ns| => NodeLine(ns[i]))
  }

  function EdgeLines(es: seq<FlowEdge>): (ls: seq<string>)
    ensures |ls| == |es|
    ensures forall i :: 0 <= i < |es| ==> ls[i] == EdgeLine(es[i])
  {
    seq(|es|, i requires 0 <= i < |es| => EdgeLine(es[i]))
  }

  /** The `chart` passed to the Mermaid renderer: one join on `\n` of the
      node block and the edge block, as ChartLines reads it back. */
  function MermaidChart(f: Flowchart): (c: string)
    ensures c == Join(Block(NodeLines(f.nodes)) + Block(EdgeLines(f.edges)), "\n")
  {
    JoinConcat(Block(NodeLines(f.nodes)), Block(EdgeLines(f.edges)), "\n");
    Join(NodeLines(f.nodes), "\n") + "\n" + Join(EdgeLines(f.edges), "\n")
  }

  /** No id, label, source or target spans lines. */
  predicate SingleLine(f: Flowchart) {
    && (forall n :: n in f.nodes ==> '\n' !in n.id && '\n' !in n.labelText)
    && (forall e :: e in f.edges ==> '\n' !in e.source && '\n' !in e.target)
  }

  /** A block of lines, an empty block standing for one empty line. */
  function Block(ls: seq<string>): (b: seq<string>)
    ensures b != [] && Join(b, "\n") == Join(ls, "\n")
  {
    if ls == [] then [""] else ls
  }

  /** Read line by line, the chart is the node lines in node order, then the
      edge lines in edge order; the single `\n` between the blocks means an
      empty list shows up as one empty line. With both lists non-empty that
      is exactly one line per node and one per edge. */
  lemma ChartLines(f: Flowchart)
    requires SingleLine(f)
    ensures Split(MermaidChart(f), '\n') == Block(NodeLines(f.nodes)) + Block(EdgeLines(f.edges))
    ensures f.nodes != [] && f.edges != [] ==>
      Split(MermaidChart(f), '\n') == NodeLines(f.nodes) + EdgeLines(f.edges)
  {
    var a, b := Block(NodeLines(f.nodes)), Block(EdgeLines(f.edges));
    NodeLinesSingle(f.nodes);
    EdgeLinesSingle(f.edges);
    assert forall k :: 0 <= k < |a + b| ==> '\n' !in (a + b)[k] by {
      forall k | 0 <= k < |a + b|
        ensures '\n' !in (a + b)[k]
      {
        if k < |a| {
          assert (a + b)[k] == a[k];
        } else {
          assert (a + b)[k] == b[k - |a|];
        }
      }
    }
    SplitJoin(a + b, '\n');
  }

  /** Node lines of single-line nodes hold no line break. */
  lemma NodeLinesSingle(ns: seq<FlowNode>)
    requires forall n :: n in ns ==> '\n' !in n.id && '\n' !in n.labelText
    ensures forall k :: 0 <= k < |Block(NodeLines(ns))| ==> '\n' !in Block(NodeLines(ns))[k]
  {
    forall k | 0 <= k < |NodeLines(ns)|
      ensures '\n' !in NodeLines(ns)[k]
    {
      assert ns[k] in ns;
    }
  }

  /** Edge lines of single-line edges hold no line break. */
  lemma EdgeLinesSingle(es: seq<FlowEdge>)
    requires forall e :: e in es ==> '\n' !in e.source && '\n' !in e.target
    ensures forall k :: 0 <= k < |Block(EdgeLines(es))| ==> '\n' !in Block(EdgeLines(es))[k]
  {
    forall k | 0 <= k < |EdgeLines(es)|
      ensures '\n' !in EdgeLines(es)[k]
    {
      assert es[k] in es;
    }
  }
}
