/**
 * The description handed to the `diagrams` renderer: node instances with a
 * kind and a label, directed coloured edges between instances, and an
 * optional enclosing cluster. Two nodes with the same label are still two
 * nodes, as each constructor call in the renderer's API makes a new one.
 */
module Graph {
  import opened Wrappers

  /** The renderer node classes the templates use. */
  datatype NodeKind = Server | User | Eks | Aks

  datatype Node = Node(kind: NodeKind, name: string)

  /** An edge between node instances, by position in `nodes`. */
  datatype Edge = Edge(from: nat, to: nat, colour: string)

  datatype Diagram = Diagram(cluster: Option<string>, nodes: seq<Node>, edges: seq<Edge>)

  /** An edge seen through the labels of its ends: `(from, to, colour)`. */
  datatype Arrow = Arrow(from: string, to: string, colour: string)

  const EmptyDiagram := Diagram(None, [], [])

  predicate WellFormed(d: Diagram) {
    forall i :: 0 <= i < |d.edges| ==> d.edges[i].from < |d.nodes| && d.edges[i].to < |d.nodes|
  }

  /** Every edge of `d` has colour `colour`. */
  predicate Monochrome(d: Diagram, colour: string) {
    forall i :: 0 <= i < |d.edges| ==> d.edges[i].colour == colour
  }

  predicate HasEdge(d: Diagram, a: nat, b: nat) {
    exists e :: e in d.edges && e.from == a && e.to == b
  }

  /** `p` is a walk along edges of `d`, node instance by node instance. */
  predicate IsPath(d: Diagram, p: seq<nat>) {
    forall i :: 0 <= i < |p| - 1 ==> HasEdge(d, p[i], p[i + 1])
  }

  /** No edge leaves the set `s` of node instances. */
  predicate Closed(d: Diagram, s: set<nat>) {
    forall e :: e in d.edges && e.from in s ==> e.to in s
  }

  /** The edges of `d` as labelled arrows, in the order they were drawn. */
  function Arrows(d: Diagram): (r: seq<Arrow>)
    requires WellFormed(d)
    ensures |r| == |d.edges|
    ensures forall i :: 0 <= i < |r| ==> r[i].colour == d.edges[i].colour
  {
    seq(|d.edges|, i requires 0 <= i < |d.edges| =>
      Arrow(d.nodes[d.edges[i].from].name, d.nodes[d.edges[i].to].name, d.edges[i].colour))
  }

  /** A walk that starts inside a closed set never leaves it. */
  lemma {:induction false} ClosedKeepsPaths(d: Diagram, s: set<nat>, p: seq<nat>)
    requires Closed(d, s) && IsPath(d, p)
    requires |p| > 0 && p[0] in s
    ensures forall i :: 0 <= i < |p| ==> p[i] in s
    decreases |p|
  {
    if |p| > 1 {
      var q := p[..|p| - 1];
      assert IsPath(d, q) by {
        forall i | 0 <= i < |q| - 1 ensures HasEdge(d, q[i], q[i + 1]) {
          assert HasEdge(d, p[i], p[i + 1]);
        }
      }
      ClosedKeepsPaths(d, s, q);
      assert HasEdge(d, p[|p| - 2], p[|p| - 1]);
      assert p[|p| - 2] == q[|q| - 1];
    }
  }
}
