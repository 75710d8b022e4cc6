/**
 * `generate_diagram`: the per-topic diagram templates, the output path
 * derived from the topic, and the render call.
 */
module Diagrams {
  import opened Wrappers
  import opened Graph
  import opened Catalog
  import opened Calls

  const Developer := Node(User, "Developer")

  /** One `Server` node per name. */
  function LeafNodes(names: seq<string>): (ns: seq<Node>)
    ensures |ns| == |names|
    ensures forall i :: 0 <= i < |names| ==> ns[i] == Node(Server, names[i])
  {
    seq(|names|, i requires 0 <= i < |names| => Node(Server, names[i]))
  }

  /** `n` edges of one colour from node `src` to nodes `first`, `first + 1`, … */
  function Fan(src: nat, first: nat, n: nat, colour: string): (es: seq<Edge>)
    ensures |es| == n
    ensures forall i :: 0 <= i < n ==> es[i] == Edge(src, first + i, colour)
  {
    seq(n, i requires 0 <= i < n => Edge(src, first + i, colour))
  }

  /**
   * `head >> Edge(colour) >> Server(hub)` followed by
   * `Server(hub) >> Edge(colour) >> [Server(leaf), …]`, as the templates
   * write it: the second `Server(hub)` is a second node, so the hub the head
   * points at is not the hub that points at the leaves.
   */
  function ChainAsWritten(head: Node, hub: string, leaves: seq<string>, colour: string): (d: Diagram)
    ensures WellFormed(d)
  {
    Diagram(None,
            [head, Node(Server, hub), Node(Server, hub)] + LeafNodes(leaves),
            [Edge(0, 1, colour)] + Fan(2, 3, |leaves|, colour))
  }

  /** The chain with one hub node: head, hub, then the leaves. */
  function Chain(head: Node, hub: string, leaves: seq<string>, colour: string): (d: Diagram)
    ensures WellFormed(d)
  {
    Diagram(None,
            [head, Node(Server, hub)] + LeafNodes(leaves),
            [Edge(0, 1, colour)] + Fan(1, 2, |leaves|, colour))
  }

  /** A chain as the code draws it, or with its hub drawn once. */
  function Link(hubOnce: bool, head: Node, hub: string, leaves: seq<string>, colour: string): (d: Diagram)
    ensures WellFormed(d)
  {
    if hubOnce then Chain(head, hub, leaves, colour) else ChainAsWritten(head, hub, leaves, colour)
  }

  /** The colour each topic's template draws its edges in. */
  function EdgeColour(topic: string): string {
    match topic
    case "Kubernetes" => "blue"
    case "Docker" => "green"
    case "EKS" => "orange"
    case "AKS" => "purple"
    case "Terraform" => "red"
    case "Helm" => "yellow"
    case "Azure" => "blue"
    case "DevOps" => "black"
    case _ => ""
  }

  /**
   * The if/elif chain of `generate_diagram`, with its four chains drawn as
   * written or with their hub drawn once.
   */
  function Templates(topic: string, hubOnce: bool): (d: Diagram)
    ensures WellFormed(d)
  {
    if topic == "Kubernetes" then
      Diagram(Some("Kubernetes Cluster"),
              [Node(Server, "Master Node"), Node(Server, "Worker Node 1"), Node(Server, "Worker Node 2")],
              Fan(0, 1, 2, "blue"))
    else if topic == "Docker" then
      Diagram(Some("Docker Containers"), [Node(Server, "Container 1"), Node(Server, "Container 2")], Fan(0, 1, 1, "green"))
    else if topic == "EKS" then
      Diagram(None, [Node(Eks, "Amazon EKS"), Node(Server, "Worker Nodes")], Fan(0, 1, 1, "orange"))
    else if topic == "AKS" then
      Diagram(None, [Node(Aks, "Azure AKS"), Node(Server, "Worker Nodes")], Fan(0, 1, 1, "purple"))
    else if topic == "Terraform" then
      Link(hubOnce, Developer, "Terraform", ["AWS", "Azure", "GCP"], "red")
    else if topic == "Helm" then
      Link(hubOnce, Developer, "Helm", ["Kubernetes"], "yellow")
    else if topic == "Azure" then
      Link(hubOnce, Developer, "Azure Services", ["AKS", "Functions", "Storage"], "blue")
    else if topic == "DevOps" then
      Link(hubOnce, Developer, "CI/CD Pipeline", ["Kubernetes", "Docker", "Terraform"], "black")
    else
      EmptyDiagram
  }

  /** The templates as the code draws them. */
  function TemplateAsWritten(topic: string): (d: Diagram)
    ensures WellFormed(d)
  {
    Templates(topic, false)
  }

  /** The templates with each chain's hub drawn once, so that the head reaches every leaf through it. */
  function Template(topic: string): (d: Diagram)
    ensures WellFormed(d)
  {
    Templates(topic, true)
  }

  /** A chain is drawn in one colour, whichever way its hub is drawn. */
  lemma LinkColour(hubOnce: bool, head: Node, hub: string, leaves: seq<string>, colour: string)
    ensures Monochrome(Link(hubOnce, head, hub, leaves, colour), colour)
  {
  }

  /** All edges of a topic's template have that topic's colour. */
  lemma TemplateColours(topic: string, hubOnce: bool)
    ensures Monochrome(Templates(topic, hubOnce), EdgeColour(topic))
  {
    match topic
    case "Terraform" => LinkColour(hubOnce, Developer, "Terraform", ["AWS", "Azure", "GCP"], "red");
    case "Helm" => LinkColour(hubOnce, Developer, "Helm", ["Kubernetes"], "yellow");
    case "Azure" => LinkColour(hubOnce, Developer, "Azure Services", ["AKS", "Functions", "Storage"], "blue");
    case "DevOps" => LinkColour(hubOnce, Developer, "CI/CD Pipeline", ["Kubernetes", "Docker", "Terraform"], "black");
    case _ =>
  }

  /** Each topic of the rotation selects a template with edges; any other topic draws nothing. */
  lemma TemplateDraws(topic: string, hubOnce: bool)
    ensures Templates(topic, hubOnce).edges != [] <==> topic in Topics
    ensures topic !in Topics ==> Templates(topic, hubOnce) == EmptyDiagram
  {
  }

  /** Drawing the hub once or twice gives the same labelled edges. */
  lemma ChainArrowsAgree(head: Node, hub: string, leaves: seq<string>, colour: string)
    ensures Arrows(ChainAsWritten(head, hub, leaves, colour)) == Arrows(Chain(head, hub, leaves, colour))
  {
  }

  /** The corrected templates differ from the code only in node identity. */
  lemma TemplatesAgree(topic: string)
    ensures Template(topic).cluster == TemplateAsWritten(topic).cluster
    ensures Arrows(Template(topic)) == Arrows(TemplateAsWritten(topic))
  {
    match topic
    case "Terraform" => ChainArrowsAgree(Developer, "Terraform", ["AWS", "Azure", "GCP"], "red");
    case "Helm" => ChainArrowsAgree(Developer, "Helm", ["Kubernetes"], "yellow");
    case "Azure" => ChainArrowsAgree(Developer, "Azure Services", ["AKS", "Functions", "Storage"], "blue");
    case "DevOps" => ChainArrowsAgree(Developer, "CI/CD Pipeline", ["Kubernetes", "Docker", "Terraform"], "black");
    case _ =>
  }

  /** Kubernetes: a cluster in which the master points at both workers, in blue. */
  lemma KubernetesTemplate()
    ensures TemplateAsWritten("Kubernetes").cluster == Some("Kubernetes Cluster")
    ensures Arrows(TemplateAsWritten("Kubernetes"))
         == [Arrow("Master Node", "Worker Node 1", "blue"), Arrow("Master Node", "Worker Node 2", "blue")]
  {
  }

  /** Docker: a cluster of two containers, the first pointing at the second in green. */
  lemma DockerTemplate()
    ensures TemplateAsWritten("Docker").cluster == Some("Docker Containers")
    ensures Arrows(TemplateAsWritten("Docker")) == [Arrow("Container 1", "Container 2", "green")]
  {
  }

  /** Terraform: Developer → Terraform → AWS, Azure and GCP, all in red. */
  lemma TerraformTemplate()
    ensures Arrows(TemplateAsWritten("Terraform"))
         == [Arrow("Developer", "Terraform", "red"), Arrow("Terraform", "AWS", "red"),
             Arrow("Terraform", "Azure", "red"), Arrow("Terraform", "GCP", "red")]
  {
  }

  /** EKS: Amazon EKS points at the worker nodes in orange. */
  lemma EksTemplate()
    ensures TemplateAsWritten("EKS").nodes == [Node(Eks, "Amazon EKS"), Node(Server, "Worker Nodes")]
    ensures Arrows(TemplateAsWritten("EKS")) == [Arrow("Amazon EKS", "Worker Nodes", "orange")]
  {
  }

  /** AKS: Azure AKS points at the worker nodes in purple. */
  lemma AksTemplate()
    ensures TemplateAsWritten("AKS").nodes == [Node(Aks, "Azure AKS"), Node(Server, "Worker Nodes")]
    ensures Arrows(TemplateAsWritten("AKS")) == [Arrow("Azure AKS", "Worker Nodes", "purple")]
  {
  }

  /** Helm: Developer → Helm → Kubernetes, in yellow. */
  lemma HelmTemplate()
    ensures Arrows(TemplateAsWritten("Helm"))
         == [Arrow("Developer", "Helm", "yellow"), Arrow("Helm", "Kubernetes", "yellow")]
  {
  }

  /** Azure: Developer → Azure Services → AKS, Functions and Storage, all in blue. */
  lemma AzureTemplate()
    ensures Arrows(TemplateAsWritten("Azure"))
         == [Arrow("Developer", "Azure Services", "blue"), Arrow("Azure Services", "AKS", "blue"),
             Arrow("Azure Services", "Functions", "blue"), Arrow("Azure Services", "Storage", "blue")]
  {
  }

  /** DevOps: Developer → CI/CD Pipeline → Kubernetes, Docker and Terraform, all in black. */
  lemma DevOpsTemplate()
    ensures Arrows(TemplateAsWritten("DevOps"))
         == [Arrow("Developer", "CI/CD Pipeline", "black"), Arrow("CI/CD Pipeline", "Kubernetes", "black"),
             Arrow("CI/CD Pipeline", "Docker", "black"), Arrow("CI/CD Pipeline", "Terraform", "black")]
  {
  }

  /**
   * As written, a chain is two pieces: every walk from the head stays on the
   * head and the hub it points at, and never reaches a leaf.
   */
  lemma ChainAsWrittenDisconnected(head: Node, hub: string, leaves: seq<string>, colour: string)
    ensures forall p :: IsPath(ChainAsWritten(head, hub, leaves, colour), p) && |p| > 0 && p[0] == 0 ==>
              forall i :: 0 <= i < |p| ==> p[i] <= 1
    ensures forall i :: 0 <= i < |leaves| ==>
              ChainAsWritten(head, hub, leaves, colour).nodes[3 + i] == Node(Server, leaves[i])
  {
    var d := ChainAsWritten(head, hub, leaves, colour);
    assert Closed(d, {0, 1});
    forall p | IsPath(d, p) && |p| > 0 && p[0] == 0 ensures forall i :: 0 <= i < |p| ==> p[i] <= 1 {
      ClosedKeepsPaths(d, {0, 1}, p);
    }
  }

  /** With one hub, the head reaches every leaf in two steps. */
  lemma ChainConnected(head: Node, hub: string, leaves: seq<string>, colour: string, i: nat)
    requires i < |leaves|
    ensures IsPath(Chain(head, hub, leaves, colour), [0, 1, 2 + i])
    ensures Chain(head, hub, leaves, colour).nodes[2 + i] == Node(Server, leaves[i])
  {
    var d := Chain(head, hub, leaves, colour);
    assert d.edges[0] == Edge(0, 1, colour) && d.edges[1 + i] == Edge(1, 2 + i, colour);
    assert HasEdge(d, 0, 1) && HasEdge(d, 1, 2 + i);
  }

  /** The directory each script writes its diagrams to. */
  function DiagramDir(script: Script): string {
    match script
    case OpenAiScript => "diagrams/"
    case HuggingFaceScript => "D:/The Devops Junction/" + "Linkedinautomation/" + "diagrams/"
  }

  const PathSuffix := "_diagram.png"

  /** `diagram_path`: the directory, the topic and `_diagram.png`. */
  function DiagramPath(script: Script, topic: string): (p: string)
    ensures |p| == |DiagramDir(script)| + |topic| + |PathSuffix|
    ensures p[..|DiagramDir(script)|] == DiagramDir(script)
    ensures p[|DiagramDir(script)|..|p| - |PathSuffix|] == topic
    ensures p[|p| - |PathSuffix|..] == PathSuffix
  {
    DiagramDir(script) + topic + PathSuffix
  }

  /** The topic a diagram path names, when it has the shape of one. */
  function TopicOfPath(script: Script, path: string): Option<string> {
    var dir := DiagramDir(script);
    if |dir| + |PathSuffix| <= |path| && path[..|dir|] == dir && path[|path| - |PathSuffix|..] == PathSuffix
    then Some(path[|dir|..|path| - |PathSuffix|])
    else None
  }

  /** A diagram path gives back the topic it was made from. */
  lemma PathRoundTrip(script: Script, topic: string)
    ensures TopicOfPath(script, DiagramPath(script, topic)) == Some(topic)
  {
  }

  /** Different topics never share a diagram path. */
  lemma DiagramPathInjective(script: Script, t1: string, t2: string)
    requires DiagramPath(script, t1) == DiagramPath(script, t2)
    ensures t1 == t2
  {
    PathRoundTrip(script, t1);
    PathRoundTrip(script, t2);
  }

  /**
   * The file the renderer leaves behind for `Diagram(filename=f,
   * outformat="png")`: it writes the image to `f` with the format's extension
   * appended, and removes its intermediate file at `f` itself.
   */
  function RenderedImage(filename: string): string {
    filename + ".png"
  }

  /**
   * `generate_diagram` as written: it passes `diagram_path` as the renderer's
   * file name and returns that same path, or `None` when rendering fails.
   */
  function GenerateDiagramAsWritten(script: Script, topic: string, rendered: bool): (r: Stage<string>)
    ensures r.result.Some? <==> rendered
    ensures |r.calls| == 1 && r.calls[0].RenderDiagram?
    ensures r.calls[0].title == topic && r.calls[0].diagram == TemplateAsWritten(topic)
    ensures r.calls[0].filename == DiagramPath(script, topic)
    ensures r.result.Some? ==> r.result.value == r.calls[0].filename
  {
    var path := DiagramPath(script, topic);
    Stage(if rendered then Some(path) else None, [RenderDiagram(topic, path, TemplateAsWritten(topic))])
  }

  /** As written, the path returned is never the image the renderer wrote. */
  lemma AsWrittenPathIsNotTheImage(script: Script, topic: string)
    ensures GenerateDiagramAsWritten(script, topic, true).result == Some(DiagramPath(script, topic))
    ensures GenerateDiagramAsWritten(script, topic, true).calls[0].filename == DiagramPath(script, topic)
    ensures RenderedImage(DiagramPath(script, topic)) != DiagramPath(script, topic)
  {
  }

  /**
   * `generate_diagram` with the file name given without its extension and
   * each hub drawn once. It renders the topic's template under the topic's
   * title and, when rendering succeeds, returns the image the renderer wrote.
   */
  function GenerateDiagram(script: Script, topic: string, rendered: bool): (r: Stage<string>)
    ensures r.result.Some? <==> rendered
    ensures |r.calls| == 1 && r.calls[0].RenderDiagram?
    ensures r.calls[0].title == topic && r.calls[0].diagram == Template(topic)
    ensures r.result.Some? ==> r.result.value == RenderedImage(r.calls[0].filename)
  {
    var stem := DiagramDir(script) + topic + "_diagram";
    Stage(if rendered then Some(RenderedImage(stem)) else None, [RenderDiagram(topic, stem, Template(topic))])
  }

  /**
   * The corrected stage returns the same `diagram_path` as the code, which
   * names the topic it was drawn for.
   */
  lemma GenerateDiagramPath(script: Script, topic: string)
    ensures GenerateDiagram(script, topic, true).result == GenerateDiagramAsWritten(script, topic, true).result
    ensures TopicOfPath(script, GenerateDiagram(script, topic, true).result.value) == Some(topic)
  {
    GenerateDiagramMatchesCode(script, topic, true);
    PathRoundTrip(script, topic);
  }

  /**
   * The corrected stage makes the code's render call but for two things: the
   * file name it passes lacks the `.png` the code's file name ends in, and
   * each hub is drawn once. The title, the cluster and the labelled arrows
   * are the code's, and both stages succeed together.
   */
  lemma GenerateDiagramMatchesCode(script: Script, topic: string, rendered: bool)
    ensures var fixed, code := GenerateDiagram(script, topic, rendered), GenerateDiagramAsWritten(script, topic, rendered);
      && fixed.result.Some? == code.result.Some?
      && fixed.calls[0].title == code.calls[0].title
      && RenderedImage(fixed.calls[0].filename) == code.calls[0].filename
      && fixed.calls[0].diagram.cluster == code.calls[0].diagram.cluster
      && Arrows(fixed.calls[0].diagram) == Arrows(code.calls[0].diagram)
  {
    TemplatesAgree(topic);
    assert RenderedImage(DiagramDir(script) + topic + "_diagram") == DiagramPath(script, topic);
  }
}
