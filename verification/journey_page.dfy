/**
 * The rules of the journey map (`app/journey/page.tsx`): the XP and completion totals, the
 * connection lines between nodes, and each node's status, button and progress bar.
 */
module JourneyPage {
  import opened Maybe
  import Seqs

  /** A node of the map: the fields the rules read. `connections` lists target ids. */
  datatype Node = Node(id: string, subject: string, isUnlocked: bool, isCompleted: bool, progress: int,
                       xpReward: int, connections: seq<string>, difficulty: string)

  /** The page's map. */
  const JourneyNodes: seq<Node> := [
    Node("start", "Introduction", true, true, 100, 50, ["math1", "science1"], "Explorer"),
    Node("math1", "Mathematics", true, true, 100, 120, ["math2"], "Explorer"),
    Node("science1", "Science", true, true, 100, 150, ["science2"], "Explorer"),
    Node("math2", "Mathematics", true, false, 75, 180, ["math3"], "Adventurer"),
    Node("science2", "Science", true, false, 30, 200, ["science3"], "Adventurer"),
    Node("math3", "Mathematics", false, false, 0, 250, ["advanced1"], "Safari Master"),
    Node("science3", "Science", false, false, 0, 220, ["advanced1"], "Safari Master"),
    Node("advanced1", "Advanced STEM", false, false, 0, 500, [], "Safari Master")
  ]

  // ---------------------------------------------------------------------------------------
  // Totals
  // ---------------------------------------------------------------------------------------

  predicate IsCompleted(n: Node) {
    n.isCompleted
  }

  function XpReward(n: Node): int {
    n.xpReward
  }

  /**
   * `totalXP`, a `reduce` that adds a node's reward only when it is completed: the sum of the
   * completed nodes' rewards, which with non-negative rewards is at most the sum over all nodes.
   */
  function TotalXP(nodes: seq<Node>): (total: int)
    ensures total == Seqs.Sum(Seqs.Filter(nodes, IsCompleted), XpReward)
    ensures (forall i :: 0 <= i < |nodes| ==> nodes[i].xpReward >= 0) ==> 0 <= total <= Seqs.Sum(nodes, XpReward)
  {
    Seqs.SumFoldWhereIsFilteredSum(nodes, IsCompleted, XpReward, 0);
    CompletedXpBounded(nodes);
    Seqs.SumFoldWhere(nodes, IsCompleted, XpReward, 0)
  }

  /** With non-negative rewards, the completed rewards lie between zero and all the rewards. */
  lemma CompletedXpBounded(nodes: seq<Node>)
    ensures (forall i :: 0 <= i < |nodes| ==> nodes[i].xpReward >= 0) ==>
              0 <= Seqs.Sum(Seqs.Filter(nodes, IsCompleted), XpReward) <= Seqs.Sum(nodes, XpReward)
  {
    if forall i :: 0 <= i < |nodes| ==> nodes[i].xpReward >= 0 {
      Seqs.FilteredSumBounded(nodes, IsCompleted, XpReward);
    }
  }

  /**
   * `completedNodes`: the number of completed nodes, so at most `totalNodes`; equal to it exactly
   * when every node is completed, and zero exactly when none is.
   */
  function CompletedNodes(nodes: seq<Node>): (n: nat)
    ensures n == |set i: nat | i < |nodes| && nodes[i].isCompleted|
    ensures n <= |nodes|
    ensures n == |nodes| <==> forall i :: 0 <= i < |nodes| ==> nodes[i].isCompleted
    ensures n == 0 <==> forall i :: 0 <= i < |nodes| ==> !nodes[i].isCompleted
  {
    Seqs.FilterLength(nodes, IsCompleted);
    Seqs.FilterCountsIndices(nodes, IsCompleted);
    assert Seqs.IndicesWhere(nodes, IsCompleted) == set i: nat | i < |nodes| && nodes[i].isCompleted;
    |Seqs.Filter(nodes, IsCompleted)|
  }

  // ---------------------------------------------------------------------------------------
  // Connection lines
  // ---------------------------------------------------------------------------------------

  /** Where `journeyNodes.find` stops: the first node with that id. */
  function FindIndex(nodes: seq<Node>, id: string): Option<nat> {
    Seqs.FirstIndex(nodes, (n: Node) => n.id == id)
  }

  /** The node a connection id resolves to, if any. */
  function Resolve(nodes: seq<Node>, id: string): Option<Node> {
    var i := FindIndex(nodes, id);
    if i.Some? then Some(nodes[i.value]) else None
  }

  /** A drawn line: its two ends and whether it is drawn solid orange (`isPathUnlocked`). */
  datatype Line = Line(source: Node, target: Node, highlighted: bool)

  /** `isPathUnlocked`: the source is completed and the target unlocked. */
  predicate PathUnlocked(source: Node, target: Node) {
    source.isCompleted && target.isUnlocked
  }

  /** The lines drawn from `source` for the connection ids `targets`; ids that resolve to no node draw nothing. */
  function LinesFrom(nodes: seq<Node>, source: Node, targets: seq<string>): (r: seq<Line>)
    ensures |r| <= |targets|
    ensures forall l :: l in r ==> l.source == source && l.target.id in targets && Resolve(nodes, l.target.id) == Some(l.target)
    ensures forall l :: l in r ==> (l.highlighted <==> PathUnlocked(l.source, l.target))
    ensures forall t :: t in targets && Resolve(nodes, t).Some? ==>
              Line(source, Resolve(nodes, t).value, PathUnlocked(source, Resolve(nodes, t).value)) in r
  {
    if |targets| == 0 then []
    else
      var rest := LinesFrom(nodes, source, targets[1..]);
      var target := Resolve(nodes, targets[0]);
      if target.Some? then [Line(source, target.value, PathUnlocked(source, target.value))] + rest
      else rest
  }

  /** Every line of the map, source by source in list order. */
  function Lines(nodes: seq<Node>, sources: seq<Node>): (r: seq<Line>)
    ensures forall l :: l in r ==> l.source in sources && l.target.id in l.source.connections
    ensures forall l :: l in r ==> Resolve(nodes, l.target.id) == Some(l.target)
    ensures forall l :: l in r ==> (l.highlighted <==> PathUnlocked(l.source, l.target))
    ensures forall n, t :: n in sources && t in n.connections && Resolve(nodes, t).Some? ==>
              Line(n, Resolve(nodes, t).value, PathUnlocked(n, Resolve(nodes, t).value)) in r
  {
    if |sources| == 0 then []
    else LinesFrom(nodes, sources[0], sources[0].connections) + Lines(nodes, sources[1..])
  }

  /** On the shipped map every connection id names a node, so every connection draws a line. */
  lemma ShippedConnectionsResolve()
    ensures forall i, t :: 0 <= i < |JourneyNodes| && t in JourneyNodes[i].connections ==> FindIndex(JourneyNodes, t).Some?
  {
    assert JourneyNodes[5].id == "math3" && JourneyNodes[7].id == "advanced1";
  }

  /** A connection to an id that names no node draws no line at all. */
  lemma UnresolvedConnectionDrawsNothing(nodes: seq<Node>, id: string)
    requires forall n :: n in nodes ==> n.id != id
    ensures forall l :: l in Lines(nodes, nodes) ==> l.target.id != id
  {
  }

  // ---------------------------------------------------------------------------------------
  // Node status, button and progress bar
  // ---------------------------------------------------------------------------------------

  /** The node's colour and icon share one precedence: completed, then unlocked, then locked. */
  datatype Status = Done | Available | Locked

  /** `getNodeStatusColor` / `getNodeStatusIcon`. */
  function StatusOf(n: Node): (s: Status)
    ensures s == Done <==> n.isCompleted
    ensures s == Available <==> !n.isCompleted && n.isUnlocked
    ensures s == Locked <==> !n.isCompleted && !n.isUnlocked
  {
    if n.isCompleted then Done else if n.isUnlocked then Available else Locked
  }

  /** The caption of the details panel's button. */
  datatype NodeLabel = CompletedLabel | ContinueLabel | StartQuestLabel | LockedLabel

  /** The details panel's button: disabled, outlined, and its caption. */
  datatype NodeButton = NodeButton(disabled: bool, outlined: bool, caption: NodeLabel)

  /**
   * The button: disabled exactly when the node is not unlocked; caption by precedence Completed,
   * then for unlocked nodes Continue (progress > 0) or Start Quest, then Locked.
   */
  function NodeButtonFor(n: Node): (b: NodeButton)
    ensures b.disabled <==> !n.isUnlocked
    ensures b.outlined <==> n.isCompleted
    ensures b.caption == CompletedLabel <==> n.isCompleted
    ensures b.caption == ContinueLabel <==> !n.isCompleted && n.isUnlocked && n.progress > 0
    ensures b.caption == StartQuestLabel <==> !n.isCompleted && n.isUnlocked && n.progress <= 0
    ensures b.caption == LockedLabel <==> !n.isCompleted && !n.isUnlocked
  {
    var caption :=
      if n.isCompleted then CompletedLabel
      else if n.isUnlocked then (if n.progress > 0 then ContinueLabel else StartQuestLabel)
      else LockedLabel;
    NodeButton(!n.isUnlocked, n.isCompleted, caption)
  }

  /** The progress bar of the details panel is drawn for unlocked nodes that are not completed. */
  predicate ShowsProgressBar(n: Node) {
    n.isUnlocked && !n.isCompleted
  }

  /**
   * The status, the button caption and the progress bar tell one story: the bar is drawn exactly
   * for available nodes, and the caption names the status. A completed node that is not unlocked
   * shows "Completed" on a disabled button.
   */
  lemma StatusButtonAndBarAgree(n: Node)
    ensures ShowsProgressBar(n) <==> StatusOf(n) == Available
    ensures NodeButtonFor(n).caption == CompletedLabel <==> StatusOf(n) == Done
    ensures NodeButtonFor(n).caption == LockedLabel <==> StatusOf(n) == Locked
    ensures StatusOf(n) == Done && !n.isUnlocked ==> NodeButtonFor(n).disabled
  {
  }
}
