/** sdk/invocation_graph.go: operation records are projected into nodes, references get synthetic
    nodes, and the nodes are ordered so that parents and dependencies come first. */
module InvocationGraph {
  import opened Outcome
  import opened Text
  import opened TopoSort

  datatype OperationRecord = OperationRecord(
    operationId: string, submittedAt: int, rootId: string, id: string, parentId: string,
    dependencies: seq<string>, ordinal: int)

  datatype Node = Node(
    id: string, ordinal: int, record: Option<OperationRecord>, parentId: string, dependencies: seq<string>,
    children: seq<string>, dependents: seq<string>)

  datatype Error = InvalidRoot | DuplicateNode | CycleFound

  function Synthetic(id: string): Node { Node(id, 0, None, "", [], [], []) }

  function Recorded(record: OperationRecord): Node {
    Node(record.id, record.ordinal, Some(record), record.parentId, record.dependencies, [], [])
  }

  // ---- comparison --------------------------------------------------------

  function CompareText(a: string, b: string): int { if a == b then 0 else if Less(a, b) then -1 else 1 }

  function CompareInt(a: int, b: int): int { if a < b then -1 else if a > b then 1 else 0 }

  function CompareRoot(root: string, a: Node, b: Node): int {
    if a.id == root && b.id != root then -1 else if b.id == root && a.id != root then 1 else 0
  }

  function CompareRecordTime(a: Node, b: Node): int {
    if a.record.None? || b.record.None? then
      if a.record.Some? && b.record.None? then -1 else if b.record.Some? && a.record.None? then 1 else 0
    else if a.record.value.submittedAt != b.record.value.submittedAt
    then CompareInt(a.record.value.submittedAt, b.record.value.submittedAt)
    else CompareText(a.record.value.operationId, b.record.value.operationId)
  }

  /** `compareInvocationGraphNodes`: root first, then ordinal, then record time, then ID. */
  function CompareNodes(root: string, a: Node, b: Node): int {
    if CompareRoot(root, a, b) != 0 then CompareRoot(root, a, b)
    else if a.ordinal != b.ordinal then CompareInt(a.ordinal, b.ordinal)
    else if CompareRecordTime(a, b) != 0 then CompareRecordTime(a, b)
    else CompareText(a.id, b.id)
  }

  lemma CompareTextLaws(a: string, b: string, c: string)
    ensures CompareText(a, b) == -CompareText(b, a)
    ensures CompareText(a, b) < 0 && CompareText(b, c) < 0 ==> CompareText(a, c) < 0
  {
    LessTotal(a, b);
    if Less(a, b) && Less(b, a) { LessTransitive(a, b, a); LessIrreflexive(a); }
    if Less(a, b) && Less(b, c) {
      LessTransitive(a, b, c);
      if a == c { LessIrreflexive(a); }
    }
  }

  lemma CompareTimeLaws(a: Node, b: Node, c: Node)
    ensures CompareRecordTime(a, b) == -CompareRecordTime(b, a)
    ensures CompareRecordTime(a, b) <= 0 && CompareRecordTime(b, c) <= 0 ==> CompareRecordTime(a, c) <= 0
    ensures CompareRecordTime(a, b) <= 0 && CompareRecordTime(b, c) <= 0 && CompareRecordTime(a, c) == 0
            ==> CompareRecordTime(a, b) == 0 && CompareRecordTime(b, c) == 0
  {
    if a.record.Some? && b.record.Some? { CompareTextLaws(a.record.value.operationId, b.record.value.operationId, ""); }
    if a.record.Some? && b.record.Some? && c.record.Some? {
      var x, y, z := a.record.value.operationId, b.record.value.operationId, c.record.value.operationId;
      CompareTextLaws(x, y, z);
      CompareTextLaws(y, z, x);
      CompareTextLaws(x, z, y);
    }
  }

  /** The comparison is a strict total order on nodes with different IDs. */
  lemma CompareNodesLaws(root: string, a: Node, b: Node, c: Node)
    ensures CompareNodes(root, a, a) == 0
    ensures a.id != b.id ==> CompareNodes(root, a, b) < 0 || CompareNodes(root, b, a) < 0
    ensures CompareNodes(root, a, b) < 0 && CompareNodes(root, b, c) < 0 ==> CompareNodes(root, a, c) < 0
  {
    CompareTimeLaws(a, a, a);
    CompareTimeLaws(a, b, c);
    CompareTextLaws(a.id, b.id, c.id);
  }

  function NodeOrder(root: string, nodes: map<string, Node>): Order {
    (x, y) => x in nodes && y in nodes && CompareNodes(root, nodes[x], nodes[y]) < 0
  }

  ghost predicate Named(nodes: map<string, Node>) { forall id :: id in nodes ==> nodes[id].id == id }

  lemma NodeOrderIsTotal(root: string, nodes: map<string, Node>)
    requires Named(nodes)
    ensures TotalOn(NodeOrder(root, nodes), nodes.Keys)
  {
    hide CompareNodes;
    var less := NodeOrder(root, nodes);
    forall a | a in nodes ensures !less(a, a) { CompareNodesLaws(root, nodes[a], nodes[a], nodes[a]); }
    forall a, b | a in nodes && b in nodes && a != b ensures less(a, b) || less(b, a) {
      CompareNodesLaws(root, nodes[a], nodes[b], nodes[a]);
    }
    forall a, b, c | a in nodes && b in nodes && c in nodes && less(a, b) && less(b, c) ensures less(a, c) {
      CompareNodesLaws(root, nodes[a], nodes[b], nodes[c]);
    }
  }

  // ---- edges -------------------------------------------------------------

  /** What a node waits for. */
  function Sources(node: Node): seq<string> { [node.parentId] + node.dependencies }

  predicate Counted(nodes: map<string, Node>, from: string, to: string) {
    from != "" && to != "" && from != to && from in nodes && to in nodes
  }

  type Pick = Node -> seq<string>

  /** The edges from what `pick` names in each node, without self-edges and empty IDs. */
  ghost function EdgesBy(nodes: map<string, Node>, pick: Pick): set<Edge> {
    set to, from | to in nodes && from in pick(nodes[to]) && Counted(nodes, from, to) :: (from, to)
  }

  /** The parent and dependency edges. */
  ghost function OrderEdges(nodes: map<string, Node>): set<Edge> { EdgesBy(nodes, Sources) }

  /** The edges contributed by some of the nodes, and by some sources of one node. */
  ghost function EdgesFrom(nodes: map<string, Node>, pick: Pick, visited: set<string>): set<Edge> {
    set e | e in EdgesBy(nodes, pick) && e.1 in visited
  }

  ghost function EdgesInto(nodes: map<string, Node>, to: string, sources: seq<string>): set<Edge> {
    set from | from in sources && Counted(nodes, from, to) :: (from, to)
  }

  lemma EdgesByWithin(nodes: map<string, Node>, pick: Pick)
    ensures EdgesWithin(EdgesBy(nodes, pick), nodes.Keys)
  {}

  ghost predicate Tallied(ids: set<string>, edges: set<Edge>, inbound: map<string, int>, outbound: map<string, seq<string>>) {
    Counts(ids, edges, {}, inbound) && Lists(edges, outbound)
  }

  /** `addOrderEdge`. */
  method AddOrderEdge(nodes: map<string, Node>, ghost edges: set<Edge>, inbound: map<string, int>,
                      outbound: map<string, seq<string>>, from: string, to: string)
    returns (inbound': map<string, int>, outbound': map<string, seq<string>>)
    requires Tallied(nodes.Keys, edges, inbound, outbound)
    ensures Tallied(nodes.Keys, edges + EdgesInto(nodes, to, [from]), inbound', outbound')
  {
    inbound', outbound' := inbound, outbound;
    var listed := TargetsOf(outbound, from);
    if !Counted(nodes, from, to) || to in listed {
      NothingAdded(nodes, edges, outbound, from, to);
      return;
    }
    outbound' := outbound[from := listed + [to]];
    inbound' := inbound[to := inbound[to] + 1];
    EdgeAdded(nodes, edges, inbound, outbound, from, to);
  }

  lemma NothingAdded(nodes: map<string, Node>, edges: set<Edge>, outbound: map<string, seq<string>>, from: string, to: string)
    requires Lists(edges, outbound) && (!Counted(nodes, from, to) || to in TargetsOf(outbound, from))
    ensures edges + EdgesInto(nodes, to, [from]) == edges
  {
    if to in TargetsOf(outbound, from) {
      assert Elements(TargetsOf(outbound, from)) == Succs(edges, from);
      assert to in Succs(edges, from);
      assert (from, to) in edges;
    }
  }

  lemma EdgeAdded(nodes: map<string, Node>, edges: set<Edge>, inbound: map<string, int>, outbound: map<string, seq<string>>,
                  from: string, to: string)
    requires Tallied(nodes.Keys, edges, inbound, outbound) && Counted(nodes, from, to) && to !in TargetsOf(outbound, from)
    ensures Tallied(nodes.Keys, edges + EdgesInto(nodes, to, [from]), inbound[to := inbound[to] + 1],
                    outbound[from := TargetsOf(outbound, from) + [to]])
  {
    hide Counts, Lists;
    assert EdgesInto(nodes, to, [from]) == {(from, to)};
    NotListed(edges, outbound, from, to);
    PredsAdded(nodes.Keys, edges, from, to, inbound);
    ListsAdded(edges, outbound, from, to);
  }

  lemma NotListed(edges: set<Edge>, outbound: map<string, seq<string>>, from: string, to: string)
    requires Lists(edges, outbound) && to !in TargetsOf(outbound, from)
    ensures (from, to) !in edges
  {
    assert Elements(TargetsOf(outbound, from)) == Succs(edges, from);
    assert forall e :: e in edges && e.0 == from ==> e.1 in Succs(edges, from);
  }

  lemma PredsOfMore(edges: set<Edge>, from: string, to: string, t: string)
    requires (from, to) !in edges
    ensures |Preds(edges + {(from, to)}, t) - {}| == |Preds(edges, t) - {}| + if t == to then 1 else 0
  {
    PredsWith(edges, from, to, t);
    hide Preds;
    var before, after := Preds(edges, t), Preds(edges + {(from, to)}, t);
    assert before - {} == before && after - {} == after;
  }

  lemma PredsWith(edges: set<Edge>, from: string, to: string, t: string)
    requires (from, to) !in edges
    ensures Preds(edges + {(from, to)}, t) == if t == to then Preds(edges, t) + {from} else Preds(edges, t)
    ensures t == to ==> from !in Preds(edges, t)
  {}

  lemma PredsAdded(ids: set<string>, edges: set<Edge>, from: string, to: string, inbound: map<string, int>)
    requires Counts(ids, edges, {}, inbound) && (from, to) !in edges && to in ids
    ensures Counts(ids, edges + {(from, to)}, {}, inbound[to := inbound[to] + 1])
  {
    hide Preds;
    var more, inbound' := edges + {(from, to)}, inbound[to := inbound[to] + 1];
    assert inbound'.Keys == ids;
    forall t | t in ids ensures inbound'[t] == |Preds(more, t) - {}| {
      PredsOfMore(edges, from, to, t);
      assert inbound[t] == |Preds(edges, t) - {}|;
    }
  }

  lemma ListsAdded(edges: set<Edge>, outbound: map<string, seq<string>>, from: string, to: string)
    requires Lists(edges, outbound) && to !in TargetsOf(outbound, from)
    ensures Lists(edges + {(from, to)}, outbound[from := TargetsOf(outbound, from) + [to]])
  {
    var outbound' := outbound[from := TargetsOf(outbound, from) + [to]];
    forall f ensures Distinct(TargetsOf(outbound', f)) && Elements(TargetsOf(outbound', f)) == Succs(edges + {(from, to)}, f) {
      assert Distinct(TargetsOf(outbound, f)) && Elements(TargetsOf(outbound, f)) == Succs(edges, f);
      if f == from {
        assert Elements(TargetsOf(outbound, f) + [to]) == Elements(TargetsOf(outbound, f)) + {to};
        assert (from, to).1 in Succs(edges + {(from, to)}, f);
        assert Succs(edges + {(from, to)}, f) == Succs(edges, f) + {to};
      } else {
        assert Succs(edges + {(from, to)}, f) == Succs(edges, f);
      }
    }
  }

  lemma EdgesIntoNext(nodes: map<string, Node>, to: string, sources: seq<string>, i: nat)
    requires i < |sources|
    ensures EdgesInto(nodes, to, sources[..i]) + EdgesInto(nodes, to, [sources[i]]) == EdgesInto(nodes, to, sources[..i + 1])
  {}

  lemma EdgesIntoNone(nodes: map<string, Node>, to: string)
    ensures EdgesInto(nodes, to, []) == {}
  {}

  /** The body of the edge loop: one node's parent and dependencies. */
  method TallyNode(nodes: map<string, Node>, pick: Pick, ghost edges: set<Edge>, id: string,
                   inbound0: map<string, int>, outbound0: map<string, seq<string>>)
    returns (inbound: map<string, int>, outbound: map<string, seq<string>>)
    requires id in nodes && Tallied(nodes.Keys, edges, inbound0, outbound0)
    ensures Tallied(nodes.Keys, edges + EdgesInto(nodes, id, pick(nodes[id])), inbound, outbound)
  {
    hide Tallied, EdgesInto;
    inbound, outbound := inbound0, outbound0;
    var sources := pick(nodes[id]);
    EdgesIntoNone(nodes, id);
    assert edges + {} == edges;
    for i := 0 to |sources|
      invariant Tallied(nodes.Keys, edges + EdgesInto(nodes, id, sources[..i]), inbound, outbound)
    {
      ghost var sofar := edges + EdgesInto(nodes, id, sources[..i]);
      inbound, outbound := AddOrderEdge(nodes, sofar, inbound, outbound, sources[i], id);
      EdgesIntoNext(nodes, id, sources, i);
      assert sofar + EdgesInto(nodes, id, [sources[i]]) == edges + EdgesInto(nodes, id, sources[..i + 1]);
    }
    assert sources[..|sources|] == sources;
  }

  /** The first two loops of `sortInvocationGraphNodes`: zero the counts, then add every edge, in
      whatever order the map yields its nodes. */
  method TallyEdges(nodes: map<string, Node>, pick: Pick) returns (inbound: map<string, int>, outbound: map<string, seq<string>>)
    ensures Tallied(nodes.Keys, EdgesBy(nodes, pick), inbound, outbound)
  {
    hide Tallied, EdgesFrom, EdgesInto;
    inbound, outbound := map id | id in nodes :: 0, map[];
    NoEdges(nodes, pick, inbound);
    var todo := nodes.Keys;
    while todo != {}
      invariant todo <= nodes.Keys && Tallied(nodes.Keys, EdgesFrom(nodes, pick, nodes.Keys - todo), inbound, outbound)
      decreases |todo|
    {
      var id :| id in todo;
      inbound, outbound := TallyNode(nodes, pick, EdgesFrom(nodes, pick, nodes.Keys - todo), id, inbound, outbound);
      VisitedNode(nodes, pick, nodes.Keys - todo, id);
      assert nodes.Keys - (todo - {id}) == nodes.Keys - todo + {id};
      todo := todo - {id};
    }
    AllVisited(nodes, pick);
  }

  lemma AllVisited(nodes: map<string, Node>, pick: Pick)
    ensures EdgesFrom(nodes, pick, nodes.Keys - {}) == EdgesBy(nodes, pick)
  {}

  lemma VisitedNode(nodes: map<string, Node>, pick: Pick, visited: set<string>, id: string)
    requires id in nodes
    ensures EdgesFrom(nodes, pick, visited) + EdgesInto(nodes, id, pick(nodes[id])) == EdgesFrom(nodes, pick, visited + {id})
  {}

  lemma NoEdges(nodes: map<string, Node>, pick: Pick, inbound: map<string, int>)
    requires inbound.Keys == nodes.Keys && forall id :: id in nodes ==> inbound[id] == 0
    ensures Tallied(nodes.Keys, EdgesFrom(nodes, pick, nodes.Keys - nodes.Keys), inbound, map[])
  {}

  // ---- what the order means ----------------------------------------------

  /** `from` is the parent or a dependency of `to`, another node of the graph. */
  ghost predicate Waits(nodes: map<string, Node>, from: string, to: string) {
    && from in nodes && to in nodes && from != to && from != "" && to != ""
    && (from == nodes[to].parentId || from in nodes[to].dependencies)
  }

  lemma EdgesAreWaits(nodes: map<string, Node>)
    ensures forall from, to :: (from, to) in OrderEdges(nodes) <==> Waits(nodes, from, to)
  {
    forall from, to ensures (from, to) in OrderEdges(nodes) <==> Waits(nodes, from, to) {
      if to in nodes {
        var sources := Sources(nodes[to]);
        assert sources[0] == nodes[to].parentId && sources[1..] == nodes[to].dependencies;
        assert from in sources <==> from == nodes[to].parentId || from in nodes[to].dependencies;
      }
    }
  }

  /** Between records: the earlier submission, then the smaller operation ID. */
  ghost predicate SubmittedBefore(a: OperationRecord, b: OperationRecord) {
    a.submittedAt < b.submittedAt || (a.submittedAt == b.submittedAt && Less(a.operationId, b.operationId))
  }

  /** Nodes of one ordinal: recorded ones first, in the order of submission, then by ID. */
  ghost predicate SameOrdinalBefore(a: Node, b: Node) {
    || (a.record.Some? && b.record.None?)
    || (a.record.Some? && b.record.Some? && SubmittedBefore(a.record.value, b.record.value))
    || (Less(a.id, b.id) && a.record.None? && b.record.None?)
    || (Less(a.id, b.id) && a.record.Some? && b.record.Some?
        && a.record.value.submittedAt == b.record.value.submittedAt && a.record.value.operationId == b.record.value.operationId)
  }

  /** The root before every other node; otherwise the smaller ordinal, then the rest. */
  ghost predicate Precedes(root: string, a: Node, b: Node) {
    || (a.id == root && b.id != root)
    || (b.id != root && (a.ordinal < b.ordinal || (a.ordinal == b.ordinal && SameOrdinalBefore(a, b))))
  }

  lemma LessIsCompared(a: string, b: string)
    requires Less(a, b)
    ensures CompareText(a, b) == -1
  {
    LessIrreflexive(a);
  }

  lemma PrecedesIsOrder(root: string, a: Node, b: Node)
    requires Precedes(root, a, b)
    ensures CompareNodes(root, a, b) < 0
  {
    hide Less;
    if Less(a.id, b.id) { LessIsCompared(a.id, b.id); }
    if a.record.Some? && b.record.Some? && Less(a.record.value.operationId, b.record.value.operationId) {
      LessIsCompared(a.record.value.operationId, b.record.value.operationId);
    }
  }

  /** All that x waits for is among the first i of the order. */
  ghost predicate ReadyBy(nodes: map<string, Node>, order: seq<string>, x: string, i: nat) {
    i <= |order| && forall from :: Waits(nodes, from, x) ==> from in order[..i]
  }

  /** Whatever a node waits for comes before it, and of two nodes the preceding one comes first
      unless it had to wait for something later than the other. */
  ghost predicate Ranked(root: string, nodes: map<string, Node>, order: seq<string>) {
    && (forall i :: 0 <= i < |order| ==> order[i] in nodes && ReadyBy(nodes, order, order[i], i))
    && (forall i, j ::
          0 <= i < |order| && 0 <= j < |order| && Precedes(root, nodes[order[j]], nodes[order[i]]) && ReadyBy(nodes, order, order[j], i)
          ==> j < i)
  }

  lemma WaitsArePreds(nodes: map<string, Node>, x: string)
    ensures forall from :: from in Preds(OrderEdges(nodes), x) <==> Waits(nodes, from, x)
  {
    EdgesAreWaits(nodes);
    hide OrderEdges, Waits;
    var edges := OrderEdges(nodes);
    forall from ensures from in Preds(edges, x) <==> (from, x) in edges {
      if (from, x) in edges { assert (from, x).0 in Preds(edges, x); }
    }
  }

  lemma TakenInRank(root: string, nodes: map<string, Node>, order: seq<string>, i: nat, j: nat)
    requires Named(nodes) && Elements(order) == nodes.Keys && Distinct(order)
    requires Greedy(nodes.Keys, OrderEdges(nodes), NodeOrder(root, nodes), order)
    requires i < |order| && j < |order| && order[i] in nodes && order[j] in nodes
    requires Precedes(root, nodes[order[j]], nodes[order[i]]) && ReadyBy(nodes, order, order[j], i)
    ensures j < i
  {
    hide OrderEdges, Precedes, CompareNodes, Waits;
    var x, y, done := order[j], order[i], Elements(order[..i]);
    PrecedesIsOrder(root, nodes[x], nodes[y]);
    NodeOrderIsTotal(root, nodes);
    WaitsArePreds(nodes, x);
    var less := NodeOrder(root, nodes);
    assert less(x, y) && LeastReady(nodes.Keys, OrderEdges(nodes), less, done, y);
    assert x in done || Ready(nodes.Keys, OrderEdges(nodes), done, x);
    assert x in done;
  }

  lemma SortedIsRanked(root: string, nodes: map<string, Node>, order: seq<string>)
    requires Named(nodes) && Topological(nodes.Keys, OrderEdges(nodes), order)
    requires Greedy(nodes.Keys, OrderEdges(nodes), NodeOrder(root, nodes), order)
    ensures Ranked(root, nodes, order)
  {
    hide OrderEdges, Precedes, NodeOrder, Waits, LeastReady, Preds;
    forall i | 0 <= i < |order| ensures order[i] in nodes && ReadyBy(nodes, order, order[i], i) {
      assert order[i] in Elements(order);
      ReadyWhenTaken(root, nodes, order, i);
    }
    hide Greedy, ReadyBy, Topological;
    forall i, j | 0 <= i < |order| && 0 <= j < |order| && Precedes(root, nodes[order[j]], nodes[order[i]]) && ReadyBy(nodes, order, order[j], i)
      ensures j < i {
      TakenInRank(root, nodes, order, i, j) by { TopologicalCovers(nodes.Keys, OrderEdges(nodes), order); }
    }
  }

  lemma TopologicalCovers(ids: set<string>, edges: set<Edge>, order: seq<string>)
    requires Topological(ids, edges, order)
    ensures Elements(order) == ids && Distinct(order)
  {}

  lemma ReadyWhenTaken(root: string, nodes: map<string, Node>, order: seq<string>, i: nat)
    requires Greedy(nodes.Keys, OrderEdges(nodes), NodeOrder(root, nodes), order) && i < |order|
    ensures ReadyBy(nodes, order, order[i], i)
  {
    hide OrderEdges, NodeOrder, Waits, Preds;
    assert LeastReady(nodes.Keys, OrderEdges(nodes), NodeOrder(root, nodes), Elements(order[..i]), order[i]);
    WaitsArePreds(nodes, order[i]);
    forall from | Waits(nodes, from, order[i]) ensures from in order[..i] { assert from in Elements(order[..i]); }
  }

  /** `sortInvocationGraphNodes`: fails exactly on a cycle, and otherwise yields the unique order
      that always takes the least ready node. */
  method SortNodes(root: string, nodes: map<string, Node>) returns (r: Result<seq<string>, Error>)
    requires Named(nodes)
    ensures r.Err? <==> Cyclic(OrderEdges(nodes))
    ensures r.Err? ==> r.error == CycleFound
    ensures r.Ok? ==> Topological(nodes.Keys, OrderEdges(nodes), r.value)
    ensures r.Ok? ==> Greedy(nodes.Keys, OrderEdges(nodes), NodeOrder(root, nodes), r.value)
    ensures r.Ok? ==> Ranked(root, nodes, r.value)
  {
    hide Ranked, NodeOrder, Named, Cyclic, Topological, Greedy, Stuck, EdgesBy, TotalOn, EdgesWithin;
    var inbound, outbound := TallyEdges(nodes, Sources);
    NodeOrderIsTotal(root, nodes);
    EdgesByWithin(nodes, Sources);
    var ordered := Kahn(nodes.Keys, OrderEdges(nodes), inbound, outbound, NodeOrder(root, nodes));
    CompleteIffAcyclic(nodes.Keys, OrderEdges(nodes), NodeOrder(root, nodes), ordered);
    if |ordered| != |nodes| { return Err(CycleFound); }
    SortedIsRanked(root, nodes, ordered);
    return Ok(ordered);
  }
}
