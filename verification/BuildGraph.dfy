/** `BuildInvocationGraph`: from operation records to an ordered graph. */
module BuildGraph {
  import opened Outcome
  import opened Text
  import opened TopoSort
  import opened InvocationGraph

  datatype Graph = Graph(rootId: string, nodes: seq<Node>, operations: seq<OperationRecord>)

  // ---- nodes from records ------------------------------------------------

  predicate Kept(root: string, record: OperationRecord) { record.rootId == root && record.id != "" }

  ghost predicate Duplicated(root: string, records: seq<OperationRecord>) {
    exists i, j :: 0 <= i < j < |records| && Kept(root, records[i]) && Kept(root, records[j]) && records[i].id == records[j].id
  }

  /** The node map after the record loop: the root, and one node per kept record. */
  ghost predicate NodesOf(root: string, records: seq<OperationRecord>, nodes: map<string, Node>) {
    && root in nodes
    && (forall i :: 0 <= i < |records| && Kept(root, records[i]) ==>
          records[i].id in nodes && nodes[records[i].id] == Recorded(records[i]))
    && (forall id :: id in nodes ==>
          || (id == root && nodes[id] == Synthetic(root))
          || (nodes[id].record.Some? && nodes[id] == Recorded(nodes[id].record.value) && nodes[id].id == id
              && Kept(root, nodes[id].record.value) && nodes[id].record.value in records))
  }

  method CollectNodes(root: string, records: seq<OperationRecord>) returns (r: Result<map<string, Node>, Error>)
    ensures r.Err? <==> Duplicated(root, records)
    ensures r.Err? ==> r.error == DuplicateNode
    ensures r.Ok? ==> NodesOf(root, records, r.value)
  {
    var nodes := map[root := Synthetic(root)];
    for k := 0 to |records|
      invariant NodesOf(root, records[..k], nodes) && !Duplicated(root, records[..k])
    {
      var record := records[k];
      if Kept(root, record) {
        if record.id in nodes && nodes[record.id].record.Some? {
          RepeatedRecord(root, records, k, nodes);
          return Err(DuplicateNode);
        }
        NewRecord(root, records, k, nodes);
        nodes := nodes[record.id := Recorded(record)];
      } else {
        SkippedRecord(root, records, k, nodes);
      }
    }
    assert records[..|records|] == records;
    return Ok(nodes);
  }

  lemma RepeatedRecord(root: string, records: seq<OperationRecord>, k: nat, nodes: map<string, Node>)
    requires k < |records| && NodesOf(root, records[..k], nodes) && Kept(root, records[k])
    requires records[k].id in nodes && nodes[records[k].id].record.Some?
    ensures Duplicated(root, records)
  {}

  lemma NewRecord(root: string, records: seq<OperationRecord>, k: nat, nodes: map<string, Node>)
    requires k < |records| && NodesOf(root, records[..k], nodes) && !Duplicated(root, records[..k]) && Kept(root, records[k])
    requires !(records[k].id in nodes && nodes[records[k].id].record.Some?)
    ensures NodesOf(root, records[..k + 1], nodes[records[k].id := Recorded(records[k])])
    ensures !Duplicated(root, records[..k + 1])
  {
    var front, longer := records[..k], records[..k + 1];
    assert longer == front + [records[k]];
    NotRepeated(root, front, records[k], nodes);
    NodesWith(root, front, records[k], nodes);
  }

  lemma NotRepeated(root: string, front: seq<OperationRecord>, record: OperationRecord, nodes: map<string, Node>)
    requires NodesOf(root, front, nodes) && !Duplicated(root, front)
    requires Kept(root, record) ==> !(record.id in nodes && nodes[record.id].record.Some?)
    ensures !Duplicated(root, front + [record])
  {
    var longer := front + [record];
    forall i, j | 0 <= i < j < |longer| && Kept(root, longer[i]) && Kept(root, longer[j])
      ensures longer[i].id != longer[j].id
    {
      assert longer[i] == front[i];
      if j < |front| { assert longer[j] == front[j]; }
    }
  }

  lemma NodesWith(root: string, front: seq<OperationRecord>, record: OperationRecord, nodes: map<string, Node>)
    requires NodesOf(root, front, nodes) && Kept(root, record) && !(record.id in nodes && nodes[record.id].record.Some?)
    ensures NodesOf(root, front + [record], nodes[record.id := Recorded(record)])
  {
    var longer, nodes' := front + [record], nodes[record.id := Recorded(record)];
    assert record in longer && forall x :: x in front ==> x in longer;
    forall i | 0 <= i < |longer| && Kept(root, longer[i])
      ensures longer[i].id in nodes' && nodes'[longer[i].id] == Recorded(longer[i])
    {
      if i < |front| { assert longer[i] == front[i]; }
    }
  }

  lemma SkippedRecord(root: string, records: seq<OperationRecord>, k: nat, nodes: map<string, Node>)
    requires k < |records| && NodesOf(root, records[..k], nodes) && !Duplicated(root, records[..k]) && !Kept(root, records[k])
    ensures NodesOf(root, records[..k + 1], nodes) && !Duplicated(root, records[..k + 1])
  {
    var front, longer := records[..k], records[..k + 1];
    assert longer == front + [records[k]];
    NotRepeated(root, front, records[k], nodes);
    assert forall x :: x in front ==> x in longer;
    forall i | 0 <= i < |longer| && Kept(root, longer[i])
      ensures longer[i].id in nodes && nodes[longer[i].id] == Recorded(longer[i])
    {
      assert longer[i] == front[i];
    }
  }

  // ---- references --------------------------------------------------------

  /** Every ID a node mentions: its parent unless empty, and all its dependencies. */
  function References(node: Node): seq<string> {
    (if node.parentId == "" then [] else [node.parentId]) + node.dependencies
  }

  ghost function Mentioned(nodes: map<string, Node>): set<string> {
    set id, ref | id in nodes && ref in References(nodes[id]) :: ref
  }

  /** Synthetic nodes for mentioned IDs without a record. */
  ghost function Completed(nodes: map<string, Node>): map<string, Node> {
    map id | id in nodes.Keys + Mentioned(nodes) :: if id in nodes then nodes[id] else Synthetic(id)
  }

  method AddReferences(nodes: map<string, Node>) returns (all: map<string, Node>)
    ensures all == Completed(nodes)
  {
    var references: set<string> := {};
    var todo := nodes.Keys;
    while todo != {}
      invariant todo <= nodes.Keys
      invariant forall ref :: ref in references <==> exists id :: id in nodes.Keys - todo && ref in References(nodes[id])
      decreases |todo|
    {
      var id :| id in todo;
      references := references + set ref | ref in References(nodes[id]);
      todo := todo - {id};
    }
    assert references == Mentioned(nodes);
    all := map id | id in nodes.Keys + references :: if id in nodes then nodes[id] else Synthetic(id);
  }

  lemma CompletedNamed(root: string, records: seq<OperationRecord>, nodes: map<string, Node>)
    requires NodesOf(root, records, nodes)
    ensures Named(Completed(nodes)) && Bare(Completed(nodes))
  {}

  /** No relation lists have been filled in yet. */
  ghost predicate Bare(nodes: map<string, Node>) {
    forall id :: id in nodes ==> nodes[id].children == [] && nodes[id].dependents == []
  }

  // ---- relation lists ----------------------------------------------------

  function ParentOf(node: Node): seq<string> { [node.parentId] }

  function DependenciesOf(node: Node): seq<string> { node.dependencies }

  /** `byGraphOrder`: every ID has a position, so the node comparison behind it is not reached. */
  function PositionOrder(positions: map<string, nat>): Order {
    (x, y) => x in positions && y in positions && positions[x] < positions[y]
  }

  ghost predicate PositionsOf(positions: map<string, nat>, ordered: seq<string>) {
    && positions.Keys == Elements(ordered)
    && forall i :: 0 <= i < |ordered| ==> ordered[i] in positions && positions[ordered[i]] == i
  }

  method Positions(ordered: seq<string>) returns (positions: map<string, nat>)
    requires Distinct(ordered)
    ensures PositionsOf(positions, ordered)
  {
    positions := map[];
    for i := 0 to |ordered|
      invariant positions.Keys == Elements(ordered[..i])
      invariant forall j :: 0 <= j < i ==> ordered[j] in positions && positions[ordered[j]] == j
    {
      assert ordered[..i + 1] == ordered[..i] + [ordered[i]];
      positions := positions[ordered[i] := i];
    }
    assert ordered[..|ordered|] == ordered;
  }

  lemma PositionOrderIsTotal(positions: map<string, nat>, ordered: seq<string>)
    requires PositionsOf(positions, ordered)
    ensures TotalOn(PositionOrder(positions), Elements(ordered))
  {}

  /** A relation list of the result: all related IDs, once each, in graph order. */
  ghost predicate RelationList(list: seq<string>, related: set<string>, ordered: seq<string>) {
    Elements(list) == related && forall i, j :: 0 <= i < j < |list| ==> Earlier(ordered, list[i], list[j])
  }

  ghost predicate Earlier(ordered: seq<string>, x: string, y: string) {
    exists a, b :: 0 <= a < b < |ordered| && ordered[a] == x && ordered[b] == y
  }

  method SortRelation(targets: seq<string>, ordered: seq<string>, positions: map<string, nat>) returns (list: seq<string>)
    requires PositionsOf(positions, ordered) && Distinct(targets) && Elements(targets) <= Elements(ordered)
    ensures RelationList(list, Elements(targets), ordered)
  {
    PositionOrderIsTotal(positions, ordered);
    SortBySorts(targets, PositionOrder(positions), Elements(ordered));
    list := SortBy(targets, PositionOrder(positions));
    SortedByPosition(list, ordered, positions);
  }

  lemma SortedByPosition(list: seq<string>, ordered: seq<string>, positions: map<string, nat>)
    requires PositionsOf(positions, ordered) && SortedBy(list, PositionOrder(positions)) && Elements(list) <= Elements(ordered)
    ensures RelationList(list, Elements(list), ordered)
  {}

  // ---- the whole projection ----------------------------------------------

  /** The node at one position of the result. */
  ghost predicate Projected(nodes: map<string, Node>, ordered: seq<string>, id: string, node: Node) {
    && id in nodes && node.(children := [], dependents := []) == nodes[id]
    && RelationList(node.children, Succs(EdgesBy(nodes, ParentOf), id), ordered)
    && RelationList(node.dependents, Succs(EdgesBy(nodes, DependenciesOf), id), ordered)
  }

  function OperationsIn(nodes: seq<Node>): seq<OperationRecord> {
    if nodes == [] then []
    else OperationsIn(nodes[..|nodes| - 1])
         + (if nodes[|nodes| - 1].record.Some? then [nodes[|nodes| - 1].record.value] else [])
  }

  ghost predicate GraphOf(root: string, nodes: map<string, Node>, ordered: seq<string>, graph: Graph) {
    && graph.rootId == root && |graph.nodes| == |ordered|
    && (forall i :: 0 <= i < |ordered| ==> Projected(nodes, ordered, ordered[i], graph.nodes[i]))
    && graph.operations == OperationsIn(graph.nodes)
  }

  /** Building fails on duplicate IDs, else exactly on a parent or dependency cycle; otherwise the
      result lists every node once, each after its parent and dependencies, in the one order that
      always takes the least ready node, with relation lists in graph order. */
  method BuildInvocationGraph(root: string, validRoot: bool, records: seq<OperationRecord>)
    returns (r: Result<Graph, Error>, ghost nodes: map<string, Node>, ghost ordered: seq<string>)
    ensures !validRoot ==> r == Err(InvalidRoot)
    ensures validRoot && Duplicated(root, records) ==> r == Err(DuplicateNode)
    ensures validRoot && !Duplicated(root, records) ==>
      && (exists recorded :: NodesOf(root, records, recorded) && nodes == Completed(recorded))
      && (r.Err? <==> Cyclic(OrderEdges(nodes)))
      && (r.Err? ==> r.error == CycleFound)
      && (r.Ok? ==>
            && Topological(nodes.Keys, OrderEdges(nodes), ordered)
            && Greedy(nodes.Keys, OrderEdges(nodes), NodeOrder(root, nodes), ordered)
            && Ranked(root, nodes, ordered)
            && GraphOf(root, nodes, ordered, r.value))
  {
    hide NodesOf, Completed, Cyclic, OrderEdges, Topological, Greedy, Ranked, GraphOf, Duplicated, Named, Bare;
    nodes, ordered := map[], [];
    if !validRoot { return Err(InvalidRoot), nodes, ordered; }
    var collected := CollectNodes(root, records);
    if collected.Err? { return Err(collected.error), nodes, ordered; }
    var all := AddReferences(collected.value);
    CompletedNamed(root, records, collected.value);
    var sorted := SortNodes(root, all);
    nodes := all;
    if sorted.Err? { return Err(sorted.error), nodes, ordered; }
    ordered := sorted.value;
    var graph := Project(root, all, sorted.value);
    return Ok(graph), nodes, ordered;
  }

  /** The two edge loops, `sortInvocationGraphEdges` and the final copy. */
  method Project(root: string, nodes: map<string, Node>, ordered: seq<string>) returns (graph: Graph)
    requires Topological(nodes.Keys, OrderEdges(nodes), ordered) && Bare(nodes)
    ensures GraphOf(root, nodes, ordered, graph)
  {
    hide OrderEdges, EdgesBy, Counts, RelationList, Lists, PositionsOf, Projected, Elements;
    CoversNodes(nodes, ordered);
    var _, children := TallyEdges(nodes, ParentOf);
    var _, dependents := TallyEdges(nodes, DependenciesOf);
    var positions := Positions(ordered);
    var result: seq<Node>, operations: seq<OperationRecord> := [], [];
    for i := 0 to |ordered|
      invariant |result| == i && operations == OperationsIn(result)
      invariant forall j :: 0 <= j < i ==> Projected(nodes, ordered, ordered[j], result[j])
    {
      var id := ordered[i];
      var node := ProjectNode(nodes, ordered, positions, children, dependents, id);
      assert (result + [node])[..i] == result;
      result := result + [node];
      if node.record.Some? { operations := operations + [node.record.value]; }
    }
    graph := Graph(root, result, operations);
  }

  lemma CoversNodes(nodes: map<string, Node>, ordered: seq<string>)
    requires Topological(nodes.Keys, OrderEdges(nodes), ordered)
    ensures Distinct(ordered) && Elements(ordered) == nodes.Keys && forall i :: 0 <= i < |ordered| ==> ordered[i] in nodes
  {}

  method ProjectNode(nodes: map<string, Node>, ordered: seq<string>, positions: map<string, nat>,
                     children: map<string, seq<string>>, dependents: map<string, seq<string>>, id: string)
    returns (node: Node)
    requires Elements(ordered) == nodes.Keys && PositionsOf(positions, ordered) && id in nodes
    requires nodes[id].children == [] && nodes[id].dependents == []
    requires Lists(EdgesBy(nodes, ParentOf), children) && Lists(EdgesBy(nodes, DependenciesOf), dependents)
    ensures Projected(nodes, ordered, id, node)
  {
    SuccsWithin(nodes, ParentOf, id);
    SuccsWithin(nodes, DependenciesOf, id);
    assert Elements(TargetsOf(children, id)) == Succs(EdgesBy(nodes, ParentOf), id) && Distinct(TargetsOf(children, id));
    assert Elements(TargetsOf(dependents, id)) == Succs(EdgesBy(nodes, DependenciesOf), id) && Distinct(TargetsOf(dependents, id));
    var sortedChildren := SortRelation(TargetsOf(children, id), ordered, positions);
    var sortedDependents := SortRelation(TargetsOf(dependents, id), ordered, positions);
    node := nodes[id].(children := sortedChildren, dependents := sortedDependents);
  }

  lemma SuccsWithin(nodes: map<string, Node>, pick: Pick, id: string)
    ensures Succs(EdgesBy(nodes, pick), id) <= nodes.Keys
  {}

  // ---- independence of iteration order -----------------------------------

  lemma NodesDetermined(root: string, records: seq<OperationRecord>, a: map<string, Node>, b: map<string, Node>)
    requires NodesOf(root, records, a) && NodesOf(root, records, b)
    ensures a == b
  {
    NodesAgree(root, records, a, b);
    NodesAgree(root, records, b, a);
  }

  lemma NodesAgree(root: string, records: seq<OperationRecord>, a: map<string, Node>, b: map<string, Node>)
    requires NodesOf(root, records, a) && NodesOf(root, records, b)
    ensures forall id :: id in a ==> id in b && b[id] == a[id]
  {}

  ghost function GraphOrder(ordered: seq<string>): Order { (x, y) => Earlier(ordered, x, y) }

  lemma GraphOrderIsTotal(ordered: seq<string>)
    requires Distinct(ordered)
    ensures TotalOn(GraphOrder(ordered), Elements(ordered))
  {
    var less := GraphOrder(ordered);
    forall a, b | a in Elements(ordered) && b in Elements(ordered) && a != b ensures less(a, b) || less(b, a) {
      var i :| 0 <= i < |ordered| && ordered[i] == a;
      var j :| 0 <= j < |ordered| && ordered[j] == b;
    }
    forall a, b, c | less(a, b) && less(b, c) ensures less(a, c) {
      var i, j :| 0 <= i < j < |ordered| && ordered[i] == a && ordered[j] == b;
      var k, l :| 0 <= k < l < |ordered| && ordered[k] == b && ordered[l] == c;
      assert j == k;
    }
  }

  lemma RelationDetermined(a: seq<string>, b: seq<string>, related: set<string>, ordered: seq<string>)
    requires Distinct(ordered) && related <= Elements(ordered)
    requires RelationList(a, related, ordered) && RelationList(b, related, ordered)
    ensures a == b
  {
    GraphOrderIsTotal(ordered);
    SortedUnique(a, b, GraphOrder(ordered));
  }

  /** Any two results the code can reach for the same records are equal: neither the order of the
      nodes nor their relation lists depend on map iteration. */
  lemma GraphIsDetermined(root: string, nodes: map<string, Node>, o1: seq<string>, o2: seq<string>, g1: Graph, g2: Graph)
    requires Named(nodes)
    requires Topological(nodes.Keys, OrderEdges(nodes), o1) && Topological(nodes.Keys, OrderEdges(nodes), o2)
    requires Greedy(nodes.Keys, OrderEdges(nodes), NodeOrder(root, nodes), o1)
    requires Greedy(nodes.Keys, OrderEdges(nodes), NodeOrder(root, nodes), o2)
    requires GraphOf(root, nodes, o1, g1) && GraphOf(root, nodes, o2, g2)
    ensures o1 == o2 && g1 == g2
  {
    hide TotalOn, NodeOrder, OrderEdges, Greedy, RelationList, EdgesBy;
    NodeOrderIsTotal(root, nodes);
    CompleteIsStuck(nodes, o1);
    CompleteIsStuck(nodes, o2);
    GreedyUnique(nodes.Keys, OrderEdges(nodes), NodeOrder(root, nodes), o1, o2);
    forall i | 0 <= i < |o1| ensures g1.nodes[i] == g2.nodes[i] {
      assert Projected(nodes, o1, o1[i], g1.nodes[i]) && Projected(nodes, o2, o2[i], g2.nodes[i]);
      SuccsWithin(nodes, ParentOf, o1[i]);
      SuccsWithin(nodes, DependenciesOf, o1[i]);
      RelationDetermined(g1.nodes[i].children, g2.nodes[i].children, Succs(EdgesBy(nodes, ParentOf), o1[i]), o1);
      RelationDetermined(g1.nodes[i].dependents, g2.nodes[i].dependents, Succs(EdgesBy(nodes, DependenciesOf), o1[i]), o1);
    }
    assert g1.nodes == g2.nodes;
  }

  lemma CompleteIsStuck(nodes: map<string, Node>, ordered: seq<string>)
    requires Topological(nodes.Keys, OrderEdges(nodes), ordered)
    ensures Stuck(nodes.Keys, OrderEdges(nodes), Elements(ordered))
  {}

  /** The operations of the graph are the kept records, each of them and no others. */
  lemma OperationsAreTheRecords(root: string, records: seq<OperationRecord>, recorded: map<string, Node>,
                                ordered: seq<string>, graph: Graph, record: OperationRecord)
    requires NodesOf(root, records, recorded) && Elements(ordered) == Completed(recorded).Keys
    requires GraphOf(root, Completed(recorded), ordered, graph)
    ensures record in graph.operations <==> record in records && Kept(root, record)
  {
    OperationsMembers(graph.nodes, record);
    var nodes := Completed(recorded);
    if record in records && Kept(root, record) {
      var k :| 0 <= k < |records| && records[k] == record;
      assert record.id in Elements(ordered);
      var i :| 0 <= i < |ordered| && ordered[i] == record.id;
      assert Projected(nodes, ordered, ordered[i], graph.nodes[i]);
      assert graph.nodes[i].record == nodes[ordered[i]].record;
    }
    if record in graph.operations {
      var i :| 0 <= i < |graph.nodes| && graph.nodes[i].record == Some(record);
      assert Projected(nodes, ordered, ordered[i], graph.nodes[i]);
      assert nodes[ordered[i]].record == Some(record) && ordered[i] in recorded;
    }
  }

  lemma {:induction false} OperationsMembers(nodes: seq<Node>, record: OperationRecord)
    ensures record in OperationsIn(nodes) <==> exists i :: 0 <= i < |nodes| && nodes[i].record == Some(record)
  {
    if nodes != [] {
      var front := nodes[..|nodes| - 1];
      OperationsMembers(front, record);
      assert forall i :: 0 <= i < |front| ==> front[i] == nodes[i];
    }
  }

  // ---- the order of the operations -----------------------------------------

  /** One record comes before another in a list. */
  ghost predicate ListedBefore(xs: seq<OperationRecord>, a: OperationRecord, b: OperationRecord) {
    exists i, j :: 0 <= i < j < |xs| && xs[i] == a && xs[j] == b
  }

  lemma {:induction false} OperationsKeepOrder(nodes: seq<Node>, i: nat, j: nat, a: OperationRecord, b: OperationRecord)
    requires i < j < |nodes| && nodes[i].record == Some(a) && nodes[j].record == Some(b)
    ensures ListedBefore(OperationsIn(nodes), a, b)
  {
    var front, last := nodes[..|nodes| - 1], nodes[|nodes| - 1];
    var before := OperationsIn(front);
    if j < |front| {
      OperationsKeepOrder(front, i, j, a, b);
      var u, v :| 0 <= u < v < |before| && before[u] == a && before[v] == b;
      assert OperationsIn(nodes)[u] == a && OperationsIn(nodes)[v] == b;
    } else {
      OperationsMembers(front, a);
      assert front[i].record == Some(a);
      var u :| 0 <= u < |before| && before[u] == a;
      assert OperationsIn(nodes)[u] == a && OperationsIn(nodes)[|before|] == b;
    }
  }

  /** Where a kept record stands in the order. */
  lemma RecordAt(root: string, records: seq<OperationRecord>, recorded: map<string, Node>, ordered: seq<string>, graph: Graph,
                 a: OperationRecord) returns (i: nat)
    requires NodesOf(root, records, recorded) && a in records && Kept(root, a)
    requires Elements(ordered) == Completed(recorded).Keys && GraphOf(root, Completed(recorded), ordered, graph)
    ensures i < |ordered| == |graph.nodes| && ordered[i] == a.id && graph.nodes[i].record == Some(a)
    ensures a.id in Completed(recorded)
    ensures var node := Completed(recorded)[a.id];
            node.id == a.id && node.record == Some(a) && node.ordinal == a.ordinal && node.parentId == a.parentId && node.dependencies == a.dependencies
  {
    var k :| 0 <= k < |records| && records[k] == a;
    assert a.id in recorded && Completed(recorded)[a.id] == recorded[a.id];
    assert a.id in Elements(ordered);
    i :| 0 <= i < |ordered| && ordered[i] == a.id;
    assert Projected(Completed(recorded), ordered, ordered[i], graph.nodes[i]);
  }

  /** In the built graph an operation comes after its parent and all its dependencies. */
  lemma OperationsFollowSources(root: string, records: seq<OperationRecord>, recorded: map<string, Node>, ordered: seq<string>,
                                graph: Graph, a: OperationRecord, b: OperationRecord)
    requires NodesOf(root, records, recorded) && a in records && Kept(root, a) && b in records && Kept(root, b)
    requires Elements(ordered) == Completed(recorded).Keys && Distinct(ordered) && GraphOf(root, Completed(recorded), ordered, graph)
    requires Ranked(root, Completed(recorded), ordered)
    requires a.id != b.id && (a.id == b.parentId || a.id in b.dependencies)
    ensures ListedBefore(graph.operations, a, b)
  {
    var i := RecordAt(root, records, recorded, ordered, graph, a);
    var j := RecordAt(root, records, recorded, ordered, graph, b);
    hide NodesOf, Completed, GraphOf, Precedes;
    assert Waits(Completed(recorded), a.id, b.id) && ReadyBy(Completed(recorded), ordered, ordered[j], j);
    var k :| 0 <= k < |ordered[..j]| && ordered[..j][k] == a.id;
    assert ordered[k] == a.id && k == i;
    OperationsKeepOrder(graph.nodes, i, j, a, b);
    assert graph.operations == OperationsIn(graph.nodes) by { GraphLists(root, Completed(recorded), ordered, graph); }
  }

  lemma GraphLists(root: string, nodes: map<string, Node>, ordered: seq<string>, graph: Graph)
    requires GraphOf(root, nodes, ordered, graph)
    ensures graph.operations == OperationsIn(graph.nodes)
  {}

  /** Of two operations, neither of the root, that have nothing to wait for any more, the one with the
      smaller ordinal comes first, and at equal ordinals the one submitted earlier. */
  lemma OperationsFollowOrdinals(root: string, records: seq<OperationRecord>, recorded: map<string, Node>, ordered: seq<string>,
                                 graph: Graph, a: OperationRecord, b: OperationRecord, j: nat)
    requires NodesOf(root, records, recorded) && a in records && Kept(root, a) && b in records && Kept(root, b)
    requires Elements(ordered) == Completed(recorded).Keys && Distinct(ordered) && GraphOf(root, Completed(recorded), ordered, graph)
    requires Ranked(root, Completed(recorded), ordered)
    requires j < |ordered| && ordered[j] == b.id && ReadyBy(Completed(recorded), ordered, a.id, j)
    requires b.id != root && (a.ordinal < b.ordinal || (a.ordinal == b.ordinal && SubmittedBefore(a, b)))
    ensures ListedBefore(graph.operations, a, b)
  {
    var i := RecordAt(root, records, recorded, ordered, graph, a);
    var j' := RecordAt(root, records, recorded, ordered, graph, b);
    hide NodesOf, Completed, GraphOf, Waits, ReadyBy;
    assert j' == j;
    assert Precedes(root, Completed(recorded)[a.id], Completed(recorded)[b.id]);
    OperationsKeepOrder(graph.nodes, i, j, a, b);
    GraphLists(root, Completed(recorded), ordered, graph);
  }

  /** The children of a node are exactly the other nodes that name it as parent, and its dependents
      those that depend on it; both in graph order. */
  lemma RelationsMean(root: string, nodes: map<string, Node>, ordered: seq<string>, graph: Graph, i: nat, id: string)
    requires GraphOf(root, nodes, ordered, graph) && i < |ordered| && id in nodes && id != "" && ordered[i] != ""
    ensures graph.nodes[i].(children := [], dependents := []) == nodes[ordered[i]]
    ensures id in graph.nodes[i].children <==> id != ordered[i] && nodes[id].parentId == ordered[i]
    ensures id in graph.nodes[i].dependents <==> id != ordered[i] && ordered[i] in nodes[id].dependencies
  {
    var node, from := graph.nodes[i], ordered[i];
    assert Projected(nodes, ordered, from, node);
    SuccMeans(EdgesBy(nodes, ParentOf), from, id);
    SuccMeans(EdgesBy(nodes, DependenciesOf), from, id);
    assert id in node.children <==> id in Elements(node.children);
    assert id in node.dependents <==> id in Elements(node.dependents);
    assert from in ParentOf(nodes[id]) <==> from == nodes[id].parentId;
  }

  lemma SuccMeans(edges: set<Edge>, from: string, to: string)
    ensures to in Succs(edges, from) <==> (from, to) in edges
  {
    if (from, to) in edges { assert (from, to).1 in Succs(edges, from); }
  }

  /** Only records of the root with an invocation ID are kept; every parent and dependency they name
      has a node, with or without a record, and there are no other nodes but the root. */
  lemma NodesAreNamed(root: string, records: seq<OperationRecord>, recorded: map<string, Node>, id: string)
    requires NodesOf(root, records, recorded)
    ensures id in Completed(recorded) <==>
            || id == root
            || exists k :: 0 <= k < |records| && records[k].rootId == root && records[k].id != ""
                 && (id == records[k].id || (id != "" && id == records[k].parentId) || id in records[k].dependencies)
    ensures id in Completed(recorded) && id !in recorded ==> Completed(recorded)[id] == Node(id, 0, None, "", [], [], [])
  {
    forall k | 0 <= k < |records| && records[k].rootId == root && records[k].id != ""
      && (id == records[k].id || (id != "" && id == records[k].parentId) || id in records[k].dependencies)
      ensures id in Completed(recorded) {
      assert Kept(root, records[k]) && recorded[records[k].id] == Recorded(records[k]);
      if id != records[k].id { assert id in References(recorded[records[k].id]); }
    }
    if id in Completed(recorded) && id != root {
      var from := if id in recorded then id else MentionedBy(recorded, id);
      assert recorded[from].record.Some?;
      var k :| 0 <= k < |records| && records[k] == recorded[from].record.value;
    }
  }

  ghost function MentionedBy(nodes: map<string, Node>, ref: string): (id: string)
    requires ref in Mentioned(nodes)
    ensures id in nodes && ref in References(nodes[id])
  {
    var id :| id in nodes && ref in References(nodes[id]);
    id
  }
}
