/** The ordering loop of sdk/invocation_graph.go: Kahn's algorithm with a sorted ready list.
    It runs over a finite set of IDs, a finite set of edges and a comparison. */
module TopoSort {
  import opened Text

  type Edge = (string, string)
  type Order = (string, string) -> bool

  ghost predicate TotalOn(less: Order, ids: set<string>) {
    && (forall a :: a in ids ==> !less(a, a))
    && (forall a, b :: a in ids && b in ids && a != b ==> less(a, b) || less(b, a))
    && (forall a, b, c :: a in ids && b in ids && c in ids && less(a, b) && less(b, c) ==> less(a, c))
  }

  ghost predicate EdgesWithin(edges: set<Edge>, ids: set<string>) {
    forall e :: e in edges ==> e.0 in ids && e.1 in ids && e.0 != e.1
  }

  // ---- slices.SortFunc ---------------------------------------------------

  ghost predicate Distinct(xs: seq<string>) { forall i, j :: 0 <= i < j < |xs| ==> xs[i] != xs[j] }

  function InsertBy(x: string, xs: seq<string>, less: Order): seq<string> {
    if xs == [] || less(x, xs[0]) then [x] + xs else [xs[0]] + InsertBy(x, xs[1..], less)
  }

  function SortBy(xs: seq<string>, less: Order): seq<string> {
    if xs == [] then [] else InsertBy(xs[0], SortBy(xs[1..], less), less)
  }

  lemma {:induction false} InsertBySorts(x: string, xs: seq<string>, less: Order, ids: set<string>)
    requires TotalOn(less, ids) && SortedBy(xs, less) && x in ids && Elements(xs) <= ids && x !in xs
    ensures SortedBy(InsertBy(x, xs, less), less) && Elements(InsertBy(x, xs, less)) == Elements(xs) + {x}
    ensures |InsertBy(x, xs, less)| == |xs| + 1
  {
    if xs != [] {
      assert xs[0] in Elements(xs) && xs == [xs[0]] + xs[1..];
      if less(x, xs[0]) {
        forall j | 0 <= j < |xs| ensures less(x, xs[j]) { assert xs[j] in Elements(xs); }
      } else {
        InsertBySorts(x, xs[1..], less, ids);
        InsertsLater(x, xs, InsertBy(x, xs[1..], less), less, ids);
      }
    }
  }

  lemma InsertsLater(x: string, xs: seq<string>, rest: seq<string>, less: Order, ids: set<string>)
    requires TotalOn(less, ids) && xs != [] && SortedBy(xs, less) && x in ids && Elements(xs) <= ids && x !in xs
    requires !less(x, xs[0]) && SortedBy(rest, less) && Elements(rest) == Elements(xs[1..]) + {x}
    ensures SortedBy([xs[0]] + rest, less) && Elements([xs[0]] + rest) == Elements(xs) + {x}
  {
    assert xs[0] in Elements(xs) && xs == [xs[0]] + xs[1..];
    forall j | 0 <= j < |rest| ensures less(xs[0], rest[j]) { assert rest[j] in Elements(rest); }
  }

  lemma {:induction false} SortBySorts(xs: seq<string>, less: Order, ids: set<string>)
    requires TotalOn(less, ids) && Elements(xs) <= ids && Distinct(xs)
    ensures SortedBy(SortBy(xs, less), less) && Elements(SortBy(xs, less)) == Elements(xs) && |SortBy(xs, less)| == |xs|
  {
    hide TotalOn, SortedBy;
    if xs == [] {
      EmptySorted(less);
    } else {
      assert xs == [xs[0]] + xs[1..] && xs[0] in Elements(xs);
      SortBySorts(xs[1..], less, ids);
      var rest := SortBy(xs[1..], less);
      assert Elements(rest) == Elements(xs[1..]);
      assert xs[0] !in Elements(rest);
      InsertBySorts(xs[0], rest, less, ids);
    }
  }

  lemma EmptySorted(less: Order)
    ensures SortedBy([], less)
  {}

  lemma SortedDistinct(xs: seq<string>, less: Order, ids: set<string>)
    requires SortedBy(xs, less) && TotalOn(less, ids) && Elements(xs) <= ids
    ensures Distinct(xs)
  {}

  // ---- specification -----------------------------------------------------

  ghost function Preds(edges: set<Edge>, id: string): set<string> { set e | e in edges && e.1 == id :: e.0 }

  ghost function Succs(edges: set<Edge>, id: string): set<string> { set e | e in edges && e.0 == id :: e.1 }

  ghost predicate Ready(ids: set<string>, edges: set<Edge>, done: set<string>, id: string) {
    id in ids && id !in done && Preds(edges, id) <= done
  }

  ghost predicate LeastReady(ids: set<string>, edges: set<Edge>, less: Order, done: set<string>, id: string) {
    Ready(ids, edges, done, id) && forall x :: Ready(ids, edges, done, x) && x != id ==> less(id, x)
  }

  /** Every element is the least of those that are ready when it is taken. */
  ghost predicate Greedy(ids: set<string>, edges: set<Edge>, less: Order, order: seq<string>) {
    forall i :: 0 <= i < |order| ==> LeastReady(ids, edges, less, Elements(order[..i]), order[i])
  }

  ghost predicate Stuck(ids: set<string>, edges: set<Edge>, done: set<string>) {
    forall x :: !Ready(ids, edges, done, x)
  }

  ghost predicate IsPath(edges: set<Edge>, p: seq<string>) {
    |p| >= 1 && forall i :: 0 <= i < |p| - 1 ==> (p[i], p[i + 1]) in edges
  }

  ghost predicate Cyclic(edges: set<Edge>) {
    exists p :: |p| >= 2 && IsPath(edges, p) && p[0] == p[|p| - 1]
  }

  /** A complete order: every ID once, every edge from earlier to later. */
  ghost predicate Topological(ids: set<string>, edges: set<Edge>, order: seq<string>) {
    && Distinct(order) && Elements(order) == ids
    && forall i, j :: 0 <= i < |order| && 0 <= j < |order| && (order[i], order[j]) in edges ==> i < j
  }

  // ---- theory ------------------------------------------------------------

  /** The greedy order is unique, also when it stops early: it does not depend on how the ready
      list was collected. */
  lemma {:induction false} GreedyPrefix(ids: set<string>, edges: set<Edge>, less: Order, a: seq<string>, b: seq<string>, n: nat)
    requires TotalOn(less, ids) && Greedy(ids, edges, less, a) && Greedy(ids, edges, less, b)
    requires n <= |a| && n <= |b|
    ensures a[..n] == b[..n] && (n == |a| ==> a == b[..n])
  {
    hide Ready, TotalOn;
    if n > 0 {
      GreedyPrefix(ids, edges, less, a, b, n - 1);
      var x, y := a[n - 1], b[n - 1];
      assert LeastReady(ids, edges, less, Elements(a[..n - 1]), x);
      assert LeastReady(ids, edges, less, Elements(b[..n - 1]), y);
      LeastUnique(ids, edges, less, Elements(a[..n - 1]), x, y);
      assert a[..n] == a[..n - 1] + [x] && b[..n] == b[..n - 1] + [y];
    }
    assert a[..|a|] == a;
  }

  lemma LeastUnique(ids: set<string>, edges: set<Edge>, less: Order, done: set<string>, x: string, y: string)
    requires TotalOn(less, ids) && LeastReady(ids, edges, less, done, x) && LeastReady(ids, edges, less, done, y)
    ensures x == y
  {}

  lemma NotLonger(ids: set<string>, edges: set<Edge>, less: Order, a: seq<string>, b: seq<string>)
    requires TotalOn(less, ids) && Greedy(ids, edges, less, a) && Greedy(ids, edges, less, b)
    requires Stuck(ids, edges, Elements(a))
    ensures |b| <= |a|
  {
    hide TotalOn, Ready;
    if |a| < |b| {
      GreedyPrefix(ids, edges, less, a, b, |a|);
      assert false;
    }
  }

  lemma GreedyUnique(ids: set<string>, edges: set<Edge>, less: Order, a: seq<string>, b: seq<string>)
    requires TotalOn(less, ids) && Greedy(ids, edges, less, a) && Greedy(ids, edges, less, b)
    requires Stuck(ids, edges, Elements(a)) && Stuck(ids, edges, Elements(b))
    ensures a == b
  {
    NotLonger(ids, edges, less, a, b);
    NotLonger(ids, edges, less, b, a);
    GreedyPrefix(ids, edges, less, a, b, |a|);
    assert a[..|a|] == a && b[..|b|] == b;
  }

  lemma GreedyDistinct(ids: set<string>, edges: set<Edge>, less: Order, order: seq<string>)
    requires Greedy(ids, edges, less, order)
    ensures Distinct(order) && Elements(order) <= ids
  {}

  /** A greedy order that covers every ID is topological. */
  lemma GreedyIsTopological(ids: set<string>, edges: set<Edge>, less: Order, order: seq<string>)
    requires EdgesWithin(edges, ids) && Greedy(ids, edges, less, order) && Elements(order) == ids
    ensures Topological(ids, edges, order)
  {
    GreedyDistinct(ids, edges, less, order);
    forall i, j | 0 <= i < |order| && 0 <= j < |order| && (order[i], order[j]) in edges ensures i < j {
      assert LeastReady(ids, edges, less, Elements(order[..j]), order[j]);
      assert (order[i], order[j]).0 in Preds(edges, order[j]);
      assert order[i] in order[..j];
      var k :| 0 <= k < j && order[..j][k] == order[i];
      assert order[k] == order[i];
    }
  }

  /** Positions rise along every path of a topological order, so it has no cycle. */
  lemma {:induction false} PathRises(ids: set<string>, edges: set<Edge>, order: seq<string>, p: seq<string>, i: nat, j: nat)
    requires Topological(ids, edges, order) && EdgesWithin(edges, ids) && IsPath(edges, p) && |p| >= 2
    requires i < |order| && j < |order| && order[i] == p[0] && order[j] == p[|p| - 1]
    ensures i < j
    decreases |p|
  {
    assert (p[0], p[1]) in edges;
    assert p[1] in Elements(order);
    var k :| 0 <= k < |order| && order[k] == p[1];
    assert (order[i], order[k]) in edges;
    if |p| > 2 {
      assert IsPath(edges, p[1..]) by {
        forall n | 0 <= n < |p[1..]| - 1 ensures (p[1..][n], p[1..][n + 1]) in edges { assert (p[n + 1], p[n + 2]) in edges; }
      }
      PathRises(ids, edges, order, p[1..], k, j);
    } else {
      assert order[k] == order[j];
      assert k == j;
    }
  }

  lemma TopologicalIsAcyclic(ids: set<string>, edges: set<Edge>, order: seq<string>)
    requires Topological(ids, edges, order) && EdgesWithin(edges, ids)
    ensures !Cyclic(edges)
  {
    if Cyclic(edges) {
      var p :| |p| >= 2 && IsPath(edges, p) && p[0] == p[|p| - 1];
      assert (p[0], p[1]) in edges;
      assert p[0] in Elements(order);
      var i :| 0 <= i < |order| && order[i] == p[0];
      PathRises(ids, edges, order, p, i, i);
    }
  }

  /** If nothing is ready and something is left, everything left has a predecessor that is left;
      walking back must repeat an ID. */
  lemma {:induction false} StuckIsCyclic(ids: set<string>, edges: set<Edge>, done: set<string>, p: seq<string>)
    requires EdgesWithin(edges, ids) && Stuck(ids, edges, done)
    requires IsPath(edges, p) && Distinct(p) && Elements(p) <= ids - done
    ensures Cyclic(edges)
    decreases |ids - done| - |p|
  {
    hide IsPath, Distinct, EdgesWithin;
    PathNonempty(edges, p);
    assert p[0] in Elements(p);
    assert !Ready(ids, edges, done, p[0]);
    var x :| x in Preds(edges, p[0]) && x !in done;
    assert (x, p[0]) in edges;
    PathExtends(edges, x, p);
    if x in p {
      ClosedPath(edges, x, p);
    } else {
      InIds(ids, edges, x, p[0]);
      assert Elements([x] + p) == Elements(p) + {x};
      ConsDistinct(x, p);
      DistinctSize([x] + p);
      SubsetSize(Elements([x] + p), ids - done);
      StuckIsCyclic(ids, edges, done, [x] + p);
    }
  }

  lemma PathNonempty(edges: set<Edge>, p: seq<string>)
    requires IsPath(edges, p)
    ensures |p| >= 1
  {}

  lemma InIds(ids: set<string>, edges: set<Edge>, x: string, y: string)
    requires EdgesWithin(edges, ids) && (x, y) in edges
    ensures x in ids && y in ids
  {}

  lemma ConsDistinct(x: string, p: seq<string>)
    requires Distinct(p) && x !in p
    ensures Distinct([x] + p)
  {}

  lemma PathExtends(edges: set<Edge>, x: string, p: seq<string>)
    requires IsPath(edges, p) && (x, p[0]) in edges
    ensures IsPath(edges, [x] + p)
  {}

  lemma ClosedPath(edges: set<Edge>, x: string, p: seq<string>)
    requires IsPath(edges, [x] + p) && x in p
    ensures Cyclic(edges)
  {
    var q := [x] + p;
    var j :| 0 <= j < |p| && p[j] == x;
    var c := q[..j + 2];
    forall i | 0 <= i < |c| - 1 ensures (c[i], c[i + 1]) in edges { assert (q[i], q[i + 1]) in edges; }
    assert IsPath(edges, c) && c[0] == x && c[|c| - 1] == p[j];
  }

  lemma {:induction false} DistinctSize(xs: seq<string>)
    requires Distinct(xs)
    ensures |Elements(xs)| == |xs|
  {
    if xs != [] {
      assert xs == [xs[0]] + xs[1..];
      DistinctSize(xs[1..]);
      assert Elements(xs) == {xs[0]} + Elements(xs[1..]);
    }
  }

  /** The two outcomes of the ordering loop: complete exactly when the edges have no cycle. */
  lemma CompleteIffAcyclic(ids: set<string>, edges: set<Edge>, less: Order, order: seq<string>)
    requires EdgesWithin(edges, ids) && Greedy(ids, edges, less, order) && Stuck(ids, edges, Elements(order))
    ensures |order| == |ids| <==> !Cyclic(edges)
    ensures |order| == |ids| ==> Topological(ids, edges, order)
  {
    GreedyDistinct(ids, edges, less, order);
    DistinctSize(order);
    if Elements(order) == ids {
      GreedyIsTopological(ids, edges, less, order);
      TopologicalIsAcyclic(ids, edges, order);
    } else {
      var x :| x in ids && x !in Elements(order);
      assert ids == Elements(order) + (ids - Elements(order));
      assert x in ids - Elements(order);
      StuckIsCyclic(ids, edges, Elements(order), [x]);
    }
  }

  // ---- the loop ----------------------------------------------------------

  ghost function ReadySet(ids: set<string>, edges: set<Edge>, done: set<string>): set<string> {
    set x | x in ids && Ready(ids, edges, done, x)
  }

  /** `inbound` counts, for every ID, the predecessors that are not done. */
  ghost predicate Counts(ids: set<string>, edges: set<Edge>, done: set<string>, inbound: map<string, int>) {
    inbound.Keys == ids && forall t :: t in ids ==> inbound[t] == |Preds(edges, t) - done|
  }

  function TargetsOf(outbound: map<string, seq<string>>, id: string): seq<string> {
    if id in outbound then outbound[id] else []
  }

  /** `outbound` lists the successors of every ID once. */
  ghost predicate Lists(edges: set<Edge>, outbound: map<string, seq<string>>) {
    forall f :: Distinct(TargetsOf(outbound, f)) && Elements(TargetsOf(outbound, f)) == Succs(edges, f)
  }

  /** IDs that are done have all their predecessors done. */
  ghost predicate Closed(edges: set<Edge>, done: set<string>) { forall t :: t in done ==> Preds(edges, t) <= done }

  lemma ReleaseFacts(ids: set<string>, edges: set<Edge>, done: set<string>, id: string, t: string)
    requires EdgesWithin(edges, ids) && Closed(edges, done) && Ready(ids, edges, done, id) && t in ids
    ensures t in Succs(edges, id) ==>
      && t != id && t !in done && !Ready(ids, edges, done, t)
      && |Preds(edges, t) - (done + {id})| == |Preds(edges, t) - done| - 1
    ensures t !in Succs(edges, id) ==>
      && Preds(edges, t) - (done + {id}) == Preds(edges, t) - done
      && (t != id ==> (Ready(ids, edges, done + {id}, t) <==> Ready(ids, edges, done, t)))
    ensures |Preds(edges, t) - (done + {id})| == 0 <==> Preds(edges, t) <= done + {id}
  {
    var rest, left := Preds(edges, t) - done, Preds(edges, t) - (done + {id});
    if t in Succs(edges, id) {
      assert (id, t) in edges;
      assert (id, t).0 in Preds(edges, t);
      assert rest == left + {id};
    } else {
      assert id in Preds(edges, t) ==> (id, t) in edges;
      assert (id, t) in edges ==> (id, t).1 in Succs(edges, id);
    }
    assert left == {} <==> Preds(edges, t) <= done + {id};
  }

  /** Predecessor counts when only the targets in `seen` have been visited this round. */
  ghost predicate PartlyCounted(ids: set<string>, edges: set<Edge>, done: set<string>, id: string,
                                seen: set<string>, inbound: map<string, int>) {
    && inbound.Keys == ids
    && forall t :: t in ids ==> inbound[t] == |Preds(edges, t) - (if t in seen then done + {id} else done)|
  }

  ghost function Unblocked(edges: set<Edge>, done: set<string>, seen: set<string>): set<string> {
    set t | t in seen && Preds(edges, t) <= done
  }

  /** One round's inner loop: every successor of the taken ID loses one predecessor, and those
      that have none left join the ready list. */
  method Release(ghost ids: set<string>, ghost edges: set<Edge>, ghost done: set<string>, id: string,
                 targets: seq<string>, inbound: map<string, int>, ready: seq<string>)
    returns (inbound': map<string, int>, ready': seq<string>)
    requires EdgesWithin(edges, ids) && Closed(edges, done) && Ready(ids, edges, done, id)
    requires Counts(ids, edges, done, inbound) && Distinct(targets) && Elements(targets) == Succs(edges, id)
    requires Distinct(ready) && Elements(ready) == ReadySet(ids, edges, done) - {id}
    ensures Counts(ids, edges, done + {id}, inbound')
    ensures Distinct(ready') && Elements(ready') == ReadySet(ids, edges, done + {id})
  {
    hide Ready, Closed, EdgesWithin, Distinct, Counts, ReadySet, Unblocked, Preds, Succs;
    inbound', ready' := inbound, ready;
    TargetsInIds(ids, edges, id, targets);
    StartRelease(ids, edges, done, id, inbound);
    assert Elements(targets[..0]) == {};
    for i := 0 to |targets|
      invariant PartlyCounted(ids, edges, done, id, Elements(targets[..i]), inbound')
      invariant Distinct(ready')
      invariant Elements(ready') == Elements(ready) + Unblocked(edges, done + {id}, Elements(targets[..i]))
    {
      var target := targets[i];
      ReleaseOne(ids, edges, done, id, targets, i, inbound', ready, ready');
      inbound' := inbound'[target := inbound'[target] - 1];
      if inbound'[target] == 0 { ready' := ready' + [target]; }
    }
    assert targets[..|targets|] == targets;
    Released(ids, edges, done, id, inbound');
  }

  lemma StartRelease(ids: set<string>, edges: set<Edge>, done: set<string>, id: string, inbound: map<string, int>)
    requires Counts(ids, edges, done, inbound)
    ensures PartlyCounted(ids, edges, done, id, {}, inbound) && Unblocked(edges, done + {id}, {}) == {}
  {}

  lemma ReleaseOne(ids: set<string>, edges: set<Edge>, done: set<string>, id: string, targets: seq<string>, i: nat,
                   inbound: map<string, int>, ready: seq<string>, ready': seq<string>)
    requires EdgesWithin(edges, ids) && Closed(edges, done) && Ready(ids, edges, done, id)
    requires i < |targets| && Distinct(targets) && targets[i] in ids && targets[i] in Succs(edges, id)
    requires PartlyCounted(ids, edges, done, id, Elements(targets[..i]), inbound)
    requires Elements(ready) == ReadySet(ids, edges, done) - {id} && Distinct(ready')
    requires Elements(ready') == Elements(ready) + Unblocked(edges, done + {id}, Elements(targets[..i]))
    ensures var t, seen := targets[i], Elements(targets[..i + 1]);
            && PartlyCounted(ids, edges, done, id, seen, inbound[t := inbound[t] - 1])
            && if inbound[t] - 1 == 0
               then Distinct(ready' + [t]) && Elements(ready' + [t]) == Elements(ready) + Unblocked(edges, done + {id}, seen)
               else Elements(ready') == Elements(ready) + Unblocked(edges, done + {id}, seen)
  {
    hide Ready, Closed, EdgesWithin, Preds, Succs, Distinct, ReadySet, Unblocked, PartlyCounted;
    var t := targets[i];
    ReleaseFacts(ids, edges, done, id, t);
    VisitOne(targets, i);
    CountOne(ids, edges, done, id, Elements(targets[..i]), t, inbound);
    UnblockOne(edges, done + {id}, Elements(targets[..i]), t);
    assert t !in ReadySet(ids, edges, done) by { NotReady(ids, edges, done, t); }
    JoinOne(ready', t);
  }

  lemma NotReady(ids: set<string>, edges: set<Edge>, done: set<string>, t: string)
    requires !Ready(ids, edges, done, t)
    ensures t !in ReadySet(ids, edges, done)
  {}

  lemma CountOne(ids: set<string>, edges: set<Edge>, done: set<string>, id: string, seen: set<string>, t: string, inbound: map<string, int>)
    requires PartlyCounted(ids, edges, done, id, seen, inbound) && t in ids && t !in seen
    requires |Preds(edges, t) - (done + {id})| == |Preds(edges, t) - done| - 1
    ensures PartlyCounted(ids, edges, done, id, seen + {t}, inbound[t := inbound[t] - 1])
    ensures inbound[t] - 1 == |Preds(edges, t) - (done + {id})|
  {
    hide Preds;
    assert inbound[t := inbound[t] - 1].Keys == ids;
  }

  lemma VisitOne(targets: seq<string>, i: nat)
    requires i < |targets| && Distinct(targets)
    ensures Elements(targets[..i + 1]) == Elements(targets[..i]) + {targets[i]} && targets[i] !in Elements(targets[..i])
  {}

  lemma UnblockOne(edges: set<Edge>, done: set<string>, seen: set<string>, t: string)
    ensures Unblocked(edges, done, seen + {t}) == Unblocked(edges, done, seen) + (if Preds(edges, t) <= done then {t} else {})
    ensures t !in seen ==> t !in Unblocked(edges, done, seen)
  {}

  lemma JoinOne(ready: seq<string>, t: string)
    requires Distinct(ready) && t !in Elements(ready)
    ensures Distinct(ready + [t]) && Elements(ready + [t]) == Elements(ready) + {t}
  {}

  lemma TargetsInIds(ids: set<string>, edges: set<Edge>, id: string, targets: seq<string>)
    requires EdgesWithin(edges, ids) && Elements(targets) == Succs(edges, id)
    ensures forall i :: 0 <= i < |targets| ==> targets[i] in ids && targets[i] in Succs(edges, id)
  {}

  lemma Released(ids: set<string>, edges: set<Edge>, done: set<string>, id: string, inbound: map<string, int>)
    requires EdgesWithin(edges, ids) && Closed(edges, done) && Ready(ids, edges, done, id)
    requires PartlyCounted(ids, edges, done, id, Succs(edges, id), inbound)
    ensures Counts(ids, edges, done + {id}, inbound)
    ensures ReadySet(ids, edges, done) - {id} + Unblocked(edges, done + {id}, Succs(edges, id)) == ReadySet(ids, edges, done + {id})
  {
    hide Closed, Preds;
    forall t | t in Succs(edges, id) ensures t in ids { assert (id, t) in edges; }
    forall t | t in ids
      ensures inbound[t] == |Preds(edges, t) - (done + {id})|
      ensures Ready(ids, edges, done + {id}, t) <==>
        (Ready(ids, edges, done, t) && t != id) || (t in Succs(edges, id) && Preds(edges, t) <= done + {id})
    {
      ReleaseFacts(ids, edges, done, id, t);
    }
  }

  /** The ready IDs at the start: those without predecessors. */
  method CollectReady(inbound: map<string, int>) returns (ready: seq<string>)
    ensures Distinct(ready) && forall id :: id in ready <==> id in inbound && inbound[id] == 0
  {
    ready := [];
    var todo := inbound.Keys;
    while todo != {}
      invariant todo <= inbound.Keys && Distinct(ready)
      invariant forall id :: id in ready <==> id in inbound && id !in todo && inbound[id] == 0
      decreases |todo|
    {
      var id :| id in todo;
      if inbound[id] == 0 { ready := ready + [id]; }
      todo := todo - {id};
    }
  }

  /** Taking the head of the sorted ready list extends the greedy order. */
  lemma TakeLeast(ids: set<string>, edges: set<Edge>, less: Order, order: seq<string>, ready: seq<string>)
    requires Greedy(ids, edges, less, order) && ready != [] && SortedBy(ready, less)
    requires Elements(ready) == ReadySet(ids, edges, Elements(order))
    ensures Greedy(ids, edges, less, order + [ready[0]]) && Ready(ids, edges, Elements(order), ready[0])
    ensures Elements(order + [ready[0]]) == Elements(order) + {ready[0]}
  {
    var order' := order + [ready[0]];
    assert ready[0] in Elements(ready);
    forall x | Ready(ids, edges, Elements(order), x) && x != ready[0] ensures less(ready[0], x) {
      assert x in Elements(ready);
      var j :| 0 <= j < |ready| && ready[j] == x;
    }
    forall i | 0 <= i < |order'| ensures LeastReady(ids, edges, less, Elements(order'[..i]), order'[i]) {
      if i < |order| {
        assert order'[..i] == order[..i];
        assert LeastReady(ids, edges, less, Elements(order[..i]), order[i]);
      } else {
        assert order'[..i] == order;
      }
    }
  }

  lemma GreedyClosed(ids: set<string>, edges: set<Edge>, less: Order, order: seq<string>)
    requires Greedy(ids, edges, less, order)
    ensures Closed(edges, Elements(order))
  {}

  lemma TailOfSorted(ready: seq<string>, less: Order, ids: set<string>)
    requires TotalOn(less, ids) && ready != [] && SortedBy(ready, less) && Elements(ready) <= ids
    ensures Distinct(ready[1..]) && Elements(ready[1..]) == Elements(ready) - {ready[0]}
  {}

  /** The main loop of `sortInvocationGraphNodes`. */
  method Kahn(ghost ids: set<string>, ghost edges: set<Edge>, inbound0: map<string, int>,
              outbound: map<string, seq<string>>, less: Order)
    returns (ordered: seq<string>)
    requires TotalOn(less, ids) && EdgesWithin(edges, ids) && Counts(ids, edges, {}, inbound0) && Lists(edges, outbound)
    ensures Greedy(ids, edges, less, ordered) && Stuck(ids, edges, Elements(ordered))
  {
    hide TotalOn, EdgesWithin, Greedy, SortedBy, Distinct, Closed, Ready;
    var inbound := inbound0;
    var ready := CollectReady(inbound);
    InitiallyReady(ids, edges, inbound, ready);
    SortBySorts(ready, less, ids);
    ready := SortBy(ready, less);
    ordered := [];
    NothingYet(ids, edges, less);
    while |ready| > 0
      invariant Greedy(ids, edges, less, ordered) && Counts(ids, edges, Elements(ordered), inbound)
      invariant SortedBy(ready, less) && Elements(ready) == ReadySet(ids, edges, Elements(ordered))
      decreases |ids| - |ordered|
    {
      var id := ready[0];
      ghost var done := Elements(ordered);
      TakeLeast(ids, edges, less, ordered, ready);
      GreedyClosed(ids, edges, less, ordered);
      TailOfSorted(ready, less, ids);
      OrderBounded(ids, edges, less, ordered + [id]);
      ready := ready[1..];
      ordered := ordered + [id];
      var targets := SuccessorsSorted(ids, edges, outbound, less, id);
      inbound, ready := Release(ids, edges, done, id, targets, inbound, ready);
      SortBySorts(ready, less, ids);
      ready := SortBy(ready, less);
    }
    NoneReady(ids, edges, Elements(ordered), ready);
  }

  method SuccessorsSorted(ghost ids: set<string>, ghost edges: set<Edge>, outbound: map<string, seq<string>>, less: Order, id: string)
    returns (targets: seq<string>)
    requires TotalOn(less, ids) && EdgesWithin(edges, ids) && Lists(edges, outbound)
    ensures Distinct(targets) && Elements(targets) == Succs(edges, id)
  {
    hide TotalOn;
    var listed := TargetsOf(outbound, id);
    assert Distinct(listed) && Elements(listed) == Succs(edges, id);
    SortBySorts(listed, less, ids);
    targets := SortBy(listed, less);
    SortedDistinct(targets, less, ids);
  }

  lemma InitiallyReady(ids: set<string>, edges: set<Edge>, inbound: map<string, int>, ready: seq<string>)
    requires Counts(ids, edges, {}, inbound) && forall id :: id in ready <==> id in inbound && inbound[id] == 0
    ensures Elements(ready) == ReadySet(ids, edges, {})
  {
    hide Preds;
    assert forall id :: id in ready <==> id in Elements(ready);
    forall id | id in ids ensures id in Elements(ready) <==> id in ReadySet(ids, edges, {}) {
      assert Preds(edges, id) - {} == Preds(edges, id);
    }
  }

  lemma NothingYet(ids: set<string>, edges: set<Edge>, less: Order)
    ensures Greedy(ids, edges, less, []) && Elements<string>([]) == {}
  {}

  lemma OrderBounded(ids: set<string>, edges: set<Edge>, less: Order, order: seq<string>)
    requires Greedy(ids, edges, less, order)
    ensures |order| <= |ids|
  {
    GreedyDistinct(ids, edges, less, order);
    DistinctSize(order);
    SubsetSize(Elements(order), ids);
  }

  lemma NoneReady(ids: set<string>, edges: set<Edge>, done: set<string>, ready: seq<string>)
    requires ready == [] && Elements(ready) == ReadySet(ids, edges, done)
    ensures Stuck(ids, edges, done)
  {
    forall x ensures !Ready(ids, edges, done, x) { assert Ready(ids, edges, done, x) ==> x in ReadySet(ids, edges, done); }
  }
}
