/** `Trajectory.Branch` of `sdk/trajectory.go`: the walk from a head entry along parents to the
    root, for any entries, including cyclic and dangling parents and repeated identifiers. */
module Branch {
  import opened Outcome

  /** `body` stands for everything of an entry that the walk only copies. */
  datatype Entry = Entry(id: string, parent: string, body: string)

  datatype Error = UnknownEntry(id: string) | Cycle(id: string)

  // ---- the parent walk, independently of how it is computed ---------------

  /** The last entry carrying an identifier wins. */
  function Lookup(entries: seq<Entry>, id: string): (r: Option<Entry>)
    ensures r.Some? ==> r.value in entries && r.value.id == id
    ensures r.None? ==> forall i :: 0 <= i < |entries| ==> entries[i].id != id
  {
    if entries == [] then None else
      var last := entries[|entries| - 1];
      if last.id == id then Some(last) else Lookup(entries[..|entries| - 1], id)
  }

  lemma {:induction false} LookupIsLast(entries: seq<Entry>, id: string) returns (i: nat)
    requires Lookup(entries, id).Some?
    ensures i < |entries| && Lookup(entries, id) == Some(entries[i]) && forall j :: i < j < |entries| ==> entries[j].id != id
  {
    var k := |entries| - 1;
    if entries[k].id == id { return k; }
    i := LookupIsLast(entries[..k], id);
  }

  /** The parent of a cursor; the walk rests at the root and is lost at an unknown entry. */
  function Up(entries: seq<Entry>, cursor: Option<string>): Option<string> {
    if cursor == None || cursor == Some("") then cursor
    else match Lookup(entries, cursor.value)
      case None => None
      case Some(e) => Some(e.parent)
  }

  function Ancestor(entries: seq<Entry>, head: string, n: nat): Option<string> {
    if n == 0 then Some(head) else Up(entries, Ancestor(entries, head, n - 1))
  }

  ghost predicate ReachesRoot(entries: seq<Entry>, head: string) {
    exists n: nat :: Ancestor(entries, head, n) == Some("")
  }

  ghost predicate Dangles(entries: seq<Entry>, head: string, at: string) {
    at != "" && Lookup(entries, at) == None && exists n: nat :: Ancestor(entries, head, n) == Some(at)
  }

  ghost predicate Returns(entries: seq<Entry>, head: string, at: string) {
    at != "" && exists i, j :: 0 <= i < j && Ancestor(entries, head, i) == Ancestor(entries, head, j) == Some(at)
  }

  /** Root first, head last, every entry right after its parent, no identifier twice. */
  ghost predicate IsBranch(entries: seq<Entry>, head: string, path: seq<Entry>) {
    if head == "" then path == [] else
      && path != [] && path[|path| - 1].id == head && path[0].parent == ""
      && (forall i :: 0 <= i < |path| ==> path[i].id != "" && Lookup(entries, path[i].id) == Some(path[i]))
      && (forall i, j :: 0 <= i < j < |path| && j == i + 1 ==> path[j].parent == path[i].id)
      && (forall i, j :: 0 <= i < j < |path| ==> path[i].id != path[j].id)
  }

  // ---- the three outcomes exclude each other ------------------------------

  lemma {:induction false} StepsAdd(entries: seq<Entry>, head: string, i: nat, k: nat, at: string)
    requires Ancestor(entries, head, i) == Some(at)
    ensures Ancestor(entries, head, i + k) == Ancestor(entries, at, k)
  {
    if k > 0 { StepsAdd(entries, head, i, k - 1, at); }
  }

  lemma {:induction false} RestsAtRoot(entries: seq<Entry>, head: string, n: nat, m: nat)
    requires n <= m && Ancestor(entries, head, n) == Some("")
    ensures Ancestor(entries, head, m) == Some("")
  {
    if n < m { RestsAtRoot(entries, head, n, m - 1); }
  }

  lemma {:induction false} StaysLost(entries: seq<Entry>, head: string, n: nat, m: nat)
    requires n <= m && Ancestor(entries, head, n) == None
    ensures Ancestor(entries, head, m) == None
  {
    if n < m { StaysLost(entries, head, n, m - 1); }
  }

  /** A walk that comes back to an entry comes back for ever. */
  lemma {:induction false} GoesRound(entries: seq<Entry>, head: string, i: nat, j: nat, at: string, n: nat) returns (m: nat)
    requires i < j && Ancestor(entries, head, i) == Ancestor(entries, head, j) == Some(at)
    ensures n <= m && Ancestor(entries, head, m) == Some(at)
  {
    hide Ancestor;
    if n == 0 { return i; }
    m := GoesRound(entries, head, i, j, at, n - 1);
    if m < n {
      StepsAdd(entries, head, m, j - i, at);
      StepsAdd(entries, head, i, j - i, at);
      m := m + (j - i);
    }
  }

  lemma RootOrDangling(entries: seq<Entry>, head: string, at: string)
    requires Dangles(entries, head, at)
    ensures !ReachesRoot(entries, head)
  {
    var n: nat :| Ancestor(entries, head, n) == Some(at);
    forall m: nat ensures Ancestor(entries, head, m) != Some("") {
      if Ancestor(entries, head, m) == Some("") {
        if m <= n { RestsAtRoot(entries, head, m, n); } else {
          assert Ancestor(entries, head, n + 1) == None;
          StaysLost(entries, head, n + 1, m);
        }
        assert false;
      }
    }
  }

  lemma RootOrCycle(entries: seq<Entry>, head: string, at: string)
    requires Returns(entries, head, at)
    ensures !ReachesRoot(entries, head)
  {
    var i, j :| 0 <= i < j && Ancestor(entries, head, i) == Ancestor(entries, head, j) == Some(at);
    forall m: nat ensures Ancestor(entries, head, m) != Some("") {
      if Ancestor(entries, head, m) == Some("") {
        var later := GoesRound(entries, head, i, j, at, m);
        RestsAtRoot(entries, head, m, later);
        assert false;
      }
    }
  }

  lemma CycleOrDangling(entries: seq<Entry>, head: string, at: string, end: string)
    requires Returns(entries, head, at)
    ensures !Dangles(entries, head, end)
  {
    if Dangles(entries, head, end) {
      var i, j :| 0 <= i < j && Ancestor(entries, head, i) == Ancestor(entries, head, j) == Some(at);
      var n: nat :| Ancestor(entries, head, n) == Some(end);
      var later := GoesRound(entries, head, i, j, at, n + 1);
      assert Ancestor(entries, head, n + 1) == None;
      StaysLost(entries, head, n + 1, later);
      assert false;
    }
  }

  // ---- branches ----------------------------------------------------------

  lemma {:induction false} BranchWalks(entries: seq<Entry>, head: string, path: seq<Entry>, k: nat)
    requires IsBranch(entries, head, path) && k <= |path|
    ensures Ancestor(entries, head, k) == Some(if k < |path| then path[|path| - 1 - k].id else "")
  {
    if k > 0 { BranchWalks(entries, head, path, k - 1); }
  }

  /** A branch exists only where the parent chain reaches the root. */
  lemma BranchReachesRoot(entries: seq<Entry>, head: string, path: seq<Entry>)
    requires IsBranch(entries, head, path)
    ensures ReachesRoot(entries, head)
  {
    BranchWalks(entries, head, path, |path|);
  }

  lemma {:induction false} BranchNotLonger(entries: seq<Entry>, head: string, a: seq<Entry>, b: seq<Entry>)
    requires IsBranch(entries, head, a) && IsBranch(entries, head, b)
    ensures |a| >= |b|
  {
    if |a| < |b| {
      BranchWalks(entries, head, a, |a|);
      BranchWalks(entries, head, b, |a|);
      assert false;
    }
  }

  /** The entries and the head determine the branch. */
  lemma BranchUnique(entries: seq<Entry>, head: string, a: seq<Entry>, b: seq<Entry>)
    requires IsBranch(entries, head, a) && IsBranch(entries, head, b)
    ensures a == b
  {
    BranchNotLonger(entries, head, a, b);
    BranchNotLonger(entries, head, b, a);
    forall i | 0 <= i < |a| ensures a[i] == b[i] {
      BranchWalks(entries, head, a, |a| - 1 - i);
      BranchWalks(entries, head, b, |a| - 1 - i);
    }
  }

  // ---- the code ----------------------------------------------------------

  method IndexEntries(entries: seq<Entry>) returns (index: map<string, Entry>)
    ensures forall id :: Lookup(entries, id) == (if id in index then Some(index[id]) else None)
  {
    index := map[];
    for k := 0 to |entries|
      invariant forall id :: Lookup(entries[..k], id) == (if id in index then Some(index[id]) else None)
    {
      assert entries[..k + 1][..k] == entries[..k];
      index := index[entries[k].id := entries[k]];
    }
    assert entries[..|entries|] == entries;
  }

  /** `up` is the walk so far, head first; `cursor` is where it goes on. */
  ghost predicate Walked(entries: seq<Entry>, head: string, up: seq<Entry>, cursor: string) {
    && (forall i :: 0 <= i < |up| ==>
          up[i].id != "" && Lookup(entries, up[i].id) == Some(up[i]) && Ancestor(entries, head, i) == Some(up[i].id))
    && (forall i, j :: 0 <= i < j < |up| ==> up[i].id != up[j].id)
    && (forall i, j :: 0 <= i < j < |up| && j == i + 1 ==> up[j].id == up[i].parent)
    && (if up == [] then cursor == head else up[0].id == head && cursor == up[|up| - 1].parent)
    && Ancestor(entries, head, |up|) == Some(cursor)
  }

  function Reversed(xs: seq<Entry>): (ys: seq<Entry>)
    ensures |ys| == |xs| && forall i :: 0 <= i < |xs| ==> ys[i] == xs[|xs| - 1 - i]
  {
    seq(|xs|, i requires 0 <= i < |xs| => xs[|xs| - 1 - i])
  }

  lemma WalkedIsBranch(entries: seq<Entry>, head: string, up: seq<Entry>)
    requires Walked(entries, head, up, "") && head != ""
    ensures IsBranch(entries, head, Reversed(up)) && ReachesRoot(entries, head)
  {
    hide Lookup, Ancestor;
  }

  /** Terminates on any entries; succeeds exactly when the parent chain reaches the root, and
      then returns the branch; each failure names the entry that causes it. */
  method Branch(entries: seq<Entry>, head: string) returns (r: Result<seq<Entry>, Error>)
    ensures r.Ok? <==> ReachesRoot(entries, head)
    ensures r.Ok? ==> IsBranch(entries, head, r.value)
    ensures r.Err? && r.error.UnknownEntry? <==> exists at :: Dangles(entries, head, at)
    ensures r.Err? && r.error.UnknownEntry? ==> Dangles(entries, head, r.error.id)
    ensures r.Err? && r.error.Cycle? <==> exists at :: Returns(entries, head, at)
    ensures r.Err? && r.error.Cycle? ==> Returns(entries, head, r.error.id)
  {
    r := Walk(entries, head);
    Excluded(entries, head);
  }

  lemma Excluded(entries: seq<Entry>, head: string)
    ensures forall at :: Dangles(entries, head, at) ==> !ReachesRoot(entries, head)
    ensures forall at :: Returns(entries, head, at) ==> !ReachesRoot(entries, head)
    ensures forall at, end :: Returns(entries, head, at) ==> !Dangles(entries, head, end)
  {
    hide Dangles, Returns, ReachesRoot;
    forall at | Dangles(entries, head, at) ensures !ReachesRoot(entries, head) { RootOrDangling(entries, head, at); }
    forall at | Returns(entries, head, at) ensures !ReachesRoot(entries, head) { RootOrCycle(entries, head, at); }
    forall at, end | Returns(entries, head, at) ensures !Dangles(entries, head, end) { CycleOrDangling(entries, head, at, end); }
  }

  ghost function Ids(up: seq<Entry>): set<string> { set i | 0 <= i < |up| :: up[i].id }

  lemma EmptyHead(entries: seq<Entry>)
    ensures IsBranch(entries, "", []) && ReachesRoot(entries, "")
  {
    assert Ancestor(entries, "", 0) == Some("");
  }

  lemma WalkStarts(entries: seq<Entry>, head: string)
    ensures Walked(entries, head, [], head) && Ids([]) == {}
  {}

  lemma WalkReturns(entries: seq<Entry>, head: string, up: seq<Entry>, cursor: string)
    requires Walked(entries, head, up, cursor) && cursor != "" && cursor in Ids(up)
    ensures Returns(entries, head, cursor)
  {}

  lemma WalkEnds(entries: seq<Entry>, head: string, up: seq<Entry>, cursor: string)
    requires Walked(entries, head, up, cursor) && cursor != "" && Lookup(entries, cursor) == None
    ensures Dangles(entries, head, cursor)
  {}

  method Walk(entries: seq<Entry>, head: string) returns (r: Result<seq<Entry>, Error>)
    ensures match r
      case Ok(path) => IsBranch(entries, head, path) && ReachesRoot(entries, head)
      case Err(UnknownEntry(at)) => Dangles(entries, head, at)
      case Err(Cycle(at)) => Returns(entries, head, at)
  {
    hide Walked, Lookup, Ids, IsBranch, ReachesRoot, Dangles, Returns;
    if head == "" {
      EmptyHead(entries);
      return Ok([]);
    }
    var index := IndexEntries(entries);
    var result: seq<Entry> := [];
    var seen: set<string> := {};
    var cursor := head;
    WalkStarts(entries, head);
    while cursor != ""
      invariant Walked(entries, head, result, cursor)
      invariant seen == Ids(result) && seen <= index.Keys
      decreases |index.Keys - seen|
    {
      if cursor in seen {
        WalkReturns(entries, head, result, cursor);
        return Err(Cycle(cursor));
      }
      if cursor !in index {
        WalkEnds(entries, head, result, cursor);
        return Err(UnknownEntry(cursor));
      }
      assert index.Keys - (seen + {cursor}) == (index.Keys - seen) - {cursor};
      WalkOn(entries, head, result, cursor, index[cursor]);
      seen := seen + {cursor};
      result := result + [index[cursor]];
      cursor := index[cursor].parent;
    }
    WalkedIsBranch(entries, head, result);
    r := Ok(Reversed(result));
  }

  lemma WalkOn(entries: seq<Entry>, head: string, up: seq<Entry>, cursor: string, e: Entry)
    requires Walked(entries, head, up, cursor) && cursor != "" && cursor !in Ids(up)
    requires Lookup(entries, cursor) == Some(e)
    ensures Walked(entries, head, up + [e], e.parent) && Ids(up + [e]) == Ids(up) + {cursor}
  {
    var more := up + [e];
    assert e.id == cursor;
    assert Ancestor(entries, head, |more|) == Some(e.parent);
    hide Lookup, Ancestor;
    forall i | 0 <= i < |up| ensures up[i].id != cursor { assert up[i].id in Ids(up); }
    IdsGrow(up, e);
  }

  lemma IdsGrow(up: seq<Entry>, e: Entry)
    ensures Ids(up + [e]) == Ids(up) + {e.id}
  {
    var more := up + [e];
    assert more[|up|] == e;
    forall x | x in Ids(up) ensures x in Ids(more) {
      var i :| 0 <= i < |up| && up[i].id == x;
      assert more[i].id == x;
    }
  }
}
