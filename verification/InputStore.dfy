/** The SQL input store of gateway/input_store_gorm.go as a protocol: any number of processes
    each read all rows of a session, later read its cursor, decide, and then write one row, by
    compare-and-swap on its revision or by insertion together with the cursor.  No step locks
    more than the row it writes. */
module InputStore {
  import opened Outcome
  import opened InputQueue
  import Text

  datatype Table = Table(rows: map<nat, Input>, cursor: Option<nat>)

  const EMPTY_TABLE := Table(map[], None)

  datatype Request =
    | Submit(input: Input)
    | TakeNext
    | Attach(id: string, executionId: string, valid: bool)
    | Finish(id: string, state: InputState, lastError: string)
    | Cancel(id: string, expectedRevision: nat)

  /** Where a process stands inside one store call. */
  datatype Process =
    | Idle
    | Snapshotted(request: Request, rows: seq<Input>)
    | Inserting(row: Input, next: nat)
    | Saving(first: bool, input: Input, expected: nat)   // first: this is a first acquisition

  /** One session's table, the processes, and the sequences acquired so far, in order. */
  datatype System = System(session: string, table: Table, procs: map<nat, Process>, acquired: seq<nat>)

  datatype Step =
    | ReadRows(p: nat, request: Request)
    | ReadCursorAndDecide(p: nat, now: int)
    | Write(p: nat)
    | Abort(p: nat)

  // ---- statements --------------------------------------------------------

  ghost function Largest(s: set<nat>): (m: nat)
    requires s != {}
    ensures m in s && forall x :: x in s ==> x <= m
  {
    var x :| x in s;
    if s == {x} then x else
      var rest := Largest(s - {x});
      assert forall y :: y in s ==> y == x || y in s - {x};
      if x > rest then x else rest
  }

  ghost predicate Climbing(ks: seq<nat>) { forall i, j :: 0 <= i < j < |ks| ==> ks[i] < ks[j] }

  ghost function Ascend(s: set<nat>): (ks: seq<nat>)
    ensures |ks| == |s| && Text.Elements(ks) == s && Climbing(ks)
  {
    if s == {} then [] else
      var m := Largest(s);
      var front := Ascend(s - {m});
      AppendLargest(front, m, s);
      front + [m]
  }

  lemma AppendLargest(front: seq<nat>, m: nat, s: set<nat>)
    requires m in s && Text.Elements(front) == s - {m} && Climbing(front) && forall x :: x in s ==> x <= m
    ensures Text.Elements(front + [m]) == s && Climbing(front + [m])
  {
    assert forall i :: 0 <= i < |front| ==> front[i] in Text.Elements(front);
    assert Text.Elements(front + [m]) == Text.Elements(front) + {m};
  }

  /** `ORDER BY sequence ASC`. */
  ghost function Ordered(rows: map<nat, Input>): (xs: seq<Input>)
    ensures |xs| == |rows|
  {
    var ks := Ascend(rows.Keys);
    seq(|ks|, i requires 0 <= i < |ks| => assert ks[i] in Text.Elements(ks); rows[ks[i]])
  }

  /** `loadInputStreamLocked` after both reads. */
  function Load(cursor: Option<nat>, rows: seq<Input>): Stream {
    Stream(if cursor.Some? then cursor.value else if rows == [] then 1 else rows[|rows| - 1].sequence + 1, rows)
  }

  /** Validate the loaded stream, decide, and prepare the one write; refusals and repeats write nothing. */
  ghost function Decide(request: Request, stream: Stream, session: string, now: int): Process {
    if !Valid(stream, session) then Idle else
    match request
    case Submit(input) => (
      var r := Enqueue(stream, input, now);
      if r.Err? || !r.value.changed then Idle else Inserting(r.value.input, r.value.stream.nextSequence))
    case TakeNext => (
      var r := Acquire(stream, now);
      if r.Err? || !r.value.changed || r.value.acquired.None? then Idle
      else Prepared(true, r.value.acquired.value.input))
    case Attach(id, executionId, valid) => PreparedUpdate(Bind(stream, id, executionId, valid, now))
    case Finish(id, state, lastError) => PreparedUpdate(Complete(stream, id, state, lastError, now))
    case Cancel(id, expected) => PreparedUpdate(CancelQueued(stream, id, expected, now))
  }

  function PreparedUpdate(r: Result<Update, Error>): Process {
    if r.Err? || !r.value.changed then Idle else Prepared(false, r.value.input)
  }

  function Prepared(first: bool, input: Input): Process {
    if input.revision == 0 then Idle else Saving(first, input, input.revision - 1)
  }

  ghost predicate IdTaken(rows: map<nat, Input>, id: string) { exists s :: s in rows && rows[s].id == id }

  /** A look-up in the unique index on input IDs. */
  method IdIndexHas(rows: map<nat, Input>, id: string) returns (taken: bool)
    ensures taken <==> IdTaken(rows, id)
  {
    var todo := rows.Keys;
    while todo != {}
      invariant todo <= rows.Keys && forall s :: s in rows && s !in todo ==> rows[s].id != id
      decreases |todo|
    {
      var s :| s in todo;
      if rows[s].id == id { return true; }
      todo := todo - {s};
    }
    return false;
  }

  /** The insert transaction: primary key and ID index must be free; the cursor row follows. */
  ghost function InsertRow(t: Table, row: Input, next: nat): Table {
    if row.sequence in t.rows || IdTaken(t.rows, row.id) then t
    else Table(t.rows[row.sequence := row], Some(next))
  }

  /** The row is still at the expected revision. */
  predicate Applies(t: Table, input: Input, expected: nat) {
    input.sequence in t.rows && t.rows[input.sequence].revision == expected
  }

  /** `UPDATE ... WHERE sequence = ? AND revision = ?`. */
  function CompareAndSwap(t: Table, input: Input, expected: nat): Table {
    if Applies(t, input, expected)
    then t.(rows := t.rows[input.sequence := input]) else t
  }

  // ---- steps -------------------------------------------------------------

  function ProcOf(sys: System, p: nat): Process { if p in sys.procs then sys.procs[p] else Idle }

  ghost predicate Enabled(sys: System, step: Step) {
    match step
    case ReadRows(p, request) =>
      && ProcOf(sys, p).Idle?
      && (request.Submit? ==> request.input.sessionId == sys.session)
      && (request.Attach? && request.valid ==> request.executionId != "")
    case ReadCursorAndDecide(p, _) => ProcOf(sys, p).Snapshotted?
    case Write(p) => ProcOf(sys, p).Inserting? || ProcOf(sys, p).Saving?
    case Abort(p) => true
  }

  ghost predicate Keyed(t: Table) { forall s :: s in t.rows ==> t.rows[s].sequence == s }

  ghost function WrittenTable(t: Table, proc: Process): Table {
    match proc
    case Inserting(row, next) => InsertRow(t, row, next)
    case Saving(_, input, expected) => CompareAndSwap(t, input, expected)
    case _ => t
  }

  ghost function Next(sys: System, step: Step): System {
    match step
    case ReadRows(p, request) => sys.(procs := sys.procs[p := Snapshotted(request, Ordered(sys.table.rows))])
    case ReadCursorAndDecide(p, now) => (
      var proc := ProcOf(sys, p);
      if !proc.Snapshotted? then sys
      else sys.(procs := sys.procs[p := Decide(proc.request, Load(sys.table.cursor, proc.rows), sys.session, now)]))
    case Write(p) => (
      var proc := ProcOf(sys, p);
      var t' := WrittenTable(sys.table, proc);
      System(sys.session, t', sys.procs[p := Idle],
             if proc.Saving? && proc.first && t' != sys.table then sys.acquired + [proc.input.sequence] else sys.acquired))
    case Abort(p) => sys.(procs := sys.procs[p := Idle])
  }

  // ---- what holds of the table --------------------------------------------

  /** The revision of an input counts its transitions: at most queue, dispatch, bind, finish. */
  ghost predicate RowOk(x: Input, session: string) {
    && x.sessionId == session
    && match x.state
       case Queued => x.revision == 1 && x.executionId == ""
       case Dispatching => x.revision == (if x.executionId == "" then 2 else 3)
       case _ => 2 <= x.revision <= 4
  }

  ghost function UpTo(n: nat): (s: set<nat>)
    ensures forall k :: k in s <==> 1 <= k <= n
  {
    if n == 0 then {} else UpTo(n - 1) + {n}
  }

  ghost predicate Dense(t: Table) {
    && t.rows.Keys == UpTo(|t.rows|)
    && (t.cursor == Some(|t.rows| + 1) || (|t.rows| == 0 && t.cursor == None))
  }

  /** An input is dispatched only when all older ones are finished. */
  ghost predicate InOrder(t: Table) {
    forall s :: s in t.rows && t.rows[s].state == Dispatching ==> FinishedBefore(t, s)
  }

  ghost predicate RowsOk(t: Table, session: string) { forall s :: s in t.rows ==> RowOk(t.rows[s], session) }

  ghost predicate UniqueIds(t: Table) {
    forall s, r :: s in t.rows && r in t.rows && s != r ==> t.rows[s].id != t.rows[r].id
  }

  ghost predicate TableInv(t: Table, session: string) {
    Dense(t) && Keyed(t) && InOrder(t) && RowsOk(t, session) && UniqueIds(t)
  }

  /** One life-cycle transition. */
  ghost predicate Transition(a: Input, b: Input) {
    && b.revision == a.revision + 1
    && b.id == a.id && b.sessionId == a.sessionId && b.sequence == a.sequence && b.kind == a.kind && b.content == a.content
    && b.createdAt == a.createdAt
    && (|| (a.state == Queued && b.state == Dispatching && b.executionId == a.executionId)
        || (a.state == Queued && b.state == Cancelled && b.executionId == a.executionId)
        || (a.state == Dispatching && b.state == Dispatching && a.executionId == "" && b.executionId != "")
        || (a.state == Dispatching && b.state.Terminal() && b.executionId == a.executionId))
  }

  /** An earlier version of a row: equal revisions mean equal rows, and terminal rows are final. */
  ghost predicate Older(a: Input, b: Input, session: string) {
    && RowOk(a, session)
    && a.id == b.id && a.sequence == b.sequence
    && a.revision <= b.revision
    && (a.revision == b.revision ==> a == b)
    && (a.state.Terminal() ==> a == b)
  }

  ghost predicate FinishedBefore(t: Table, s: nat) {
    forall r :: r in t.rows && r < s ==> t.rows[r].state.Terminal()
  }

  ghost predicate Aligned(x: Input, s: nat, t: Table, session: string) {
    s in t.rows && x.sequence == s && Older(x, t.rows[s], session)
  }

  /** A snapshot holds earlier versions of the rows 1, 2, ..., up to some row. */
  ghost predicate SnapshotOf(rows: seq<Input>, t: Table, session: string) {
    |rows| <= |t.rows| && forall i :: 0 <= i < |rows| ==> Aligned(rows[i], i + 1, t, session)
  }

  /** A pending swap either no longer applies or is one transition of the current row. */
  ghost predicate SwapOf(t: Table, first: bool, input: Input, expected: nat) {
    && input.sequence in t.rows
    && expected <= t.rows[input.sequence].revision
    && (t.rows[input.sequence].revision == expected ==>
          && Transition(t.rows[input.sequence], input)
          && (first <==> t.rows[input.sequence].state == Queued && input.state == Dispatching)
          && (first ==> FinishedBefore(t, input.sequence)))
  }

  ghost predicate ProcInv(t: Table, proc: Process, session: string) {
    match proc
    case Idle => true
    case Snapshotted(request, rows) =>
      && SnapshotOf(rows, t, session) && OneDispatching(rows)
      && (request.Submit? ==> request.input.sessionId == session)
      && (request.Attach? && request.valid ==> request.executionId != "")
    case Inserting(row, next) =>
      1 <= row.sequence <= |t.rows| + 1 && next == row.sequence + 1 && row.state == Queued && RowOk(row, session)
    case Saving(first, input, expected) =>
      SwapOf(t, first, input, expected)
  }

  ghost predicate WasAcquired(t: Table, s: nat) { s in t.rows && t.rows[s].state != Queued && FinishedBefore(t, s) }

  ghost predicate AcquiredInOrder(t: Table, acquired: seq<nat>) {
    (forall i :: 0 <= i < |acquired| ==> WasAcquired(t, acquired[i])) && Climbing(acquired)
  }

  ghost predicate Inv(sys: System) {
    && TableInv(sys.table, sys.session)
    && (forall p :: p in sys.procs ==> ProcInv(sys.table, sys.procs[p], sys.session))
    && AcquiredInOrder(sys.table, sys.acquired)
  }
}
