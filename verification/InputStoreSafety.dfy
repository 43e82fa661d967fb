/** Why single-row writes suffice: the invariants of the input table under every interleaving. */
module InputStoreSafety {
  import opened Outcome
  import opened InputQueue
  import opened InputStore
  import Text

  // ---- reading -----------------------------------------------------------

  lemma {:induction false} RankedFrom(ks: seq<nat>, i: nat)
    requires i < |ks| && (forall j :: 0 <= j < |ks| ==> ks[j] >= 1) && Climbing(ks)
    ensures ks[i] >= i + 1
  {
    if i > 0 { RankedFrom(ks, i - 1); }
  }

  lemma {:induction false} RankedTo(ks: seq<nat>, i: nat, n: nat)
    requires i < |ks| && (forall j :: 0 <= j < |ks| ==> ks[j] <= n) && Climbing(ks)
    ensures ks[i] <= n - |ks| + i + 1
    decreases |ks| - i
  {
    if i + 1 < |ks| { RankedTo(ks, i + 1, n); }
  }

  /** In a dense table the ordered rows are rows 1, 2, ..., n. */
  lemma OrderedDense(t: Table, i: nat)
    requires Dense(t) && i < |t.rows|
    ensures i + 1 in t.rows && Ordered(t.rows)[i] == t.rows[i + 1]
  {
    hide Climbing;
    var ks := Ascend(t.rows.Keys);
    assert forall j :: 0 <= j < |ks| ==> ks[j] in Text.Elements(ks);
    RankedFrom(ks, i);
    RankedTo(ks, i, |t.rows|);
  }

  lemma SnapshotTaken(t: Table, session: string)
    requires TableInv(t, session)
    ensures SnapshotOf(Ordered(t.rows), t, session) && OneDispatching(Ordered(t.rows))
  {
    hide Ordered, Dense;
    var rows := Ordered(t.rows);
    forall i | 0 <= i < |rows| ensures Aligned(rows[i], i + 1, t, session) { OrderedDense(t, i); }
    forall i, j | 0 <= i < j < |rows| ensures !(rows[i].state == Dispatching && rows[j].state == Dispatching) {
      OrderedDense(t, i);
      OrderedDense(t, j);
      assert t.rows[j + 1].state == Dispatching ==> FinishedBefore(t, j + 1);
    }
  }

  // ---- deciding ----------------------------------------------------------

  /** A snapshot always loads: the cursor read later is never behind the rows read earlier. */
  lemma SnapshotLoads(t: Table, rows: seq<Input>, session: string)
    requires TableInv(t, session) && SnapshotOf(rows, t, session) && OneDispatching(rows)
    ensures Valid(Load(t.cursor, rows), session)
  {
    hide InOrder, RowsOk, Keyed, OneDispatching;
    forall i, j | 0 <= i < j < |rows| ensures rows[i].id != rows[j].id {
      assert Aligned(rows[i], i + 1, t, session) && Aligned(rows[j], j + 1, t, session);
    }
    forall i | 0 <= i < |rows| ensures RowOk(rows[i], session) && rows[i].sequence == i + 1 {
      assert Aligned(rows[i], i + 1, t, session);
    }
  }

  /** A prepared update starts from the version of the row in the snapshot. */
  lemma PreparedFrom(t: Table, rows: seq<Input>, k: nat, first: bool, input: Input, session: string)
    requires SnapshotOf(rows, t, session) && t.rows.Keys == UpTo(|t.rows|)
    requires k < |rows| && Transition(rows[k], input)
    requires first <==> input.state == Dispatching && rows[k].state == Queued
    requires first ==> forall i :: 0 <= i < k ==> rows[i].state.Terminal()
    ensures ProcInv(t, Prepared(first, input), session)
  {
    assert Aligned(rows[k], k + 1, t, session);
    if first {
      forall r | r in t.rows && r < k + 1 ensures t.rows[r].state.Terminal() {
        assert Aligned(rows[r - 1], r, t, session);
      }
    }
  }

  lemma DecideKeeps(t: Table, proc: Process, session: string, now: int)
    requires TableInv(t, session) && proc.Snapshotted? && ProcInv(t, proc, session)
    ensures ProcInv(t, Decide(proc.request, Load(t.cursor, proc.rows), session, now), session)
  {
    hide InOrder, RowsOk, Keyed, UniqueIds, SnapshotOf, SwapOf, UpTo, Valid;
    var stream := Load(t.cursor, proc.rows);
    match proc.request
    case Submit(_) => SubmitSequence(t, proc.rows, session);
    case TakeNext =>
      var r := Acquire(stream, now);
      if r.Ok? && r.value.changed {
        PreparedFrom(t, proc.rows, FirstIn(proc.rows, Queued), true, r.value.acquired.value.input, session);
      }
    case Attach(id, executionId, valid) =>
      var r := Bind(stream, id, executionId, valid, now);
      if r.Ok? && r.value.changed { PreparedFrom(t, proc.rows, Find(proc.rows, id), false, r.value.input, session); }
    case Finish(id, state, lastError) =>
      var r := Complete(stream, id, state, lastError, now);
      if r.Ok? && r.value.changed { PreparedFrom(t, proc.rows, Find(proc.rows, id), false, r.value.input, session); }
    case Cancel(id, expected) =>
      var r := CancelQueued(stream, id, expected, now);
      if r.Ok? && r.value.changed { PreparedFrom(t, proc.rows, Find(proc.rows, id), false, r.value.input, session); }
  }

  lemma SubmitSequence(t: Table, rows: seq<Input>, session: string)
    requires Dense(t) && SnapshotOf(rows, t, session)
    ensures Load(t.cursor, rows).nextSequence == |t.rows| + 1
  {}

  // ---- writing -----------------------------------------------------------

  ghost predicate SameOrNext(a: Input, b: Input) { a == b || Transition(a, b) }

  /** What a write does to the rows that were there: nothing, or one transition of one row;
      rows that appear are beyond all others. */
  ghost predicate Evolves(t: Table, t': Table) {
    && |t.rows| <= |t'.rows|
    && (forall s :: s in t.rows ==> s in t'.rows && SameOrNext(t.rows[s], t'.rows[s]))
    && (forall s :: s in t'.rows && s !in t.rows ==> s > |t.rows|)
  }

  lemma InsertKeepsTable(t: Table, row: Input, next: nat, session: string)
    requires TableInv(t, session) && ProcInv(t, Inserting(row, next), session)
    ensures TableInv(InsertRow(t, row, next), session) && Evolves(t, InsertRow(t, row, next))
  {
    if row.sequence !in t.rows && !IdTaken(t.rows, row.id) {
      assert row.sequence == |t.rows| + 1;
      InsertedDense(t, row, next);
      InsertedInOrder(t, row);
      InsertedEvolves(t, row, next, session);
    }
  }

  lemma InsertedEvolves(t: Table, row: Input, next: nat, session: string)
    requires RowsOk(t, session) && UniqueIds(t) && Keyed(t) && !IdTaken(t.rows, row.id)
    requires row.sequence !in t.rows && row.sequence == |t.rows| + 1 && RowOk(row, session)
    ensures var t' := Table(t.rows[row.sequence := row], Some(next));
            RowsOk(t', session) && UniqueIds(t') && Keyed(t') && Evolves(t, t')
  {
    hide RowOk;
    var t' := Table(t.rows[row.sequence := row], Some(next));
    assert t'.rows.Keys == t.rows.Keys + {row.sequence};
    forall s | s in t.rows ensures t'.rows[s] == t.rows[s] && t.rows[s].id != row.id {}
  }

  lemma InsertedDense(t: Table, row: Input, next: nat)
    requires Dense(t) && row.sequence == |t.rows| + 1 && next == row.sequence + 1
    ensures var t' := Table(t.rows[row.sequence := row], Some(next)); |t'.rows| == |t.rows| + 1 && Dense(t')
  {}

  lemma InsertedInOrder(t: Table, row: Input)
    requires InOrder(t) && row.state == Queued && forall s :: s in t.rows ==> s < row.sequence
    ensures InOrder(t.(rows := t.rows[row.sequence := row]))
  {}

  lemma SwapKeepsTable(t: Table, first: bool, input: Input, expected: nat, session: string)
    requires TableInv(t, session) && SwapOf(t, first, input, expected)
    ensures TableInv(CompareAndSwap(t, input, expected), session) && Evolves(t, CompareAndSwap(t, input, expected))
  {
    hide InOrder, UniqueIds, Dense, RowsOk;
    assert CompareAndSwap(t, input, expected).rows.Keys == t.rows.Keys;
    SameKeys(t, input);
    if t.rows[input.sequence].revision == expected {
      SwappedInOrder(t, input, first);
      SwappedRows(t, input, session);
    }
  }

  lemma SameKeys(t: Table, input: Input)
    requires input.sequence in t.rows
    ensures var t' := t.(rows := t.rows[input.sequence := input]); |t'.rows| == |t.rows| && (Dense(t) ==> Dense(t'))
  {}

  lemma SwappedRows(t: Table, input: Input, session: string)
    requires input.sequence in t.rows && Transition(t.rows[input.sequence], input)
    requires RowsOk(t, session) && UniqueIds(t)
    ensures var t' := t.(rows := t.rows[input.sequence := input]); RowsOk(t', session) && UniqueIds(t')
  {}

  lemma SwappedInOrder(t: Table, input: Input, first: bool)
    requires input.sequence in t.rows && Transition(t.rows[input.sequence], input) && InOrder(t)
    requires first <==> t.rows[input.sequence].state == Queued && input.state == Dispatching
    requires first ==> FinishedBefore(t, input.sequence)
    ensures InOrder(t.(rows := t.rows[input.sequence := input]))
  {}

  lemma FinishedStays(t: Table, t': Table, s: nat)
    requires Evolves(t, t') && s in t.rows && t.rows.Keys == UpTo(|t.rows|) && FinishedBefore(t, s)
    ensures FinishedBefore(t', s)
  {
    hide UpTo;
    assert s in UpTo(|t.rows|);
    forall r | r in t'.rows && r < s ensures t'.rows[r].state.Terminal() {
      assert r in t.rows;
      assert SameOrNext(t.rows[r], t'.rows[r]);
    }
  }

  /** A write by one process leaves every other process's pending decision sound. */
  lemma OthersKeep(t: Table, t': Table, proc: Process, session: string)
    requires t.rows.Keys == UpTo(|t.rows|) && Evolves(t, t') && ProcInv(t, proc, session)
    ensures ProcInv(t', proc, session)
  {
    match proc
    case Snapshotted(_, rows) =>
      forall i | 0 <= i < |rows| ensures Aligned(rows[i], i + 1, t', session) {
        assert Aligned(rows[i], i + 1, t, session);
      }
    case Saving(first, input, expected) =>
      assert SameOrNext(t.rows[input.sequence], t'.rows[input.sequence]);
      if first && t.rows[input.sequence].revision == expected { FinishedStays(t, t', input.sequence); }
    case _ =>
  }

  lemma AcquisitionsKeep(t: Table, t': Table, acquired: seq<nat>)
    requires t.rows.Keys == UpTo(|t.rows|) && Evolves(t, t') && AcquiredInOrder(t, acquired)
    ensures AcquiredInOrder(t', acquired)
  {
    forall i | 0 <= i < |acquired| ensures WasAcquired(t', acquired[i]) {
      assert WasAcquired(t, acquired[i]);
      FinishedStays(t, t', acquired[i]);
    }
  }

  /** A first acquisition concerns a queued row, so it lies beyond everything acquired before. */
  lemma AcquisitionAdvances(t: Table, input: Input, acquired: seq<nat>)
    requires AcquiredInOrder(t, acquired) && input.sequence in t.rows && t.rows[input.sequence].state == Queued
    requires FinishedBefore(t, input.sequence) && Transition(t.rows[input.sequence], input) && input.state == Dispatching
    ensures Climbing(acquired + [input.sequence])
    ensures WasAcquired(t.(rows := t.rows[input.sequence := input]), input.sequence)
  {
    forall i | 0 <= i < |acquired| ensures acquired[i] < input.sequence { assert WasAcquired(t, acquired[i]); }
  }

  lemma WriteKeeps(sys: System, p: nat)
    requires Inv(sys) && Enabled(sys, Write(p))
    ensures Inv(Next(sys, Write(p))) && Evolves(sys.table, Next(sys, Write(p)).table)
  {
    hide TableInv, ProcInv, Evolves, AcquiredInOrder, InsertRow, Transition;
    var proc := sys.procs[p];
    var t, t' := sys.table, WrittenTable(sys.table, sys.procs[p]);
    assert ProcInv(t, proc, sys.session);
    WriteKeepsTable(t, proc, sys.session);
    var sys' := Next(sys, Write(p));
    forall q | q in sys'.procs ensures ProcInv(t', sys'.procs[q], sys.session) {
      if q != p { OthersKeep(t, t', sys.procs[q], sys.session); } else { IdleInv(t', sys.session); }
    }
    AcquisitionsKeep(t, t', sys.acquired);
    WriteAcquires(sys, p);
  }

  lemma IdleInv(t: Table, session: string)
    ensures ProcInv(t, Idle, session)
  {}

  lemma WriteKeepsTable(t: Table, proc: Process, session: string)
    requires TableInv(t, session) && ProcInv(t, proc, session) && (proc.Inserting? || proc.Saving?)
    ensures TableInv(WrittenTable(t, proc), session) && Evolves(t, WrittenTable(t, proc)) && t.rows.Keys == UpTo(|t.rows|)
  {
    hide InOrder, RowsOk, UniqueIds, Keyed, Evolves, InsertRow, CompareAndSwap;
    if proc.Inserting? { InsertKeepsTable(t, proc.row, proc.next, session); }
    else { SwapKeepsTable(t, proc.first, proc.input, proc.expected, session); }
  }

  lemma WriteAcquires(sys: System, p: nat)
    requires Inv(sys) && Enabled(sys, Write(p)) && AcquiredInOrder(Next(sys, Write(p)).table, sys.acquired)
    ensures AcquiredInOrder(Next(sys, Write(p)).table, Next(sys, Write(p)).acquired)
  {
    hide TableInv, FinishedBefore, Climbing, InsertRow;
    var proc := sys.procs[p];
    assert ProcInv(sys.table, proc, sys.session);
    if proc.Saving? && proc.first && WrittenTable(sys.table, proc) != sys.table {
      AcquisitionAdvances(sys.table, proc.input, sys.acquired);
    }
  }

  // ---- runs --------------------------------------------------------------

  lemma StepKeeps(sys: System, step: Step)
    requires Inv(sys) && Enabled(sys, step)
    ensures Inv(Next(sys, step)) && Evolves(sys.table, Next(sys, step).table)
  {
    hide TableInv, ProcInv, Evolves, AcquiredInOrder, Ordered, Decide, WrittenTable;
    match step
    case ReadRows(p, request) =>
      SnapshotTaken(sys.table, sys.session);
      ReadInv(sys.table, request, sys.session);
      NothingEvolves(sys.table, sys.session);
    case ReadCursorAndDecide(p, now) =>
      DecideKeeps(sys.table, sys.procs[p], sys.session, now);
      NothingEvolves(sys.table, sys.session);
    case Write(p) => WriteKeeps(sys, p);
    case Abort(_) =>
      IdleInv(sys.table, sys.session);
      NothingEvolves(sys.table, sys.session);
  }

  lemma ReadInv(t: Table, request: Request, session: string)
    requires SnapshotOf(Ordered(t.rows), t, session) && OneDispatching(Ordered(t.rows))
    requires request.Submit? ==> request.input.sessionId == session
    requires request.Attach? && request.valid ==> request.executionId != ""
    ensures ProcInv(t, Snapshotted(request, Ordered(t.rows)), session)
  {}

  lemma NothingEvolves(t: Table, session: string)
    requires TableInv(t, session)
    ensures Keyed(t) && Evolves(t, t)
  {}

  ghost predicate Schedule(sys: System, steps: seq<Step>)
    decreases |steps|
  {
    steps == [] || (Enabled(sys, steps[0]) && Schedule(Next(sys, steps[0]), steps[1..]))
  }

  ghost function Run(sys: System, steps: seq<Step>): System
    decreases |steps|
  {
    if steps == [] then sys else Run(Next(sys, steps[0]), steps[1..])
  }

  function Fresh(session: string): System { System(session, EMPTY_TABLE, map[], []) }

  /** What a reader sees of a row over time: revisions count transitions and stop at 4, terminal
      rows are final, and an execution binding never changes. */
  ghost predicate Later(a: Input, b: Input) {
    && a.revision <= b.revision <= 4
    && (a.revision == b.revision ==> a == b)
    && (a.state.Terminal() ==> a == b)
    && (a.executionId != "" ==> b.executionId == a.executionId)
    && b.id == a.id && b.sequence == a.sequence && b.kind == a.kind && b.content == a.content
  }

  lemma {:induction false} LifeCycle(sys: System, steps: seq<Step>, s: nat)
    requires Inv(sys) && Schedule(sys, steps) && s in sys.table.rows
    ensures Inv(Run(sys, steps))
    ensures s in Run(sys, steps).table.rows && Later(sys.table.rows[s], Run(sys, steps).table.rows[s])
    decreases |steps|
  {
    hide AcquiredInOrder, ProcInv, Dense, Keyed, InOrder, UniqueIds, Next, Enabled;
    assert RowOk(sys.table.rows[s], sys.session);
    if steps != [] {
      StepKeeps(sys, steps[0]);
      var sys' := Next(sys, steps[0]);
      assert SameOrNext(sys.table.rows[s], sys'.table.rows[s]) && RowOk(sys'.table.rows[s], sys'.session);
      LifeCycle(sys', steps[1..], s);
    }
  }

  lemma SessionStays(sys: System, step: Step)
    ensures Next(sys, step).session == sys.session
  {}

  lemma {:induction false} RunKeeps(sys: System, steps: seq<Step>)
    requires Inv(sys) && Schedule(sys, steps)
    ensures Inv(Run(sys, steps)) && Run(sys, steps).session == sys.session
    decreases |steps|
  {
    hide Inv, Enabled, Next;
    if steps != [] {
      SessionStays(sys, steps[0]);
      StepKeeps(sys, steps[0]);
      RunKeeps(Next(sys, steps[0]), steps[1..]);
    }
  }

  lemma FreshInv(session: string)
    ensures Inv(Fresh(session))
  {
    assert UpTo(0) == {};
  }

  /** Row-level compare-and-swap is enough.  From an empty table, under every interleaving of any
      number of processes: sequences are 1..n with the cursor at n + 1, at most one row is
      dispatching, everything before it is terminal, and inputs are first acquired once each, in
      the order of their sequences. */
  lemma RowLevelSwapIsEnough(session: string, steps: seq<Step>)
    requires Schedule(Fresh(session), steps)
    ensures var t := Run(Fresh(session), steps).table;
            && t.rows.Keys == UpTo(|t.rows|)
            && t.cursor == (if |t.rows| == 0 then None else Some(|t.rows| + 1))
            && (forall s, r :: s in t.rows && r in t.rows && r < s && t.rows[s].state == Dispatching ==> t.rows[r].state.Terminal())
            && (forall s :: s in t.rows ==> t.rows[s].revision <= 4)
    ensures Climbing(Run(Fresh(session), steps).acquired)
  {
    hide Inv;
    FreshInv(session);
    RunKeeps(Fresh(session), steps);
    Consequences(Run(Fresh(session), steps));
    EmptyKeepsNoCursor(Fresh(session), steps);
  }

  /** The cursor row is written together with the first input row. */
  lemma {:induction false} EmptyKeepsNoCursor(sys: System, steps: seq<Step>)
    requires |sys.table.rows| == 0 ==> sys.table.cursor == None
    ensures var t := Run(sys, steps).table; |t.rows| == 0 ==> t.cursor == None
    decreases |steps|
  {
    hide Decide, Ordered, Load;
    if steps != [] { EmptyKeepsNoCursor(Next(sys, steps[0]), steps[1..]); }
  }

  lemma Consequences(sys: System)
    requires Inv(sys)
    ensures sys.table.rows.Keys == UpTo(|sys.table.rows|)
    ensures sys.table.cursor == Some(|sys.table.rows| + 1) || (|sys.table.rows| == 0 && sys.table.cursor == None)
    ensures forall s, r :: s in sys.table.rows && r in sys.table.rows && r < s && sys.table.rows[s].state == Dispatching
              ==> sys.table.rows[r].state.Terminal()
    ensures forall s :: s in sys.table.rows ==> sys.table.rows[s].revision <= 4
    ensures Climbing(sys.acquired)
  {
    hide ProcInv, UniqueIds, Keyed, UpTo;
    forall s | s in sys.table.rows ensures sys.table.rows[s].revision <= 4 { assert RowOk(sys.table.rows[s], sys.session); }
    forall s, r | s in sys.table.rows && r in sys.table.rows && r < s && sys.table.rows[s].state == Dispatching
      ensures sys.table.rows[r].state.Terminal()
    {
      assert FinishedBefore(sys.table, s);
    }
  }
}
