/** The legacy import of gateway/stores_gorm.go: insert every row of a session's file with
    conflict-ignore and raise the cursor.  It may run at every start, so repeating it must not
    disturb a table that has been used since. */
module InputMigration {
  import opened Outcome
  import opened InputQueue
  import opened InputStore
  import opened InputStoreSafety
  import InputRuns
  import Text

  ghost predicate Conflicts(rows: map<nat, Input>, x: Input) { x.sequence in rows || IdTaken(rows, x.id) }

  /** `INSERT ... ON CONFLICT DO NOTHING` for each input of the file, in order. */
  ghost function ImportRows(rows: map<nat, Input>, inputs: seq<Input>): map<nat, Input>
    decreases |inputs|
  {
    if inputs == [] then rows
    else if Conflicts(rows, inputs[0]) then ImportRows(rows, inputs[1..])
    else ImportRows(rows[inputs[0].sequence := inputs[0]], inputs[1..])
  }

  /** `upsertInputCursor`. */
  function RaiseCursor(cursor: Option<nat>, next: nat): Option<nat> {
    if cursor.Some? && cursor.value >= next then cursor else Some(next)
  }

  ghost function Import(t: Table, legacy: Stream): Table {
    Table(ImportRows(t.rows, legacy.inputs), RaiseCursor(t.cursor, legacy.nextSequence))
  }

  /** The import transaction of one session. */
  method ImportLegacy(t: Table, legacy: Stream) returns (t': Table)
    ensures t' == Import(t, legacy)
  {
    var rows: map<nat, Input> := t.rows;
    for i := 0 to |legacy.inputs|
      invariant ImportRows(t.rows, legacy.inputs) == ImportRows(rows, legacy.inputs[i..])
    {
      var row := legacy.inputs[i];
      assert legacy.inputs[i..][0] == row && legacy.inputs[i..][1..] == legacy.inputs[i + 1..];
      var taken := IdIndexHas(rows, row.id);
      if !(row.sequence in rows || taken) { rows := rows[row.sequence := row]; }
    }
    t' := Table(rows, RaiseCursor(t.cursor, legacy.nextSequence));
  }

  // ---- what the queue never undoes ---------------------------------------

  /** Rows stay under their sequence with their ID, and the cursor never falls. */
  ghost predicate Grown(t: Table, t': Table) {
    && (forall s :: s in t.rows ==> s in t'.rows && t'.rows[s].id == t.rows[s].id)
    && t.cursor.Some? && t'.cursor.Some? && t.cursor.value <= t'.cursor.value
  }

  /** The table of an imported session: the cursor is beyond every row. */
  ghost predicate Anchored(t: Table) {
    && t.cursor.Some? && t.cursor.value >= 1 && Keyed(t)
    && forall s :: s in t.rows ==> s < t.cursor.value
  }

  ghost predicate Known(t: Table, x: Input) { x.sequence in t.rows && t.rows[x.sequence].id == x.id }

  /** A pending write still fits: an insertion's slot and all later slots below the cursor are
      taken once the cursor has passed it, and a swap keeps the ID of its row. */
  ghost predicate Fits(t: Table, proc: Process) {
    match proc
    case Idle => true
    case Snapshotted(_, rows) => forall i :: 0 <= i < |rows| ==> Known(t, rows[i])
    case Inserting(row, next) =>
      && next == row.sequence + 1 && t.cursor.Some? && row.sequence <= t.cursor.value
      && forall s :: row.sequence <= s < t.cursor.value ==> s in t.rows
    case Saving(_, input, _) => Known(t, input)
  }

  ghost predicate Used(sys: System) {
    Anchored(sys.table) && forall p :: p in sys.procs ==> Fits(sys.table, sys.procs[p])
  }

  lemma DecisionFits(t: Table, request: Request, rows: seq<Input>, session: string, now: int)
    requires Anchored(t) && forall i :: 0 <= i < |rows| ==> Known(t, rows[i])
    ensures Fits(t, Decide(request, Load(t.cursor, rows), session, now))
  {
    hide Valid, Anchored;
    assert t.cursor.Some? && t.cursor.value >= 1 by { CursorOf(t); }
    var stream := Load(t.cursor, rows);
    match request
    case TakeNext => var k := FirstIn(rows, Queued);
    case Attach(id, _, _) => var k := Find(rows, id);
    case Finish(id, _, _) => var k := Find(rows, id);
    case Cancel(id, _) => var k := Find(rows, id);
    case Submit(_) =>
  }

  lemma CursorOf(t: Table)
    requires Anchored(t)
    ensures t.cursor.Some? && t.cursor.value >= 1
  {}

  lemma WriteGrows(t: Table, proc: Process)
    requires Anchored(t) && Fits(t, proc)
    ensures Anchored(WrittenTable(t, proc)) && Grown(t, WrittenTable(t, proc))
    ensures forall s :: t.cursor.value <= s < WrittenTable(t, proc).cursor.value ==> s in WrittenTable(t, proc).rows
  {
    if proc.Inserting? && proc.row.sequence !in t.rows {
      assert proc.row.sequence == t.cursor.value;
    }
  }

  lemma OthersFit(t: Table, t': Table, proc: Process)
    requires Anchored(t) && Fits(t, proc) && Grown(t, t')
    requires forall s :: t.cursor.value <= s < t'.cursor.value ==> s in t'.rows
    ensures Fits(t', proc)
  {}

  lemma OrderedKnown(t: Table)
    requires Keyed(t)
    ensures forall i :: 0 <= i < |t.rows| ==> Known(t, Ordered(t.rows)[i])
  {
    var ks := Ascend(t.rows.Keys);
    assert forall i :: 0 <= i < |ks| ==> ks[i] in Text.Elements(ks);
  }

  lemma StepGrows(sys: System, step: Step)
    requires Used(sys) && Enabled(sys, step)
    ensures Used(Next(sys, step)) && Grown(sys.table, Next(sys, step).table)
  {
    hide Anchored, Grown, Ordered, Decide, WrittenTable;
    CursorOf(sys.table);
    GrownReflexive(sys.table);
    match step
    case ReadRows(p, request) =>
      AnchoredKeyed(sys.table);
      OrderedKnown(sys.table);
    case ReadCursorAndDecide(p, now) =>
      DecisionFits(sys.table, sys.procs[p].request, sys.procs[p].rows, sys.session, now);
    case Write(p) =>
      WriteGrows(sys.table, sys.procs[p]);
      var sys' := Next(sys, step);
      forall q | q in sys'.procs ensures Fits(sys'.table, sys'.procs[q]) {
        if q != p { OthersFit(sys.table, sys'.table, sys.procs[q]); }
      }
    case Abort(_) =>
  }

  lemma AnchoredKeyed(t: Table)
    requires Anchored(t)
    ensures Keyed(t)
  {}

  lemma GrownReflexive(t: Table)
    requires t.cursor.Some?
    ensures Grown(t, t)
  {}

  lemma GrownTransitive(a: Table, b: Table, c: Table)
    requires Grown(a, b) && Grown(b, c)
    ensures Grown(a, c)
  {}

  lemma {:induction false} RunGrows(sys: System, steps: seq<Step>)
    requires Used(sys) && Schedule(sys, steps)
    ensures Used(Run(sys, steps)) && Grown(sys.table, Run(sys, steps).table)
    decreases |steps|
  {
    hide Grown, Next, Enabled;
    if steps == [] {
      GrownReflexive(sys.table);
    } else {
      StepGrows(sys, steps[0]);
      RunGrows(Next(sys, steps[0]), steps[1..]);
      GrownTransitive(sys.table, Next(sys, steps[0]).table, Run(sys, steps).table);
    }
  }

  // ---- importing twice ---------------------------------------------------

  lemma {:induction false} ImportCovers(rows: map<nat, Input>, inputs: seq<Input>)
    ensures forall s :: s in rows ==> s in ImportRows(rows, inputs) && ImportRows(rows, inputs)[s] == rows[s]
    ensures forall i :: 0 <= i < |inputs| ==> Conflicts(ImportRows(rows, inputs), inputs[i])
    decreases |inputs|
  {
    if inputs != [] {
      var rows1 := if Conflicts(rows, inputs[0]) then rows else rows[inputs[0].sequence := inputs[0]];
      ImportCovers(rows1, inputs[1..]);
      var last := ImportRows(rows, inputs);
      assert Conflicts(rows1, inputs[0]);
      ConflictStays(rows1, last, inputs[0]);
      forall i | 0 <= i < |inputs| ensures Conflicts(last, inputs[i]) {
        if i > 0 { assert Conflicts(ImportRows(rows1, inputs[1..]), inputs[1..][i - 1]); }
      }
    }
  }

  lemma ConflictStays(rows: map<nat, Input>, rows': map<nat, Input>, x: Input)
    requires Conflicts(rows, x) && forall s :: s in rows ==> s in rows' && rows'[s].id == rows[s].id
    ensures Conflicts(rows', x)
  {}

  lemma {:induction false} ImportOfKnown(rows: map<nat, Input>, inputs: seq<Input>)
    requires forall i :: 0 <= i < |inputs| ==> Conflicts(rows, inputs[i])
    ensures ImportRows(rows, inputs) == rows
  {
    if inputs != [] { ImportOfKnown(rows, inputs[1..]); }
  }

  lemma {:induction false} ImportAnchors(rows: map<nat, Input>, inputs: seq<Input>, next: nat)
    requires forall s :: s in rows ==> rows[s].sequence == s && s < next
    requires forall i :: 0 <= i < |inputs| ==> inputs[i].sequence < next
    ensures forall s :: s in ImportRows(rows, inputs) ==> ImportRows(rows, inputs)[s].sequence == s && s < next
    decreases |inputs|
  {
    if inputs != [] {
      ImportAnchors(if Conflicts(rows, inputs[0]) then rows else rows[inputs[0].sequence := inputs[0]], inputs[1..], next);
    }
  }

  /** Repeated migration is harmless: after importing a validated file into an empty table and
      any use of the queue by any number of processes, importing the file again changes no row
      and no cursor. */
  lemma RepeatedImportIsHarmless(session: string, legacy: Stream, steps: seq<Step>)
    requires Valid(legacy, session) && legacy.nextSequence >= 1
    requires Schedule(System(session, Import(EMPTY_TABLE, legacy), map[], []), steps)
    ensures var t := Run(System(session, Import(EMPTY_TABLE, legacy), map[], []), steps).table;
            Import(t, legacy) == t
  {
    var t0 := Import(EMPTY_TABLE, legacy);
    var start := System(session, t0, map[], []);
    assert forall i :: 0 <= i < |legacy.inputs| ==> legacy.inputs[i].sequence <= legacy.inputs[|legacy.inputs| - 1].sequence;
    ImportAnchors(map[], legacy.inputs, legacy.nextSequence);
    RunGrows(start, steps);
    var t := Run(start, steps).table;
    ImportCovers(map[], legacy.inputs);
    forall i | 0 <= i < |legacy.inputs| ensures Conflicts(t.rows, legacy.inputs[i]) {
      ConflictStays(t0.rows, t.rows, legacy.inputs[i]);
    }
    ImportOfKnown(t.rows, legacy.inputs);
  }

  // ---- a migrated session is as safe as a new one ------------------------------

  ghost function RowsOf(inputs: seq<Input>, n: nat): map<nat, Input>
    requires n <= |inputs|
  {
    map s | s in UpTo(n) :: inputs[s - 1]
  }

  lemma {:induction false} SizeUpTo(n: nat)
    ensures |UpTo(n)| == n
  {
    if n > 0 { SizeUpTo(n - 1); }
  }

  ghost predicate Gapless(inputs: seq<Input>) {
    DistinctIds(inputs) && forall i :: 0 <= i < |inputs| ==> inputs[i].sequence == i + 1
  }

  lemma NextRow(inputs: seq<Input>, k: nat)
    requires Gapless(inputs) && k < |inputs|
    ensures !Conflicts(RowsOf(inputs, k), inputs[k]) && RowsOf(inputs, k)[k + 1 := inputs[k]] == RowsOf(inputs, k + 1)
  {
    assert UpTo(k + 1) == UpTo(k) + {k + 1};
  }

  /** A gapless file with distinct IDs is imported row by row, without a conflict. */
  lemma {:induction false} ImportsAll(inputs: seq<Input>, k: nat)
    requires Gapless(inputs) && k <= |inputs|
    ensures ImportRows(RowsOf(inputs, k), inputs[k..]) == RowsOf(inputs, |inputs|)
    decreases |inputs| - k
  {
    hide RowsOf, Conflicts, DistinctIds;
    if k < |inputs| {
      NextRow(inputs, k);
      assert inputs[k..][0] == inputs[k] && inputs[k..][1..] == inputs[k + 1..];
      ImportsAll(inputs, k + 1);
    } else {
      assert inputs[k..] == [];
    }
  }

  lemma ImportGives(legacy: Stream)
    requires Gapless(legacy.inputs)
    ensures Import(EMPTY_TABLE, legacy) == Table(RowsOf(legacy.inputs, |legacy.inputs|), Some(legacy.nextSequence))
  {
    assert RowsOf(legacy.inputs, 0) == map[] && legacy.inputs[0..] == legacy.inputs;
    ImportsAll(legacy.inputs, 0);
  }

  lemma RowsAreDense(inputs: seq<Input>, t: Table)
    requires t == Table(RowsOf(inputs, |inputs|), Some(|inputs| + 1))
    ensures Dense(t)
  {
    assert t.rows.Keys == UpTo(|inputs|);
    SizeUpTo(|inputs|);
    assert |t.rows| == |t.rows.Keys|;
  }

  lemma RowsInOrder(session: string, legacy: Stream, t: Table)
    requires InputRuns.Regular(legacy, session) && t.rows == RowsOf(legacy.inputs, |legacy.inputs|)
    ensures Keyed(t) && InOrder(t) && RowsOk(t, session) && UniqueIds(t)
  {
    hide RowOk;
    forall s | s in t.rows ensures t.rows[s] == legacy.inputs[s - 1] && t.rows[s].sequence == s && RowOk(t.rows[s], session) {}
    forall s | s in t.rows && t.rows[s].state == Dispatching ensures FinishedBefore(t, s) {}
    forall s, r | s in t.rows && r in t.rows && s < r ensures t.rows[s].id != t.rows[r].id {}
  }

  /** Importing a stream that a queue can hold gives a table that the row-level protocol keeps safe. */
  lemma ImportIsSafe(session: string, legacy: Stream)
    requires InputRuns.Regular(legacy, session) && legacy.nextSequence >= 1
    ensures Inv(System(session, Import(EMPTY_TABLE, legacy), map[], []))
    ensures Import(EMPTY_TABLE, legacy).cursor.Some?
  {
    ImportGives(legacy);
    hide Import, RowsOf;
    var t := Import(EMPTY_TABLE, legacy);
    RowsInOrder(session, legacy, t);
    RowsAreDense(legacy.inputs, t);
    hide Dense, Keyed, InOrder, RowsOk, UniqueIds, InputRuns.Regular;
  }

  lemma {:induction false} CursorStays(sys: System, steps: seq<Step>)
    requires sys.table.cursor.Some?
    ensures Run(sys, steps).table.cursor.Some?
    decreases |steps|
  {
    hide Decide, Ordered, Load;
    if steps != [] { CursorStays(Next(sys, steps[0]), steps[1..]); }
  }

  /** Row-level safety of migrated sessions: whatever a queue did before, its stream is imported and
      any number of processes go on with it. */
  lemma MigratedRowsAreSafe(session: string, ops: seq<InputRuns.Op>, steps: seq<Step>)
    requires forall i :: 0 <= i < |ops| ==> InputRuns.Proper(ops[i], session)
    requires Schedule(System(session, Import(EMPTY_TABLE, InputRuns.Run(Stream(1, []), ops)), map[], []), steps)
    ensures var sys := Run(System(session, Import(EMPTY_TABLE, InputRuns.Run(Stream(1, []), ops)), map[], []), steps);
            var t := sys.table;
            && t.rows.Keys == UpTo(|t.rows|) && t.cursor == Some(|t.rows| + 1)
            && (forall s, r :: s in t.rows && r in t.rows && r < s && t.rows[s].state == Dispatching ==> t.rows[r].state.Terminal())
            && (forall s :: s in t.rows ==> t.rows[s].revision <= 4)
            && Climbing(sys.acquired)
  {
    hide Inv, InputRuns.Run, Import, Schedule, Run, InputRuns.Proper;
    var legacy := InputRuns.Run(Stream(1, []), ops);
    InputRuns.RunExtends(Stream(1, []), ops);
    InputRuns.RunRegular(Stream(1, []), session, ops);
    ImportIsSafe(session, legacy);
    var start := System(session, Import(EMPTY_TABLE, legacy), map[], []);
    RunKeeps(start, steps);
    CursorStays(start, steps);
    Consequences(Run(start, steps));
  }

  /** An import never gives one ID to two rows, and keeps every row that was there. */
  lemma {:induction false} ImportKeepsIdsUnique(rows: map<nat, Input>, inputs: seq<Input>, cursor: Option<nat>)
    requires UniqueIds(Table(rows, cursor))
    ensures UniqueIds(Table(ImportRows(rows, inputs), cursor))
    ensures forall s :: s in rows ==> s in ImportRows(rows, inputs) && ImportRows(rows, inputs)[s] == rows[s]
    decreases |inputs|
  {
    if inputs != [] {
      ImportKeepsIdsUnique(if Conflicts(rows, inputs[0]) then rows else rows[inputs[0].sequence := inputs[0]], inputs[1..], cursor);
    }
  }
}
