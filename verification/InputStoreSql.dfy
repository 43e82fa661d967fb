/** gateway/input_store_gorm.go in its own form: an object holding the two tables of a session,
    whose calls read the rows, read the cursor, decide and write.  A call that nobody interrupts
    leaves exactly the stream that the in-memory queue would hold. */
module InputStoreSql {
  import opened Outcome
  import opened InputQueue
  import opened InputStore
  import opened InputStoreSafety
  import Text

  ghost function StreamOf(t: Table): Stream { Load(t.cursor, Ordered(t.rows)) }

  /** One store call from its first read to its write, with no step of another process between. */
  ghost function Uninterrupted(t: Table, request: Request, session: string, now: int): Table {
    WrittenTable(t, Decide(request, StreamOf(t), session, now))
  }

  /** The decision that `mutateInput` is called with. */
  function Mutation(request: Request, stream: Stream, now: int): Result<Update, Error>
    requires request.Attach? || request.Finish? || request.Cancel?
  {
    match request
    case Attach(id, executionId, valid) => Bind(stream, id, executionId, valid, now)
    case Finish(id, state, lastError) => Complete(stream, id, state, lastError, now)
    case Cancel(id, expected) => CancelQueued(stream, id, expected, now)
  }

  /** The write of a decided input finds the row one revision before it. */
  predicate Swaps(t: Table, input: Input) { input.revision > 0 && Applies(t, input, input.revision - 1) }

  lemma NoKeys()
    ensures Climbing([]) && Text.Elements<nat>([]) == {}
  {}

  lemma ClimbingUnique(xs: seq<nat>, ys: seq<nat>)
    requires Climbing(xs) && Climbing(ys) && Text.Elements(xs) == Text.Elements(ys)
    ensures xs == ys
  {
    Text.SortedUnique(xs, ys, (a, b) => a < b);
  }

  lemma KeysIn(ks: seq<nat>, s: set<nat>)
    requires Text.Elements(ks) == s
    ensures forall i :: 0 <= i < |ks| ==> ks[i] in s
  {}

  class SqlInputStore {
    const session: string
    var rows: map<nat, Input>
    var cursor: Option<nat>

    ghost function Value(): Table
      reads this
    {
      Table(rows, cursor)
    }

    constructor (session: string)
      ensures this.session == session && Value() == EMPTY_TABLE
    {
      this.session := session;
      rows, cursor := map[], None;
    }

    method Enqueue(input: Input, now: int) returns (r: Result<Input, Error>)
      modifies this
      ensures Value() == Uninterrupted(old(Value()), Submit(input), session, now)
      ensures !Valid(old(StreamOf(Value())), session) ==> r == Err(Corrupt)
      ensures Valid(old(StreamOf(Value())), session) ==>
        match InputQueue.Enqueue(old(StreamOf(Value())), input, now)
        case Err(e) => r == Err(e)
        case Ok(u) => (u.changed && Value() == old(Value()) ==> r == Err(Conflict))
                      && (!u.changed || Value() != old(Value()) ==> r == Ok(u.input))
    {
      var stream, ok := LoadStream();
      if !ok { return Err(Corrupt); }
      var u := EnqueueInput(stream, input, now);
      if u.Err? { return Err(u.error); }
      if !u.value.changed { return Ok(u.value.input); }
      var row := u.value.input;
      var taken := IdIndexHas(rows, row.id);
      if row.sequence in rows || taken { return Err(Conflict); }
      rows := rows[row.sequence := row];
      cursor := Some(u.value.stream.nextSequence);
      assert row.sequence in Value().rows;
      return Ok(row);
    }

    method AcquireNext(now: int) returns (r: Result<Option<Acquired>, Error>)
      modifies this
      ensures Value() == Uninterrupted(old(Value()), TakeNext, session, now)
      ensures !Valid(old(StreamOf(Value())), session) ==> r == Err(Corrupt)
      ensures Valid(old(StreamOf(Value())), session) ==>
        match Acquire(old(StreamOf(Value())), now)
        case Err(e) => r == Err(e)
        case Ok(a) =>
          if a.changed && !Swaps(old(Value()), a.acquired.value.input) then r == Err(Conflict) else r == Ok(a.acquired)
    {
      hide Ordered, Valid, CompareAndSwap, Load;
      var stream, ok := LoadStream();
      if !ok { return Err(Corrupt); }
      var a := AcquireInput(stream, now);
      if a.Err? { return Err(a.error); }
      if !a.value.changed { return Ok(a.value.acquired); }
      var saved := SaveInput(a.value.acquired.value.input, a.value.acquired.value.input.revision - 1);
      if !saved { return Err(Conflict); }
      return Ok(a.value.acquired);
    }

    /** `mutateInput` with the decision of `BindExecution`, `Complete` or `CancelQueued`. */
    method MutateInput(request: Request, now: int) returns (r: Result<Input, Error>)
      requires request.Attach? || request.Finish? || request.Cancel?
      modifies this
      ensures Value() == Uninterrupted(old(Value()), request, session, now)
      ensures !Valid(old(StreamOf(Value())), session) ==> r == Err(Corrupt)
      ensures Valid(old(StreamOf(Value())), session) ==>
        match Mutation(request, old(StreamOf(Value())), now)
        case Err(e) => r == Err(e)
        case Ok(u) => r == if u.changed && !Swaps(old(Value()), u.input) then Err(Conflict) else Ok(u.input)
    {
      hide Ordered, Valid, CompareAndSwap, Load, Bind, Complete, CancelQueued;
      var stream, ok := LoadStream();
      if !ok { return Err(Corrupt); }
      var u: Result<Update, Error>;
      match request {
        case Attach(id, executionId, valid) => u := BindInput(stream, id, executionId, valid, now);
        case Finish(id, state, lastError) => u := CompleteInput(stream, id, state, lastError, now);
        case Cancel(id, expected) => u := CancelInput(stream, id, expected, now);
      }
      if u.Err? { return Err(u.error); }
      if !u.value.changed { return Ok(u.value.input); }
      if u.value.input.revision == 0 { return Err(Conflict); }
      var saved := SaveInput(u.value.input, u.value.input.revision - 1);
      if !saved { return Err(Conflict); }
      return Ok(u.value.input);
    }

    /** `saveInputLocked`. */
    method SaveInput(input: Input, expected: nat) returns (saved: bool)
      modifies this`rows
      ensures Value() == CompareAndSwap(old(Value()), input, expected)
      ensures saved <==> Applies(old(Value()), input, expected)
    {
      saved := input.sequence in rows && rows[input.sequence].revision == expected;
      if saved { rows := rows[input.sequence := input]; }
    }

    /** `loadInputStreamLocked`: both reads and the validation. */
    method LoadStream() returns (stream: Stream, ok: bool)
      ensures stream == StreamOf(Value()) && (ok <==> Valid(stream, session))
    {
      var inputs := SelectRows();
      stream := Load(cursor, inputs);
      ok := ValidateStream(stream, session);
    }

    method SelectRows() returns (inputs: seq<Input>)
      ensures inputs == Ordered(rows)
    {
      hide Climbing, Text.Elements;
      var ks := SortedKeys();
      assert forall i :: 0 <= i < |ks| ==> ks[i] in rows by { KeysIn(ks, rows.Keys); }
      inputs := [];
      for i := 0 to |ks|
        invariant |inputs| == i && forall j :: 0 <= j < i ==> inputs[j] == rows[ks[j]]
      {
        inputs := inputs + [rows[ks[i]]];
      }
      assert inputs == Ordered(rows);
    }

    method SortedKeys() returns (ks: seq<nat>)
      ensures ks == Ascend(rows.Keys)
    {
      hide Ascend, Climbing, Text.Elements;
      ks := [];
      var todo := rows.Keys;
      NoKeys();
      while todo != {}
        invariant todo <= rows.Keys && Climbing(ks) && Text.Elements(ks) == rows.Keys - todo
        invariant forall k, s :: k in rows.Keys - todo && s in todo ==> k < s
        decreases |todo|
      {
        var least := Smallest(todo);
        AppendLargest(ks, least, (rows.Keys - todo) + {least});
        ks := ks + [least];
        todo := todo - {least};
      }
      ClimbingUnique(ks, Ascend(rows.Keys));
    }

    static method Smallest(s: set<nat>) returns (m: nat)
      requires s != {}
      ensures m in s && forall x :: x in s ==> m <= x
    {
      m :| m in s;
      var todo := s - {m};
      while todo != {}
        invariant m in s && todo <= s && forall x :: x in s && x !in todo ==> m <= x
        decreases |todo|
      {
        var x :| x in todo;
        if x < m { m := x; }
        todo := todo - {x};
      }
    }
  }

  // ---- refinement --------------------------------------------------------

  /** Without a cursor row the next sequence follows the last row. */
  lemma LoadWithoutCursor(rows: seq<Input>)
    ensures rows == [] ==> Load(None, rows) == Stream(1, [])
    ensures rows != [] ==> Load(None, rows) == Stream(rows[|rows| - 1].sequence + 1, rows)
    ensures forall next :: Load(Some(next), rows) == Stream(next, rows)
  {}

  /** In a dense table the stream is the rows in order. */
  lemma StreamOfDense(t: Table, session: string)
    requires TableInv(t, session)
    ensures StreamOf(t).nextSequence == |t.rows| + 1 && |StreamOf(t).inputs| == |t.rows|
    ensures Valid(StreamOf(t), session)
  {
    hide InOrder, RowsOk, UniqueIds, Keyed, Valid, Ordered;
    SnapshotTaken(t, session);
    SnapshotLoads(t, Ordered(t.rows), session);
    SubmitSequence(t, Ordered(t.rows), session);
  }

  lemma StreamAt(t: Table, session: string, i: nat)
    requires TableInv(t, session) && i < |t.rows|
    ensures |StreamOf(t).inputs| == |t.rows| && i + 1 in t.rows && StreamOf(t).inputs[i] == t.rows[i + 1]
    ensures t.rows[i + 1].sequence == i + 1
  {
    hide InOrder, RowsOk, UniqueIds, Ordered;
    OrderedDense(t, i);
  }

  /** An uninterrupted enqueue appends to the stream exactly as the in-memory queue does. */
  lemma EnqueueRefines(t: Table, input: Input, session: string, now: int)
    requires TableInv(t, session) && input.sessionId == session
    ensures match Enqueue(StreamOf(t), input, now)
            case Err(_) => Uninterrupted(t, Submit(input), session, now) == t
            case Ok(u) => StreamOf(Uninterrupted(t, Submit(input), session, now)) == u.stream
  {
    hide TableInv, Valid, Ordered, Load;
    StreamOfDense(t, session);
    var r := Enqueue(StreamOf(t), input, now);
    if r.Ok? && r.value.changed {
      var row := r.value.input;
      FreeSlot(t, row, session);
      InsertRefines(t, row, session);
    }
  }

  lemma FreeSlot(t: Table, row: Input, session: string)
    requires TableInv(t, session) && row.sequence == |t.rows| + 1
    requires Find(StreamOf(t).inputs, row.id) == |t.rows|
    ensures row.sequence !in t.rows && !IdTaken(t.rows, row.id)
  {
    hide InOrder, RowsOk, UniqueIds, Ordered, Load;
    forall s | s in t.rows ensures t.rows[s].id != row.id { StreamAt(t, session, s - 1); }
  }

  /** Inserting the row after the last is appending to the stream. */
  lemma InsertRefines(t: Table, row: Input, session: string)
    requires TableInv(t, session) && row.sequence == |t.rows| + 1 && row.state == Queued && RowOk(row, session)
    requires row.sequence !in t.rows && !IdTaken(t.rows, row.id)
    ensures StreamOf(InsertRow(t, row, row.sequence + 1)) == Stream(row.sequence + 1, StreamOf(t).inputs + [row])
  {
    hide TableInv, Valid, Ordered, Load;
    var t' := InsertRow(t, row, row.sequence + 1);
    InsertedSize(t, row, session);
    StreamOfDense(t, session);
    StreamOfDense(t', session);
    forall i | 0 <= i < |t'.rows| ensures StreamOf(t').inputs[i] == (StreamOf(t).inputs + [row])[i] {
      StreamAt(t', session, i);
      if i < |t.rows| { StreamAt(t, session, i); }
    }
  }

  lemma InsertedSize(t: Table, row: Input, session: string)
    requires TableInv(t, session) && row.sequence == |t.rows| + 1 && row.state == Queued && RowOk(row, session)
    requires row.sequence !in t.rows && !IdTaken(t.rows, row.id)
    ensures TableInv(InsertRow(t, row, row.sequence + 1), session)
    ensures |InsertRow(t, row, row.sequence + 1).rows| == |t.rows| + 1
  {
    hide InOrder, RowsOk, UniqueIds, Keyed, IdTaken;
    InsertKeepsTable(t, row, row.sequence + 1, session);
    InsertedDense(t, row, row.sequence + 1);
  }

  /** An uninterrupted acquisition moves the stream exactly as the in-memory queue does. */
  lemma AcquireRefines(t: Table, session: string, now: int)
    requires TableInv(t, session)
    ensures Acquire(StreamOf(t), now).Ok?
    ensures StreamOf(Uninterrupted(t, TakeNext, session, now)) == Acquire(StreamOf(t), now).value.stream
  {
    hide TableInv, Valid, Ordered, Load;
    StreamOfDense(t, session);
    NoSecondDispatching(t, session);
    var a := Acquire(StreamOf(t), now);
    if a.value.changed {
      var k := FirstIn(StreamOf(t).inputs, Queued);
      StreamAt(t, session, k);
      var input := a.value.acquired.value.input;
      AcquirePrepares(t, session, now);
      SwapRefines(t, k, true, input, input.revision - 1, session);
    }
  }

  /** An uninterrupted bind, completion or cancellation changes the stream exactly as in memory. */
  lemma MutateRefines(t: Table, request: Request, session: string, now: int)
    requires TableInv(t, session) && (request.Attach? || request.Finish? || request.Cancel?)
    requires request.Attach? && request.valid ==> request.executionId != ""
    ensures match Mutation(request, StreamOf(t), now)
            case Err(_) => Uninterrupted(t, request, session, now) == t
            case Ok(u) => StreamOf(Uninterrupted(t, request, session, now)) == u.stream
  {
    hide TableInv, Valid, Ordered, Load, SwapOf;
    StreamOfDense(t, session);
    var r := Mutation(request, StreamOf(t), now);
    if r.Ok? && r.value.changed {
      var k := Find(StreamOf(t).inputs, request.id);
      StreamAt(t, session, k);
      MutationPrepares(t, request, session, now);
      SwapRefines(t, k, false, r.value.input, r.value.input.revision - 1, session);
    }
  }

  lemma MutationPrepares(t: Table, request: Request, session: string, now: int)
    requires TableInv(t, session) && (request.Attach? || request.Finish? || request.Cancel?)
    requires request.Attach? && request.valid ==> request.executionId != ""
    requires Mutation(request, StreamOf(t), now).Ok? && Mutation(request, StreamOf(t), now).value.changed
    ensures var input := Mutation(request, StreamOf(t), now).value.input;
            input.revision >= 1 && SwapOf(t, false, input, input.revision - 1)
  {
    hide InOrder, RowsOk, Keyed, UniqueIds, Ordered, SwapOf, Dense;
    SnapshotTaken(t, session);
    SnapshotLoads(t, Ordered(t.rows), session);
    DecideKeeps(t, Snapshotted(request, Ordered(t.rows)), session, now);
  }

  lemma NoSecondDispatching(t: Table, session: string)
    requires TableInv(t, session)
    ensures var inputs := StreamOf(t).inputs; var d := FirstIn(inputs, Dispatching);
            d < |inputs| ==> FirstIn(inputs[d + 1..], Dispatching) == |inputs| - d - 1
  {
    hide RowsOk, UniqueIds, Keyed, InOrder, Dense, Ordered;
    SnapshotTaken(t, session);
    var inputs := StreamOf(t).inputs;
    var d := FirstIn(inputs, Dispatching);
    if d < |inputs| {
      var e := FirstIn(inputs[d + 1..], Dispatching);
      if e < |inputs| - d - 1 {
        assert false;
      }
    }
  }

  lemma AcquirePrepares(t: Table, session: string, now: int)
    requires TableInv(t, session) && Acquire(StreamOf(t), now).Ok? && Acquire(StreamOf(t), now).value.changed
    ensures Acquire(StreamOf(t), now).value.acquired.Some?
    ensures var input := Acquire(StreamOf(t), now).value.acquired.value.input;
            input.revision >= 1 && SwapOf(t, true, input, input.revision - 1)
  {
    hide InOrder, RowsOk, Keyed, UniqueIds, Ordered, SwapOf, Dense;
    SnapshotTaken(t, session);
    SnapshotLoads(t, Ordered(t.rows), session);
    DecideKeeps(t, Snapshotted(TakeNext, Ordered(t.rows)), session, now);
  }

  /** Swapping row k + 1 is updating position k of the stream. */
  lemma SwapRefines(t: Table, k: nat, first: bool, input: Input, expected: nat, session: string)
    requires TableInv(t, session) && SwapOf(t, first, input, expected)
    requires k < |t.rows| && input.sequence == k + 1 && k + 1 in t.rows && t.rows[k + 1].revision == expected
    ensures k < |StreamOf(t).inputs| && StreamOf(CompareAndSwap(t, input, expected)) == Put(StreamOf(t), k, input)
  {
    hide TableInv, Valid, Ordered, Load, SwapOf;
    SwapKeepsTable(t, first, input, expected, session);
    var t' := CompareAndSwap(t, input, expected);
    SameKeys(t, input);
    StreamOfDense(t, session);
    StreamOfDense(t', session);
    forall i | 0 <= i < |t.rows| ensures StreamOf(t').inputs[i] == StreamOf(t).inputs[k := input][i] {
      StreamAt(t, session, i);
      StreamAt(t', session, i);
    }
  }
}
