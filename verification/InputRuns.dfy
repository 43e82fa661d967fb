/** Runs of the in-memory queue of gateway/input.go: what no later operation undoes, so that every
    call may be repeated, and which streams a queue can hold, so that they can be migrated. */
module InputRuns {
  import opened Outcome
  import opened Text
  import opened InputQueue
  import InputStore

  datatype Op =
    | DoEnqueue(request: Input, now: int)
    | DoAcquire(now: int)
    | DoBind(id: string, executionId: string, valid: bool, now: int)
    | DoComplete(id: string, state: InputState, error: string, now: int)
    | DoCancel(id: string, revision: nat, now: int)

  function After(s: Stream, r: Result<Update, Error>): Stream { if r.Ok? then r.value.stream else s }

  function Step(s: Stream, op: Op): Stream {
    match op
    case DoEnqueue(request, now) => After(s, Enqueue(s, request, now))
    case DoAcquire(now) => (var r := Acquire(s, now); if r.Ok? then r.value.stream else s)
    case DoBind(id, executionId, valid, now) => After(s, Bind(s, id, executionId, valid, now))
    case DoComplete(id, state, error, now) => After(s, Complete(s, id, state, error, now))
    case DoCancel(id, revision, now) => After(s, CancelQueued(s, id, revision, now))
  }

  function Run(s: Stream, ops: seq<Op>): Stream
    decreases |ops|
  {
    if ops == [] then s else Run(Step(s, ops[0]), ops[1..])
  }

  // ---- what is never undone --------------------------------------------------

  /** A later version of an input. */
  ghost predicate Advances(a: Input, b: Input) {
    && b.id == a.id && b.sessionId == a.sessionId && b.kind == a.kind && b.content == a.content && b.sequence == a.sequence
    && a.revision <= b.revision
    && (a.state.Terminal() ==> b == a)
    && (a.executionId != "" ==> b.executionId == a.executionId)
    && (a.state != Queued ==> b.state != Queued)
  }

  ghost predicate Extends(s: Stream, t: Stream) {
    s.nextSequence <= t.nextSequence && |s.inputs| <= |t.inputs| && forall i :: 0 <= i < |s.inputs| ==> Advances(s.inputs[i], t.inputs[i])
  }

  lemma PutExtends(s: Stream, k: nat, y: Input)
    requires k < |s.inputs| && Advances(s.inputs[k], y)
    ensures Extends(s, Put(s, k, y))
  {}

  lemma StepExtends(s: Stream, op: Op)
    ensures Extends(s, Step(s, op))
  {
    hide TrimSpace;
    match op
    case DoEnqueue(request, now) =>
    case DoAcquire(now) => if Step(s, op) != s { PutExtends(s, FirstIn(s.inputs, Queued), Dispatched(s.inputs[FirstIn(s.inputs, Queued)], now)); }
    case DoBind(id, executionId, valid, now) => if Step(s, op) != s { PutExtends(s, Find(s.inputs, id), Bound(s.inputs[Find(s.inputs, id)], executionId, now)); }
    case DoComplete(id, state, error, now) =>
      if Step(s, op) != s { PutExtends(s, Find(s.inputs, id), Finished(s.inputs[Find(s.inputs, id)], state, TrimSpace(error), now)); }
    case DoCancel(id, revision, now) => if Step(s, op) != s { PutExtends(s, Find(s.inputs, id), Withdrawn(s.inputs[Find(s.inputs, id)], now)); }
  }

  /** No run removes an input, changes what it was enqueued with, rebinds it or reopens it. */
  lemma {:induction false} RunExtends(s: Stream, ops: seq<Op>)
    ensures Extends(s, Run(s, ops))
    decreases |ops|
  {
    hide Step;
    if ops != [] {
      StepExtends(s, ops[0]);
      RunExtends(Step(s, ops[0]), ops[1..]);
    }
  }

  lemma StaysAt(s: Stream, t: Stream, id: string)
    requires Extends(s, t) && Find(s.inputs, id) < |s.inputs|
    ensures Find(t.inputs, id) == Find(s.inputs, id)
  {
    var k := Find(s.inputs, id);
    assert forall i :: 0 <= i <= k ==> t.inputs[i].id == s.inputs[i].id;
  }

  /** Where an update left its input. */
  lemma UpdateStands(s: Stream, id: string, u: Update, ops: seq<Op>) returns (k: nat)
    requires Find(u.stream.inputs, id) < |u.stream.inputs| && u.stream.inputs[Find(u.stream.inputs, id)] == u.input
    ensures var t := Run(u.stream, ops);
            k == Find(t.inputs, id) < |t.inputs| && Advances(u.input, t.inputs[k])
  {
    hide Run, Advances;
    RunExtends(u.stream, ops);
    StaysAt(u.stream, Run(u.stream, ops), id);
    k := Find(u.stream.inputs, id);
  }

  // ---- every call may be repeated --------------------------------------------

  /** Enqueueing again, after any other operations, returns the stored input and changes nothing. */
  lemma EnqueueRepeats(s: Stream, request: Input, now: int, ops: seq<Op>, later: int)
    requires Enqueue(s, request, now).Ok?
    ensures var u := Enqueue(s, request, now).value;
            var t := Run(u.stream, ops);
            var again := Enqueue(t, request, later);
            again.Ok? && again.value.stream == t && !again.value.changed && Advances(u.input, again.value.input)
  {
    hide Run, Step;
    var u := Enqueue(s, request, now).value;
    assert u.changed ==> Find(u.stream.inputs, request.id) == |s.inputs| by {
      if u.changed { FindAppended(s.inputs, u.input); }
    }
    var k := UpdateStands(s, request.id, u, ops);
  }

  lemma FindIs(inputs: seq<Input>, id: string, k: nat)
    requires k < |inputs| && inputs[k].id == id && forall i :: 0 <= i < k ==> inputs[i].id != id
    ensures Find(inputs, id) == k
  {
    var f := Find(inputs, id);
    assert f >= k;
  }

  lemma FindAppended(inputs: seq<Input>, x: Input)
    requires Find(inputs, x.id) == |inputs|
    ensures Find(inputs + [x], x.id) == |inputs|
  {
    FindIs(inputs + [x], x.id, |inputs|);
  }

  /** Binding again returns the stored input while it is dispatching and is refused afterwards; another
      execution is always refused. */
  lemma BindRepeats(s: Stream, id: string, executionId: string, now: int, ops: seq<Op>, other: string, later: int)
    requires Bind(s, id, executionId, true, now).Ok? && executionId != ""
    ensures var t := Run(Bind(s, id, executionId, true, now).value.stream, ops);
            var k := Find(t.inputs, id);
            && k < |t.inputs| && t.inputs[k].executionId == executionId
            && Bind(t, id, executionId, true, later)
               == (if t.inputs[k].state == Dispatching then Ok(Update(t, t.inputs[k], false)) else Err(Conflict))
            && (other != executionId ==> Bind(t, id, other, true, later) == Err(Conflict))
  {
    hide Run, Step;
    var u := Bind(s, id, executionId, true, now).value;
    FindUpdated(s, id, u.input);
    var k := UpdateStands(s, id, u, ops);
  }

  lemma FindUpdated(s: Stream, id: string, y: Input)
    requires Find(s.inputs, id) < |s.inputs| && y.id == id
    ensures Find(Put(s, Find(s.inputs, id), y).inputs, id) == Find(s.inputs, id)
  {
    var k := Find(s.inputs, id);
    assert forall i :: 0 <= i < k ==> Put(s, k, y).inputs[i] == s.inputs[i];
    FindIs(Put(s, k, y).inputs, id, k);
  }

  /** Completing again in the same way returns the finished input; any other completion is refused. */
  lemma CompleteRepeats(s: Stream, id: string, state: InputState, error: string, now: int, ops: seq<Op>,
                        state': InputState, error': string, later: int)
    requires Complete(s, id, state, error, now).Ok?
    ensures var u := Complete(s, id, state, error, now).value;
            var t := Run(u.stream, ops);
            && Complete(t, id, state, error, later) == Ok(Update(t, u.input, false))
            && (state'.Terminal() && (state' != state || TrimSpace(error') != TrimSpace(error)) ==>
                  Complete(t, id, state', error', later) == Err(Conflict))
  {
    hide Run, Step, TrimSpace;
    var u := Complete(s, id, state, error, now).value;
    FindUpdated(s, id, u.input);
    var k := UpdateStands(s, id, u, ops);
  }

  /** Cancelling again with the revision it left returns the cancelled input; with the revision it
      started from it is refused. */
  lemma CancelRepeats(s: Stream, id: string, revision: nat, now: int, ops: seq<Op>, later: int)
    requires CancelQueued(s, id, revision, now).Ok?
    ensures var u := CancelQueued(s, id, revision, now).value;
            var t := Run(u.stream, ops);
            && CancelQueued(t, id, u.input.revision, later) == Ok(Update(t, u.input, false))
            && (u.changed ==> CancelQueued(t, id, revision, later) == Err(Conflict))
  {
    hide Run, Step;
    var u := CancelQueued(s, id, revision, now).value;
    FindUpdated(s, id, u.input);
    var k := UpdateStands(s, id, u, ops);
  }

  // ---- what each call answers --------------------------------------------------

  /** The two requests ask for the same input. */
  predicate SameRequest(a: Input, b: Input) { a.id == b.id && a.sessionId == b.sessionId && a.kind == b.kind && a.content == b.content }

  ghost predicate Stored(s: Stream, x: Input, id: string) { x in s.inputs && x.id == id }

  lemma FoundIsStored(s: Stream, id: string)
    ensures Find(s.inputs, id) < |s.inputs| ==> Stored(s, s.inputs[Find(s.inputs, id)], id)
    ensures DistinctIds(s.inputs) ==> forall x :: Stored(s, x, id) ==> Find(s.inputs, id) < |s.inputs| && s.inputs[Find(s.inputs, id)] == x
  {
    var f := Find(s.inputs, id);
    if DistinctIds(s.inputs) {
      forall x | Stored(s, x, id) ensures f < |s.inputs| && s.inputs[f] == x {
        var i :| 0 <= i < |s.inputs| && s.inputs[i] == x;
        assert f == i;
      }
    }
  }

  /** An accepted request is in the queue as it was made: the stored input of that ID, or a new one at
      the end, queued and unbound, after all others. */
  lemma EnqueueGives(s: Stream, request: Input, now: int)
    requires Enqueue(s, request, now).Ok?
    ensures var u := Enqueue(s, request, now).value;
            && SameRequest(u.input, request) && u.input in u.stream.inputs
            && (!u.changed ==> u.stream == s)
            && (u.changed ==>
                  && u.stream.inputs == s.inputs + [u.input] && u.stream.nextSequence == u.input.sequence + 1
                  && u.input.state == Queued && u.input.executionId == "" && u.input.lastError == "" && u.input.revision == 1
                  && u.input.createdAt == u.input.updatedAt == now && u.input.sequence >= 1 && u.input.sequence >= s.nextSequence
                  && forall x :: x in s.inputs ==> x.id != request.id)
  {
    var u := Enqueue(s, request, now).value;
    if u.changed { assert u.stream.inputs[|s.inputs|] == u.input; }
  }

  /** An ID is refused exactly when it is in use for another request, and the queue is full exactly at
      the last sequence. */
  lemma EnqueueRefuses(s: Stream, request: Input, now: int)
    requires DistinctIds(s.inputs)
    ensures Enqueue(s, request, now) == Err(Conflict) <==> exists x :: Stored(s, x, request.id) && !SameRequest(x, request)
    ensures Enqueue(s, request, now) == Err(Exhausted) <==> s.nextSequence == MAX_UINT64 && forall x :: !Stored(s, x, request.id)
    ensures Enqueue(s, request, now).Err? ==> Enqueue(s, request, now).error == Conflict || Enqueue(s, request, now).error == Exhausted
  {
    FoundIsStored(s, request.id);
    var k := Find(s.inputs, request.id);
    if k < |s.inputs| { assert Stored(s, s.inputs[k], request.id); }
  }

  /** Once a request was accepted its ID is refused for any other request, after any operations. */
  lemma ReusedIdIsRefused(s: Stream, request: Input, now: int, ops: seq<Op>, other: Input, later: int)
    requires Enqueue(s, request, now).Ok? && other.id == request.id && !SameRequest(other, request)
    ensures Enqueue(Run(Enqueue(s, request, now).value.stream, ops), other, later) == Err(Conflict)
  {
    hide Run, Step;
    var u := Enqueue(s, request, now).value;
    EnqueueGives(s, request, now);
    assert u.changed ==> Find(u.stream.inputs, request.id) == |s.inputs| by {
      if u.changed { FindAppended(s.inputs, u.input); }
    }
    var k := UpdateStands(s, request.id, u, ops);
  }

  /** Who is acquired: the dispatching input again, else the first queued one; nobody exactly when
      everything is finished. */
  lemma AcquireTakes(s: Stream, session: string, now: int)
    requires Regular(s, session)
    ensures Acquire(s, now).Ok?
    ensures var a := Acquire(s, now).value;
            && (a.acquired.None? <==> forall x :: x in s.inputs ==> x.state.Terminal())
            && (a.acquired.None? || a.acquired.value.resumed ==> a.stream == s)
            && (a.acquired.Some? ==>
                  var got := a.acquired.value.input;
                  && got in a.stream.inputs && got.state == Dispatching
                  && (a.acquired.value.resumed <==> exists x :: x in s.inputs && x.state == Dispatching)
                  && forall x :: x in s.inputs && x.sequence < got.sequence ==> x.state.Terminal())
  {
    hide InputStore.RowOk;
    var d, k := FirstIn(s.inputs, Dispatching), FirstIn(s.inputs, Queued);
    if d < |s.inputs| {
      var e := FirstIn(s.inputs[d + 1..], Dispatching);
      assert e == |s.inputs| - d - 1;
      assert s.inputs[d] in s.inputs;
    } else if k < |s.inputs| {
      assert s.inputs[k] in s.inputs && Put(s, k, Dispatched(s.inputs[k], now)).inputs[k] == Dispatched(s.inputs[k], now);
    }
  }

  /** Two dispatching inputs are reported, not chosen from. */
  lemma SeveralAreCorrupt(s: Stream, i: nat, j: nat, now: int)
    requires i < j < |s.inputs| && s.inputs[i].state == s.inputs[j].state == Dispatching
    ensures Acquire(s, now) == Err(Corrupt)
  {
    var d := FirstIn(s.inputs, Dispatching);
    assert d <= i;
    var rest := s.inputs[d + 1..];
    assert rest[j - d - 1] == s.inputs[j];
    assert FirstIn(rest, Dispatching) <= j - d - 1;
  }

  /** What a stored stream is refused for. */
  lemma ValidRefuses(s: Stream, session: string, i: nat, j: nat)
    requires i < |s.inputs|
    ensures s.inputs[i].sessionId != session || s.inputs[i].sequence == 0 || s.inputs[i].revision == 0 ==> !Valid(s, session)
    ensures s.nextSequence != 0 && s.inputs[i].sequence >= s.nextSequence ==> !Valid(s, session)
    ensures i < j < |s.inputs| && (s.inputs[i].sequence >= s.inputs[j].sequence || s.inputs[i].id == s.inputs[j].id) ==> !Valid(s, session)
    ensures i < j < |s.inputs| && s.inputs[i].state == s.inputs[j].state == Dispatching ==> !Valid(s, session)
  {
    if Valid(s, session) {
      assert i < |s.inputs| - 1 ==> s.inputs[i].sequence < s.inputs[|s.inputs| - 1].sequence;
    }
  }

  /** The other calls act on the stored input of that ID, in the state that fits, and name what is
      wrong otherwise. */
  lemma CallsAnswer(s: Stream, id: string, executionId: string, state: InputState, error: string, revision: nat, now: int)
    requires DistinctIds(s.inputs) && executionId != ""
    ensures Bind(s, id, executionId, false, now) == Err(InvalidExecution)
    ensures (forall x :: !Stored(s, x, id)) ==>
              && Bind(s, id, executionId, true, now) == Err(NotFound) && CancelQueued(s, id, revision, now) == Err(NotFound)
              && (state.Terminal() ==> Complete(s, id, state, error, now) == Err(NotFound))
    ensures !state.Terminal() ==> Complete(s, id, state, error, now) == Err(NotTerminal)
    ensures forall x :: Stored(s, x, id) ==>
              && (Bind(s, id, executionId, true, now).Ok? <==> x.state == Dispatching && (x.executionId == "" || x.executionId == executionId))
              && (state.Terminal() ==>
                    (Complete(s, id, state, error, now).Ok? <==>
                       x.state == Dispatching || (x.state == state && x.lastError == TrimSpace(error))))
              && (CancelQueued(s, id, revision, now).Ok? <==> x.revision == revision && (x.state == Queued || x.state == Cancelled))
    ensures Bind(s, id, executionId, true, now).Ok? ==> Bind(s, id, executionId, true, now).value.input.executionId == executionId
    ensures Complete(s, id, state, error, now).Ok? ==> Complete(s, id, state, error, now).value.input.state == state
                                                       && Complete(s, id, state, error, now).value.input.lastError == TrimSpace(error)
    ensures CancelQueued(s, id, revision, now).Ok? ==> CancelQueued(s, id, revision, now).value.input.state == Cancelled
  {
    hide TrimSpace;
    FoundIsStored(s, id);
  }

  // ---- which streams a queue can hold ----------------------------------------

  /** Sequences from 1 without a gap, every input at a revision of its life cycle, distinct IDs, and
      only finished inputs before a dispatching one. */
  ghost predicate Regular(s: Stream, session: string) {
    && (s.nextSequence == |s.inputs| + 1 || (s.inputs == [] && s.nextSequence == 0))
    && (forall i :: 0 <= i < |s.inputs| ==> s.inputs[i].sequence == i + 1 && InputStore.RowOk(s.inputs[i], session))
    && DistinctIds(s.inputs)
    && (forall i, j :: 0 <= i < j < |s.inputs| && s.inputs[j].state == Dispatching ==> s.inputs[i].state.Terminal())
  }

  /** Requests reach the queue of their own session, and execution names are not empty. */
  predicate Proper(op: Op, session: string) {
    match op
    case DoEnqueue(request, _) => request.sessionId == session
    case DoBind(_, executionId, valid, _) => valid ==> executionId != ""
    case _ => true
  }

  lemma PutRegular(s: Stream, session: string, k: nat, y: Input)
    requires Regular(s, session) && k < |s.inputs| && InputStore.RowOk(y, session)
    requires y.id == s.inputs[k].id && y.sequence == s.inputs[k].sequence
    requires s.inputs[k].state != Dispatching && y.state == Dispatching ==> forall i :: 0 <= i < k ==> s.inputs[i].state.Terminal()
    requires s.inputs[k].state.Terminal() ==> y.state.Terminal()
    ensures Regular(Put(s, k, y), session)
  {
    hide InputStore.RowOk;
    assert forall i :: 0 <= i < |s.inputs| ==> Put(s, k, y).inputs[i].id == s.inputs[i].id;
  }

  lemma AppendRegular(s: Stream, session: string, x: Input)
    requires Regular(s, session) && InputStore.RowOk(x, session) && x.state == Queued
    requires x.sequence == |s.inputs| + 1 && Find(s.inputs, x.id) == |s.inputs|
    ensures Regular(Stream(x.sequence + 1, s.inputs + [x]), session)
  {
    hide InputStore.RowOk;
  }

  lemma StepRegular(s: Stream, session: string, op: Op)
    requires Regular(s, session) && Proper(op, session)
    ensures Regular(Step(s, op), session)
  {
    hide TrimSpace;
    if Step(s, op) != s {
      var k := if op.DoAcquire? then FirstIn(s.inputs, Queued) else if op.DoEnqueue? then 0 else Find(s.inputs, op.id);
      assert op.DoEnqueue? || InputStore.RowOk(s.inputs[k], session);
      hide Regular;
      match op
      case DoEnqueue(request, now) => EnqueueRegular(s, session, request, now);
      case DoAcquire(now) => AcquireRegular(s, session, now);
      case DoBind(id, executionId, valid, now) => PutRegular(s, session, k, Bound(s.inputs[k], executionId, now));
      case DoComplete(id, state, error, now) => PutRegular(s, session, k, Finished(s.inputs[k], state, TrimSpace(error), now));
      case DoCancel(id, revision, now) => PutRegular(s, session, k, Withdrawn(s.inputs[k], now));
    }
  }

  lemma EnqueueRegular(s: Stream, session: string, request: Input, now: int)
    requires Regular(s, session) && request.sessionId == session && Step(s, DoEnqueue(request, now)) != s
    ensures Regular(Step(s, DoEnqueue(request, now)), session)
  {
    AppendRegular(s, session, NewInput(request, |s.inputs| + 1, now));
  }

  lemma AcquireRegular(s: Stream, session: string, now: int)
    requires Regular(s, session) && Step(s, DoAcquire(now)) != s
    ensures Regular(Step(s, DoAcquire(now)), session)
  {
    var k := FirstIn(s.inputs, Queued);
    assert InputStore.RowOk(s.inputs[k], session);
    forall i | 0 <= i < k ensures s.inputs[i].state.Terminal() { assert s.inputs[i].state != Queued && s.inputs[i].state != Dispatching; }
    PutRegular(s, session, k, Dispatched(s.inputs[k], now));
  }

  /** Every stream a queue reaches from the empty one is regular. */
  lemma {:induction false} RunRegular(s: Stream, session: string, ops: seq<Op>)
    requires Regular(s, session) && forall i :: 0 <= i < |ops| ==> Proper(ops[i], session)
    ensures Regular(Run(s, ops), session)
    decreases |ops|
  {
    hide Regular, Step, Proper;
    if ops != [] {
      StepRegular(s, session, ops[0]);
      RunRegular(Step(s, ops[0]), session, ops[1..]);
    }
  }

  // ---- listing --------------------------------------------------------------------

  lemma {:induction false} ListedAfter(inputs: seq<Input>, after: nat)
    ensures forall x :: x in InputQueue.After(inputs, after) <==> x in inputs && x.sequence > after
  {
    if inputs != [] {
      ListedAfter(inputs[1..], after);
      assert inputs == [inputs[0]] + inputs[1..];
    }
  }

  ghost predicate RisingSequences(inputs: seq<Input>) { forall i, j :: 0 <= i < j < |inputs| ==> inputs[i].sequence < inputs[j].sequence }

  lemma {:induction false} AllAfter(inputs: seq<Input>, after: nat)
    requires forall i :: 0 <= i < |inputs| ==> inputs[i].sequence > after
    ensures InputQueue.After(inputs, after) == inputs
  {
    if inputs != [] {
      AllAfter(inputs[1..], after);
      assert inputs == [inputs[0]] + inputs[1..];
    }
  }

  /** The first n inputs are up to the cursor, the others beyond it. */
  ghost predicate CutsAt(inputs: seq<Input>, after: nat, n: nat) {
    n <= |inputs| && (forall i :: 0 <= i < n ==> inputs[i].sequence <= after) && (forall i :: n <= i < |inputs| ==> inputs[i].sequence > after)
  }

  lemma {:induction false} CutIsAfter(inputs: seq<Input>, after: nat, n: nat)
    requires CutsAt(inputs, after, n)
    ensures InputQueue.After(inputs, after) == inputs[n..]
  {
    if n == 0 {
      AllAfter(inputs, after);
      assert inputs[0..] == inputs;
    } else {
      CutTail(inputs, after, n);
      CutIsAfter(inputs[1..], after, n - 1);
      hide CutsAt;
      assert inputs[1..][n - 1..] == inputs[n..];
    }
  }

  lemma CutTail(inputs: seq<Input>, after: nat, n: nat)
    requires CutsAt(inputs, after, n) && n > 0
    ensures CutsAt(inputs[1..], after, n - 1)
  {
    assert forall i :: 0 <= i < |inputs| - 1 ==> inputs[1..][i] == inputs[i + 1];
  }

  lemma {:induction false} CutExists(inputs: seq<Input>, after: nat) returns (n: nat)
    requires RisingSequences(inputs)
    ensures CutsAt(inputs, after, n)
  {
    if inputs == [] {
      n := 0;
    } else {
      var k := |inputs| - 1;
      n := CutExists(inputs[..k], after);
      if inputs[k].sequence <= after { n := |inputs|; }
    }
  }

  /** Listing on from the last input of a page gives exactly the rest: nothing is skipped or repeated. */
  lemma NextPageGoesOn(inputs: seq<Input>, after: nat, items: seq<Input>)
    requires RisingSequences(inputs) && items != [] && items <= InputQueue.After(inputs, after)
    ensures InputQueue.After(inputs, after) == items + InputQueue.After(inputs, items[|items| - 1].sequence)
  {
    hide InputQueue.After, CutsAt, RisingSequences;
    var n := CutExists(inputs, after);
    CutIsAfter(inputs, after, n);
    Middle(inputs, n, items);
    CutMoves(inputs, n + |items|);
    CutIsAfter(inputs, items[|items| - 1].sequence, n + |items|);
  }

  lemma Middle(inputs: seq<Input>, n: nat, items: seq<Input>)
    requires n <= |inputs| && items != [] && items <= inputs[n..]
    ensures n + |items| <= |inputs| && inputs[n..] == items + inputs[n + |items|..] && items[|items| - 1] == inputs[n + |items| - 1]
  {
    assert items[|items| - 1] == inputs[n..][|items| - 1];
    assert inputs[n..][|items|..] == inputs[n + |items|..];
  }

  lemma CutMoves(inputs: seq<Input>, p: nat)
    requires RisingSequences(inputs) && 0 < p <= |inputs|
    ensures CutsAt(inputs, inputs[p - 1].sequence, p)
  {}
}
