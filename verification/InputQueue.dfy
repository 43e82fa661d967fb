/** The user-command queue of gateway/input.go: a FIFO of inputs that are queued, dispatched one
    at a time, bound to an execution and completed.  The functions say what each call decides on
    a stream; the methods below are the scanning loops, proved against them. */
module InputQueue {
  import opened Outcome
  import opened Text

  datatype InputState = Queued | Dispatching | Succeeded | Failed | Cancelled {
    predicate Terminal() { Succeeded? || Failed? || Cancelled? }
  }

  datatype Input = Input(
    id: string, sessionId: string, sequence: nat, kind: string, content: string, state: InputState,
    executionId: string, lastError: string, revision: nat, createdAt: int, updatedAt: int)

  datatype Stream = Stream(nextSequence: nat, inputs: seq<Input>)

  datatype Error = NotFound | Conflict | Exhausted | NotTerminal | InvalidExecution | Corrupt

  /** What a call leaves behind: the stream, the input it concerns, and whether anything changed. */
  datatype Update = Update(stream: Stream, input: Input, changed: bool)

  datatype Acquired = Acquired(input: Input, resumed: bool)

  datatype Acquisition = Acquisition(stream: Stream, acquired: Option<Acquired>, changed: bool)

  const MAX_UINT64: nat := 0xFFFF_FFFF_FFFF_FFFF

  // ---- decisions ---------------------------------------------------------

  /** The position of an input ID, or the length of the list. */
  function Find(inputs: seq<Input>, id: string): (k: nat)
    ensures k <= |inputs|
    ensures k < |inputs| ==> inputs[k].id == id
    ensures forall i :: 0 <= i < k ==> inputs[i].id != id
  {
    if inputs == [] || inputs[0].id == id then 0 else Find(inputs[1..], id) + 1
  }

  /** The first position in a given state, or the length of the list. */
  function FirstIn(inputs: seq<Input>, state: InputState): (k: nat)
    ensures k <= |inputs|
    ensures k < |inputs| ==> inputs[k].state == state
    ensures forall i :: 0 <= i < k ==> inputs[i].state != state
  {
    if inputs == [] || inputs[0].state == state then 0 else FirstIn(inputs[1..], state) + 1
  }

  function Put(s: Stream, k: nat, input: Input): Stream
    requires k < |s.inputs|
  {
    s.(inputs := s.inputs[k := input])
  }

  function NewInput(request: Input, sequence: nat, now: int): Input {
    request.(sequence := sequence, state := Queued, executionId := "", lastError := "",
             revision := 1, createdAt := now, updatedAt := now)
  }

  function Enqueue(s: Stream, request: Input, now: int): Result<Update, Error> {
    var k := Find(s.inputs, request.id);
    if k < |s.inputs| then
      if s.inputs[k].sessionId == request.sessionId && s.inputs[k].kind == request.kind && s.inputs[k].content == request.content
      then Ok(Update(s, s.inputs[k], false)) else Err(Conflict)
    else
      var next := if s.nextSequence == 0 then 1 else s.nextSequence;
      if next == MAX_UINT64 then Err(Exhausted)
      else
        var created := NewInput(request, next, now);
        Ok(Update(Stream(next + 1, s.inputs + [created]), created, true))
  }

  function Dispatched(input: Input, now: int): Input {
    input.(state := Dispatching, revision := input.revision + 1, updatedAt := now)
  }

  function Acquire(s: Stream, now: int): Result<Acquisition, Error> {
    var d := FirstIn(s.inputs, Dispatching);
    if d < |s.inputs| && FirstIn(s.inputs[d + 1..], Dispatching) < |s.inputs| - d - 1 then Err(Corrupt)
    else if d < |s.inputs| then Ok(Acquisition(s, Some(Acquired(s.inputs[d], true)), false))
    else
      var k := FirstIn(s.inputs, Queued);
      if k == |s.inputs| then Ok(Acquisition(s, None, false))
      else
        var input := Dispatched(s.inputs[k], now);
        Ok(Acquisition(Put(s, k, input), Some(Acquired(input, false)), true))
  }

  function Bound(input: Input, executionId: string, now: int): Input {
    input.(executionId := executionId, revision := input.revision + 1, updatedAt := now)
  }

  /** `valid` is the outcome of the resource-name check on the execution ID. */
  function Bind(s: Stream, id: string, executionId: string, valid: bool, now: int): Result<Update, Error> {
    var k := Find(s.inputs, id);
    if !valid then Err(InvalidExecution)
    else if k == |s.inputs| then Err(NotFound)
    else
      var input := s.inputs[k];
      if input.state != Dispatching then Err(Conflict)
      else if input.executionId == executionId then Ok(Update(s, input, false))
      else if input.executionId != "" then Err(Conflict)
      else Ok(Update(Put(s, k, Bound(input, executionId, now)), Bound(input, executionId, now), true))
  }

  function Finished(input: Input, state: InputState, lastError: string, now: int): Input {
    input.(state := state, lastError := lastError, revision := input.revision + 1, updatedAt := now)
  }

  function Complete(s: Stream, id: string, state: InputState, rawError: string, now: int): Result<Update, Error> {
    var lastError := TrimSpace(rawError);
    var k := Find(s.inputs, id);
    if !state.Terminal() then Err(NotTerminal)
    else if k == |s.inputs| then Err(NotFound)
    else
      var input := s.inputs[k];
      if input.state == state && input.lastError == lastError then Ok(Update(s, input, false))
      else if input.state != Dispatching then Err(Conflict)
      else Ok(Update(Put(s, k, Finished(input, state, lastError, now)), Finished(input, state, lastError, now), true))
  }

  function Withdrawn(input: Input, now: int): Input {
    input.(state := Cancelled, revision := input.revision + 1, updatedAt := now)
  }

  function CancelQueued(s: Stream, id: string, expectedRevision: nat, now: int): Result<Update, Error> {
    var k := Find(s.inputs, id);
    if k == |s.inputs| then Err(NotFound)
    else
      var input := s.inputs[k];
      if input.revision != expectedRevision then Err(Conflict)
      else if input.state == Cancelled then Ok(Update(s, input, false))
      else if input.state != Queued then Err(Conflict)
      else Ok(Update(Put(s, k, Withdrawn(input, now)), Withdrawn(input, now), true))
  }

  /** The cross-row checks of `validateInputStream`; the per-row checks on names and times are
      those of the request and are part of what a stored input is here. */
  ghost predicate Valid(s: Stream, sessionId: string) {
    && Rising(s.inputs, sessionId) && DistinctIds(s.inputs) && OneDispatching(s.inputs)
    && (if s.inputs == [] then 0 else s.inputs[|s.inputs| - 1].sequence) < (if s.nextSequence == 0 then 1 else s.nextSequence)
  }

  ghost predicate Rising(inputs: seq<Input>, sessionId: string) {
    && (forall i :: 0 <= i < |inputs| ==>
          inputs[i].sessionId == sessionId && inputs[i].revision > 0 && inputs[i].sequence > 0)
    && (forall i, j :: 0 <= i < j < |inputs| ==> inputs[i].sequence < inputs[j].sequence)
  }

  ghost predicate DistinctIds(inputs: seq<Input>) {
    forall i, j :: 0 <= i < j < |inputs| ==> inputs[i].id != inputs[j].id
  }

  ghost predicate OneDispatching(inputs: seq<Input>) {
    forall i, j :: 0 <= i < j < |inputs| ==> !(inputs[i].state == Dispatching && inputs[j].state == Dispatching)
  }

  ghost function After(inputs: seq<Input>, after: nat): seq<Input> {
    if inputs == [] then []
    else (if inputs[0].sequence > after then [inputs[0]] else []) + After(inputs[1..], after)
  }

  lemma AfterNext(inputs: seq<Input>, after: nat, i: nat, items: seq<Input>)
    requires i < |inputs|
    ensures var more := if inputs[i].sequence > after then items + [inputs[i]] else items;
            items + After(inputs[i..], after) == more + After(inputs[i + 1..], after)
  {}

  // ---- the loops of gateway/input.go --------------------------------------

  method EnqueueInput(s: Stream, request: Input, now: int) returns (r: Result<Update, Error>)
    ensures r == Enqueue(s, request, now)
  {
    for i := 0 to |s.inputs|
      invariant forall j :: 0 <= j < i ==> s.inputs[j].id != request.id
    {
      var current := s.inputs[i];
      if current.id == request.id {
        if current.sessionId == request.sessionId && current.kind == request.kind && current.content == request.content {
          return Ok(Update(s, current, false));
        }
        return Err(Conflict);
      }
    }
    var next := s.nextSequence;
    if next == 0 { next := 1; }
    if next == MAX_UINT64 { return Err(Exhausted); }
    var input := NewInput(request, next, now);
    return Ok(Update(Stream(next + 1, s.inputs + [input]), input, true));
  }

  /** The first loop of `acquire`: the only dispatching input, if any, and whether there are two. */
  method ScanDispatching(inputs: seq<Input>) returns (k: nat, several: bool)
    ensures k == FirstIn(inputs, Dispatching)
    ensures several <==> k < |inputs| && FirstIn(inputs[k + 1..], Dispatching) < |inputs| - k - 1
  {
    hide FirstIn;
    var dispatching := -1;
    for i := 0 to |inputs|
      invariant -1 <= dispatching < i
      invariant forall j :: 0 <= j < i && j != dispatching ==> inputs[j].state != Dispatching
      invariant dispatching >= 0 ==> inputs[dispatching].state == Dispatching
    {
      if inputs[i].state == Dispatching {
        if dispatching >= 0 {
          return dispatching, true;
        }
        dispatching := i;
      }
    }
    if dispatching < 0 { return |inputs|, false; }
    return dispatching, false;
  }

  method AcquireInput(s: Stream, now: int) returns (r: Result<Acquisition, Error>)
    ensures r == Acquire(s, now)
  {
    var dispatching, several := ScanDispatching(s.inputs);
    if several { return Err(Corrupt); }
    if dispatching < |s.inputs| {
      return Ok(Acquisition(s, Some(Acquired(s.inputs[dispatching], true)), false));
    }
    for i := 0 to |s.inputs|
      invariant forall j :: 0 <= j < i ==> s.inputs[j].state != Queued
    {
      if s.inputs[i].state == Queued {
        var input := Dispatched(s.inputs[i], now);
        return Ok(Acquisition(Put(s, i, input), Some(Acquired(input, false)), true));
      }
    }
    return Ok(Acquisition(s, None, false));
  }

  /** The scan for an input ID that `bind`, `complete` and `cancel` share. */
  method Locate(inputs: seq<Input>, id: string) returns (k: nat)
    ensures k == Find(inputs, id)
  {
    for i := 0 to |inputs|
      invariant forall j :: 0 <= j < i ==> inputs[j].id != id
    {
      if inputs[i].id == id {
        return i;
      }
    }
    return |inputs|;
  }

  method BindInput(s: Stream, id: string, executionId: string, valid: bool, now: int) returns (r: Result<Update, Error>)
    ensures r == Bind(s, id, executionId, valid, now)
  {
    if !valid { return Err(InvalidExecution); }
    var k := Locate(s.inputs, id);
    if k == |s.inputs| { return Err(NotFound); }
    var input := s.inputs[k];
    if input.state != Dispatching { return Err(Conflict); }
    if input.executionId == executionId { return Ok(Update(s, input, false)); }
    if input.executionId != "" { return Err(Conflict); }
    input := Bound(input, executionId, now);
    return Ok(Update(Put(s, k, input), input, true));
  }

  method CompleteInput(s: Stream, id: string, state: InputState, rawError: string, now: int) returns (r: Result<Update, Error>)
    ensures r == Complete(s, id, state, rawError, now)
  {
    if !state.Terminal() { return Err(NotTerminal); }
    var lastError := TrimSpace(rawError);
    var k := Locate(s.inputs, id);
    if k == |s.inputs| { return Err(NotFound); }
    var input := s.inputs[k];
    if input.state == state && input.lastError == lastError { return Ok(Update(s, input, false)); }
    if input.state != Dispatching { return Err(Conflict); }
    input := Finished(input, state, lastError, now);
    return Ok(Update(Put(s, k, input), input, true));
  }

  method CancelInput(s: Stream, id: string, expectedRevision: nat, now: int) returns (r: Result<Update, Error>)
    ensures r == CancelQueued(s, id, expectedRevision, now)
  {
    var k := Locate(s.inputs, id);
    if k == |s.inputs| { return Err(NotFound); }
    var input := s.inputs[k];
    if input.revision != expectedRevision { return Err(Conflict); }
    if input.state == Cancelled { return Ok(Update(s, input, false)); }
    if input.state != Queued { return Err(Conflict); }
    input := Withdrawn(input, now);
    return Ok(Update(Put(s, k, input), input, true));
  }

  /** A page: the first `limit` inputs beyond the cursor, and the sequence to continue from. */
  method ListInputs(s: Stream, after: nat, limit: nat) returns (items: seq<Input>, next: nat)
    requires limit >= 1
    ensures items <= After(s.inputs, after) && |items| <= limit
    ensures |items| < limit ==> items == After(s.inputs, after)
    ensures next == if items == [] then 0 else items[|items| - 1].sequence
  {
    items := [];
    assert s.inputs[0..] == s.inputs && s.inputs[|s.inputs|..] == [] && After([], after) == [];
    hide After;
    for i := 0 to |s.inputs|
      invariant |items| < limit && After(s.inputs, after) == items + After(s.inputs[i..], after)
    {
      AfterNext(s.inputs, after, i, items);
      if s.inputs[i].sequence > after {
        items := items + [s.inputs[i]];
        if |items| == limit { break; }
      }
    }
    next := if items == [] then 0 else items[|items| - 1].sequence;
  }

  /** `validateInputStream`: scan once with the previous sequence, the seen IDs and the number
      of dispatching inputs. */
  method ValidateStream(s: Stream, sessionId: string) returns (ok: bool)
    ensures ok <==> Valid(s, sessionId)
  {
    hide Rising, DistinctIds, OneDispatching, CountDispatching;
    var next := if s.nextSequence == 0 then 1 else s.nextSequence;
    var previous, seen, dispatching := 0, {}, 0;
    EmptyPrefix(s.inputs, sessionId);
    for i := 0 to |s.inputs|
      invariant previous == if i == 0 then 0 else s.inputs[i - 1].sequence
      invariant Rising(s.inputs[..i], sessionId) && DistinctIds(s.inputs[..i])
      invariant seen == Ids(s.inputs[..i])
      invariant dispatching == CountDispatching(s.inputs[..i])
    {
      var input := s.inputs[i];
      LongerPrefix(s.inputs, i, sessionId);
      if input.sessionId != sessionId || input.sequence <= previous || input.revision == 0 { return false; }
      if input.id in seen { return false; }
      seen := seen + {input.id};
      if input.state == Dispatching { dispatching := dispatching + 1; }
      previous := input.sequence;
    }
    assert s.inputs[..|s.inputs|] == s.inputs;
    CountAtMostOne(s.inputs);
    return dispatching <= 1 && previous < next;
  }

  ghost function Ids(inputs: seq<Input>): set<string> { set input | input in inputs :: input.id }

  lemma EmptyPrefix(inputs: seq<Input>, sessionId: string)
    ensures Rising(inputs[..0], sessionId) && DistinctIds(inputs[..0])
    ensures Ids(inputs[..0]) == {} && CountDispatching(inputs[..0]) == 0
  {}

  /** What one more input adds to each running variable of the scan. */
  lemma LongerPrefix(inputs: seq<Input>, i: nat, sessionId: string)
    requires i < |inputs|
    ensures var input := inputs[i]; var previous := if i == 0 then 0 else inputs[i - 1].sequence;
      Rising(inputs[..i], sessionId) ==>
        (Rising(inputs[..i + 1], sessionId) <==>
          input.sessionId == sessionId && input.sequence > previous && input.revision != 0)
    ensures Rising(inputs, sessionId) ==> Rising(inputs[..i + 1], sessionId)
    ensures DistinctIds(inputs[..i]) ==> (DistinctIds(inputs[..i + 1]) <==> inputs[i].id !in Ids(inputs[..i]))
    ensures DistinctIds(inputs) ==> DistinctIds(inputs[..i + 1])
    ensures Ids(inputs[..i + 1]) == Ids(inputs[..i]) + {inputs[i].id}
    ensures CountDispatching(inputs[..i + 1]) == CountDispatching(inputs[..i]) + if inputs[i].state == Dispatching then 1 else 0
  {
    hide Rising, DistinctIds;
    assert inputs[..i + 1][..i] == inputs[..i];
    if Rising(inputs[..i], sessionId) { RisingLonger(inputs, i, sessionId); }
    if DistinctIds(inputs[..i]) { DistinctLonger(inputs, i); }
    PrefixKeeps(inputs, i + 1, sessionId);
    assert inputs[..i + 1] == inputs[..i] + [inputs[i]];
  }

  lemma PrefixKeeps(inputs: seq<Input>, i: nat, sessionId: string)
    requires i <= |inputs|
    ensures Rising(inputs, sessionId) ==> Rising(inputs[..i], sessionId)
    ensures DistinctIds(inputs) ==> DistinctIds(inputs[..i])
  {}

  lemma RisingLonger(inputs: seq<Input>, i: nat, sessionId: string)
    requires i < |inputs| && Rising(inputs[..i], sessionId)
    ensures var input := inputs[i]; var previous := if i == 0 then 0 else inputs[i - 1].sequence;
      Rising(inputs[..i + 1], sessionId) <==>
        input.sessionId == sessionId && input.sequence > previous && input.revision != 0
  {
    var longer := inputs[..i + 1];
    assert forall j :: 0 <= j < i ==> longer[j] == inputs[..i][j];
    assert longer[i] == inputs[i];
    if i > 0 { assert longer[i - 1] == inputs[i - 1]; }
  }

  lemma DistinctLonger(inputs: seq<Input>, i: nat)
    requires i < |inputs| && DistinctIds(inputs[..i])
    ensures DistinctIds(inputs[..i + 1]) <==> inputs[i].id !in Ids(inputs[..i])
  {}

  function CountDispatching(inputs: seq<Input>): nat {
    if inputs == [] then 0
    else CountDispatching(inputs[..|inputs| - 1]) + if inputs[|inputs| - 1].state == Dispatching then 1 else 0
  }

  lemma {:induction false} CountAtMostOne(inputs: seq<Input>)
    ensures CountDispatching(inputs) == 0 <==> forall i :: 0 <= i < |inputs| ==> inputs[i].state != Dispatching
    ensures CountDispatching(inputs) <= 1 <==> OneDispatching(inputs)
  {
    if inputs != [] {
      var front := inputs[..|inputs| - 1];
      CountAtMostOne(front);
      if inputs[|inputs| - 1].state == Dispatching && CountDispatching(front) > 0 {
        var i :| 0 <= i < |front| && front[i].state == Dispatching;
        assert inputs[i].state == Dispatching;
      }
      assert forall i :: 0 <= i < |front| ==> front[i] == inputs[i];
    }
  }
}
