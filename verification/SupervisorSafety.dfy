/** Exactly-once submission across crashes, one runner at a time, and no lost wakeup. */
module SupervisorSafety {
  import opened Outcome
  import opened InputQueue
  import opened Text
  import opened Supervisor

  // ---- invariant ---------------------------------------------------------

  ghost predicate NoExecution(es: seq<Execution>, sequence: nat) {
    forall k :: 0 <= k < |es| ==> es[k].input != sequence
  }

  ghost predicate IsExecutionOf(es: seq<Execution>, id: string, sequence: nat) {
    exists k :: 0 <= k < |es| && es[k].id == id && es[k].input == sequence
  }

  /** At most one accepted execution per input, with distinct IDs. */
  ghost predicate OnePerInput(es: seq<Execution>) {
    forall i, j :: 0 <= i < j < |es| ==> es[i].input != es[j].input && es[i].id != es[j].id
  }

  /** The executions of other inputs are older than the acquisition of `x`; its own, if any, is
      the current one and is not older. */
  ghost predicate OwnIsCurrent(es: seq<Execution>, x: Input) {
    forall k :: 0 <= k < |es| ==>
      if es[k].input == x.sequence then k == |es| - 1 && es[k].createdAt >= x.updatedAt
      else es[k].createdAt < x.updatedAt
  }

  ghost predicate InputOk(es: seq<Execution>, x: Input, clock: int) {
    && x.updatedAt <= clock
    && (x.state == Queued ==> x.executionId == "" && NoExecution(es, x.sequence))
    && (x.executionId != "" ==> IsExecutionOf(es, x.executionId, x.sequence))
    && (x.state == Dispatching && x.executionId == "" ==> OwnIsCurrent(es, x))
  }

  ghost predicate Fifo(inputs: seq<Input>) {
    && (forall i, j :: 0 <= i < j < |inputs| ==> inputs[i].sequence < inputs[j].sequence && inputs[i].id != inputs[j].id)
    && (forall i, j :: 0 <= i < j < |inputs| && inputs[j].state == Dispatching ==> inputs[i].state.Terminal())
  }

  ghost predicate Queueing(stream: Stream) {
    && Fifo(stream.inputs) && stream.nextSequence >= 1
    && forall k :: 0 <= k < |stream.inputs| ==> stream.inputs[k].sequence < stream.nextSequence
  }

  ghost predicate Durable(s: State) {
    && Queueing(s.stream) && OnePerInput(s.executions)
    && (forall k :: 0 <= k < |s.stream.inputs| ==> InputOk(s.executions, s.stream.inputs[k], s.clock))
    && (forall k :: 0 <= k < |s.executions| ==>
          s.executions[k].input < s.stream.nextSequence && s.executions[k].createdAt <= s.clock && s.executions[k].id != "")
  }

  /** The runner's copy of an input is the stored one and is being dispatched. */
  ghost predicate Holds(s: State, x: Input) {
    x.state == Dispatching && x in s.stream.inputs
  }

  ghost predicate RunnerOk(s: State, runner: Runner) {
    match runner
    case Loading | Acquiring | Leaving => true
    case AtBoundary(x, recovering) => Holds(s, x) && x.executionId == "" && (!recovering ==> NoExecution(s.executions, x.sequence))
    case Rereading(x) => Holds(s, x) && x.executionId == "" && NoExecution(s.executions, x.sequence)
    case Submitting(x) => Holds(s, x) && x.executionId == "" && NoExecution(s.executions, x.sequence)
    case Failing(x) => Holds(s, x) && x.executionId == ""
    case Binding(x, id) => Holds(s, x) && x.executionId == "" && id != "" && IsExecutionOf(s.executions, id, x.sequence)
    case Awaiting(x, id) => Holds(s, x) && x.executionId == id && id != ""
  }

  /** The mutex-guarded table has an entry exactly while one runner lives, and never two live. */
  ghost predicate OneRunner(s: State) {
    && (forall q, r :: q in s.runners && r in s.runners ==> q == r)
    && (s.registered <==> exists r :: r in s.runners)
  }

  ghost predicate Inv(s: State) {
    && Durable(s) && OneRunner(s)
    && forall r :: r in s.runners ==> RunnerOk(s, s.runners[r])
  }

  lemma InitialInv()
    ensures Inv(INITIAL)
  {}

  // ---- changes of one input ----------------------------------------------

  lemma PutQueueing(stream: Stream, k: nat, y: Input)
    requires Queueing(stream) && k < |stream.inputs|
    requires y.id == stream.inputs[k].id && y.sequence == stream.inputs[k].sequence
    requires stream.inputs[k].state != Dispatching && y.state == Dispatching ==>
             forall i :: 0 <= i < k ==> stream.inputs[i].state.Terminal()
    requires stream.inputs[k].state.Terminal() ==> y.state.Terminal()
    ensures Queueing(Put(stream, k, y))
  {
    var inputs, inputs' := stream.inputs, stream.inputs[k := y];
    assert forall i :: 0 <= i < |inputs'| ==> inputs'[i].sequence == inputs[i].sequence && inputs'[i].id == inputs[i].id;
    forall i, j | 0 <= i < j < |inputs'| && inputs'[j].state == Dispatching ensures inputs'[i].state.Terminal() {
    }
  }

  /** Replacing input k by a later version that stays within the rules keeps the durable state. */
  lemma PutKeeps(s: State, k: nat, y: Input)
    requires Durable(s) && k < |s.stream.inputs|
    requires var x := s.stream.inputs[k];
             y.id == x.id && y.sequence == x.sequence && InputOk(s.executions, y, s.clock)
    requires s.stream.inputs[k].state != Dispatching && y.state == Dispatching ==>
             forall i :: 0 <= i < k ==> s.stream.inputs[i].state.Terminal()
    requires s.stream.inputs[k].state.Terminal() ==> y.state.Terminal()
    ensures Durable(s.(stream := Put(s.stream, k, y)))
  {
    hide Queueing, InputOk;
    PutQueueing(s.stream, k, y);
  }

  lemma HeldAt(s: State, x: Input) returns (k: nat)
    requires Durable(s) && Holds(s, x)
    ensures k < |s.stream.inputs| && s.stream.inputs[k] == x && Find(s.stream.inputs, x.id) == k
    ensures forall i :: 0 <= i < |s.stream.inputs| && s.stream.inputs[i].state == Dispatching ==> i == k
  {
    k :| 0 <= k < |s.stream.inputs| && s.stream.inputs[k] == x;
    var f := Find(s.stream.inputs, x.id);
    assert f == k;
  }

  // ---- steps of callers and of the world ---------------------------------

  lemma EnqueueKeeps(s: State, request: Input, sawPaused: bool)
    requires Inv(s)
    ensures Inv(Next(s, Enqueue(request, sawPaused)))
  {
    var r := InputQueue.Enqueue(s.stream, request, s.clock);
    if r.Ok? && r.value.changed {
      var s' := Next(s, Enqueue(request, sawPaused));
      AppendKeeps(s, r.value.input);
      forall q | q in s'.runners ensures RunnerOk(s', s'.runners[q]) {
        assert RunnerOk(s, s.runners[q]);
        assert forall x :: x in s.stream.inputs ==> x in s'.stream.inputs;
      }
    }
  }

  lemma AppendKeeps(s: State, x: Input)
    requires Durable(s) && x.sequence == s.stream.nextSequence && x.state == Queued && x.executionId == ""
    requires x.updatedAt == s.clock && Find(s.stream.inputs, x.id) == |s.stream.inputs|
    ensures Durable(s.(stream := Stream(x.sequence + 1, s.stream.inputs + [x])))
  {
    assert NoExecution(s.executions, x.sequence);
  }

  lemma CancelKeeps(s: State, id: string, revision: nat)
    requires Inv(s)
    ensures Inv(Next(s, CancelInput(id, revision)))
  {
    var r := CancelQueued(s.stream, id, revision, s.clock);
    if r.Ok? && r.value.changed {
      var k := Find(s.stream.inputs, id);
      PutKeeps(s, k, r.value.input);
      var s' := Next(s, CancelInput(id, revision));
      forall q | q in s'.runners ensures RunnerOk(s', s'.runners[q]) {
        assert RunnerOk(s, s.runners[q]);
        forall x | Holds(s, x) ensures Holds(s', x) { StaysHeld(s.stream.inputs, k, r.value.input, x); }
      }
    }
  }

  lemma StaysHeld(inputs: seq<Input>, k: nat, y: Input, x: Input)
    requires k < |inputs| && x in inputs && x != inputs[k]
    ensures x in inputs[k := y]
  {
    var i :| 0 <= i < |inputs| && inputs[i] == x;
    assert inputs[k := y][i] == x;
  }

  lemma EndKeeps(s: State, k: nat)
    requires Inv(s) && k < |s.executions|
    ensures Inv(Next(s, ExecutionEnds(k)))
  {
    var s' := Next(s, ExecutionEnds(k));
    var es, es' := s.executions, s'.executions;
    assert forall i :: 0 <= i < |es| ==> es'[i].input == es[i].input && es'[i].id == es[i].id && es'[i].createdAt == es[i].createdAt;
    forall id, n | IsExecutionOf(es, id, n) ensures IsExecutionOf(es', id, n) {
      var i :| 0 <= i < |es| && es[i].id == id && es[i].input == n;
      assert es'[i].id == id && es'[i].input == n;
    }
    forall i | 0 <= i < |s.stream.inputs| ensures InputOk(es', s.stream.inputs[i], s.clock) {
      assert InputOk(es, s.stream.inputs[i], s.clock);
    }
    forall q | q in s'.runners ensures RunnerOk(s', s'.runners[q]) { assert RunnerOk(s, s.runners[q]); }
  }

  lemma TickKeeps(s: State, now: int)
    requires Inv(s) && s.clock <= now
    ensures Inv(Next(s, Tick(now)))
  {
    var s' := Next(s, Tick(now));
    forall i | 0 <= i < |s.stream.inputs| ensures InputOk(s.executions, s.stream.inputs[i], now) {
      assert InputOk(s.executions, s.stream.inputs[i], s.clock);
    }
    forall q | q in s'.runners ensures RunnerOk(s', s'.runners[q]) { assert RunnerOk(s, s.runners[q]); }
  }

  // ---- steps of the runner -----------------------------------------------

  /** The only runner moves on without a durable change. */
  lemma GotoKeeps(s: State, r: nat, runner: Runner)
    requires Inv(s) && r in s.runners && RunnerOk(s, runner)
    ensures Inv(Goto(s, r, runner))
  {
    var s' := Goto(s, r, runner);
    assert r in s'.runners;
    forall q | q in s'.runners ensures RunnerOk(s', s'.runners[q]) {
      assert q == r;
      assert RunnerOk(s', runner);
    }
  }

  /** The only runner changes the durable state and moves on. */
  lemma MoveKeeps(s: State, s1: State, r: nat, runner: Runner)
    requires Inv(s) && r in s.runners && Durable(s1) && RunnerOk(s1, runner)
    requires s1.runners == s.runners && s1.registered == s.registered
    ensures Inv(Goto(s1, r, runner))
  {
    var s' := Goto(s1, r, runner);
    assert r in s'.runners;
    forall q | q in s'.runners ensures RunnerOk(s', s'.runners[q]) {
      assert q == r;
      assert RunnerOk(s', runner);
    }
  }

  lemma StopKeeps(s: State, r: nat)
    requires Inv(s) && r in s.runners
    ensures Inv(Stop(s, r))
  {
    assert forall q :: q in s.runners ==> q == r;
  }

  /** In a FIFO stream the acquisition never finds two dispatching inputs. */
  lemma AcquireIsOk(s: State)
    requires Fifo(s.stream.inputs)
    ensures Acquire(s.stream, s.clock).Ok?
    ensures Acquire(s.stream, s.clock).value.acquired.None? ==>
            forall i :: 0 <= i < |s.stream.inputs| ==> s.stream.inputs[i].state.Terminal()
  {
    var inputs := s.stream.inputs;
    var d := FirstIn(inputs, Dispatching);
    if d < |inputs| {
      var e := FirstIn(inputs[d + 1..], Dispatching);
      assert e == |inputs| - d - 1;
    }
  }

  lemma AcquireKeeps(s: State, r: nat)
    requires Inv(s) && r in s.runners && Timely(s, AcquireNext(r, false))
    ensures Inv(AfterAcquire(s, r))
  {
    AcquireIsOk(s);
    var a := Acquire(s.stream, s.clock).value;
    if a.acquired.None? {
      StopKeeps(s, r);
    } else if a.changed {
      FreshAcquireKeeps(s, r);
    } else {
      var d := FirstIn(s.stream.inputs, Dispatching);
      var x := s.stream.inputs[d];
      assert InputOk(s.executions, x, s.clock);
      GotoKeeps(s, r, if x.executionId != "" then Awaiting(x, x.executionId) else AtBoundary(x, true));
    }
  }

  lemma FreshAcquireKeeps(s: State, r: nat)
    requires Inv(s) && r in s.runners && Timely(s, AcquireNext(r, false))
    requires Acquire(s.stream, s.clock).Ok? && Acquire(s.stream, s.clock).value.changed
    ensures Inv(AfterAcquire(s, r))
  {
    var k := FirstIn(s.stream.inputs, Queued);
    var x := s.stream.inputs[k];
    var y := Dispatched(x, s.clock);
    assert InputOk(s.executions, x, s.clock);
    assert OwnIsCurrent(s.executions, y);
    PutKeeps(s, k, y);
    var s1 := s.(stream := Put(s.stream, k, y));
    assert s1.stream.inputs[k] == y;
    MoveKeeps(s, s1, r, AtBoundary(y, false));
  }

  lemma BoundaryKeeps(s: State, r: nat)
    requires Inv(s) && r in s.runners && s.runners[r].AtBoundary?
    ensures Inv(Goto(s, r, Boundary(s.executions, s.runners[r].input, s.runners[r].recovering)))
  {
    assert RunnerOk(s, s.runners[r]);
    var x, recovering := s.runners[r].input, s.runners[r].recovering;
    var k := HeldAt(s, x);
    assert InputOk(s.executions, x, s.clock);
    BoundaryChoosesOwn(s.executions, x, recovering);
    GotoKeeps(s, r, Boundary(s.executions, x, recovering));
  }

  /** Creation time tells the executions apart: a recovering runner adopts exactly the execution
      of its own input, and only a runner whose input has none goes on to submit. */
  lemma BoundaryChoosesOwn(es: seq<Execution>, x: Input, recovering: bool)
    requires OwnIsCurrent(es, x) && (!recovering ==> NoExecution(es, x.sequence))
    requires forall k :: 0 <= k < |es| ==> es[k].id != ""
    ensures var b := Boundary(es, x, recovering);
            && (b.Binding? ==> b.executionId != "" && IsExecutionOf(es, b.executionId, x.sequence))
            && (b.Rereading? ==> NoExecution(es, x.sequence))
  {}

  lemma SubmitKeeps(s: State, r: nat, answer: Submission, id: string)
    requires Inv(s) && Enabled(s, SubmitInput(r, answer, id)) && !answer.Rejected?
    ensures Inv(Next(s, SubmitInput(r, answer, id)))
  {
    assert RunnerOk(s, s.runners[r]);
    var x := s.runners[r].input;
    var h := HeldAt(s, x);
    var s1 := s.(executions := s.executions + [Execution(id, s.clock, false, x.sequence)]);
    var es, es' := s.executions, s1.executions;
    assert es'[|es|].id == id && es'[|es|].input == x.sequence;
    forall i | 0 <= i < |s.stream.inputs| ensures InputOk(es', s.stream.inputs[i], s.clock) {
      assert InputOk(es, s.stream.inputs[i], s.clock);
      SubmitInputOk(es, es'[|es|], s.stream.inputs[i], s.clock, i == h);
    }
    MoveKeeps(s, s1, r, if answer.Accepted? then Binding(x, id) else Failing(x));
  }

  lemma SubmitInputOk(es: seq<Execution>, e: Execution, y: Input, clock: int, own: bool)
    requires InputOk(es, y, clock) && e.createdAt == clock
    requires own ==> y.state == Dispatching && y.sequence == e.input && NoExecution(es, e.input)
    requires !own ==> y.state != Dispatching && y.sequence != e.input
    ensures InputOk(es + [e], y, clock)
  {
    if y.executionId != "" {
      var i :| 0 <= i < |es| && es[i].id == y.executionId && es[i].input == y.sequence;
      assert (es + [e])[i] == es[i];
    }
  }

  lemma BindKeeps(s: State, r: nat, fails: bool)
    requires Inv(s) && Enabled(s, BindExecution(r, fails))
    ensures Inv(Next(s, BindExecution(r, fails)))
  {
    assert RunnerOk(s, s.runners[r]);
    var x, id := s.runners[r].input, s.runners[r].executionId;
    var k := HeldAt(s, x);
    var y := Bound(x, id, s.clock);
    GotoKeeps(s, r, Loading);
    assert InputOk(s.executions, x, s.clock);
    PutKeeps(s, k, y);
    var s1 := s.(stream := Put(s.stream, k, y));
    assert s1.stream.inputs[k] == y;
    MoveKeeps(s, s1, r, Awaiting(y, id));
  }

  lemma FinishKeeps(s: State, r: nat, x: Input, outcome: InputState, error: string, fails: bool)
    requires Inv(s) && r in s.runners && Holds(s, x) && outcome.Terminal()
    ensures Inv(Finish(s, r, x.id, outcome, error, fails))
  {
    var k := HeldAt(s, x);
    var y := Finished(x, outcome, TrimSpace(error), s.clock);
    GotoKeeps(s, r, Loading);
    assert InputOk(s.executions, x, s.clock);
    PutKeeps(s, k, y);
    MoveKeeps(s, s.(stream := Put(s.stream, k, y)), r, Loading);
  }

  lemma RunnerStepKeeps(s: State, step: Step)
    requires Inv(s) && Enabled(s, step) && Timely(s, step)
    requires step.LoadSession? || step.AcquireNext? || step.LookAtCurrent? || step.RereadSession? || step.Leave?
          || step.SubmitInput? || step.BindExecution? || step.AwaitExecution? || step.FailInput?
    ensures Inv(Next(s, step))
  {
    hide Durable, OneRunner;
    assert RunnerOk(s, s.runners[step.r]);
    match step
    case LoadSession(r, fails) => GotoKeeps(s, r, if fails || s.paused then Leaving else Acquiring);
    case AcquireNext(r, fails) => if fails { StopKeeps(s, r); } else { AcquireKeeps(s, r); }
    case LookAtCurrent(r, fails) => if !fails { BoundaryKeeps(s, r); }
    case RereadSession(r, fails) =>
      var x := s.runners[r].input;
      GotoKeeps(s, r, if fails then Failing(x) else if s.paused then Leaving else Submitting(x));
    case SubmitInput(r, answer, id) =>
      if answer.Rejected? { GotoKeeps(s, r, Failing(s.runners[r].input)); } else { SubmitKeeps(s, r, answer, id); }
    case BindExecution(r, fails) => BindKeeps(s, r, fails);
    case AwaitExecution(r, k, outcome, error, fails) => FinishKeeps(s, r, s.runners[r].input, outcome, error, fails);
    case FailInput(r, error, fails) => FinishKeeps(s, r, s.runners[r].input, Failed, error, fails);
    case Leave(r) => StopKeeps(s, r);
  }

  lemma StepKeeps(s: State, step: Step)
    requires Inv(s) && Enabled(s, step) && Timely(s, step)
    ensures Inv(Next(s, step))
  {
    match step
    case Enqueue(request, sawPaused) => EnqueueKeeps(s, request, sawPaused);
    case CancelInput(id, revision) => CancelKeeps(s, id, revision);
    case SetPaused(_) => SetPausedKeeps(s, step);
    case Schedule(r) => ScheduleKeeps(s, r);
    case ExecutionEnds(k) => EndKeeps(s, k);
    case Tick(now) => TickKeeps(s, now);
    case Crash =>
    case _ => RunnerStepKeeps(s, step);
  }

  lemma SetPausedKeeps(s: State, step: Step)
    requires Inv(s) && step.SetPaused?
    ensures Inv(Next(s, step))
  {
    var s' := Next(s, step);
    forall q | q in s'.runners ensures RunnerOk(s', s'.runners[q]) { assert RunnerOk(s, s.runners[q]); }
  }

  lemma ScheduleKeeps(s: State, r: nat)
    requires Inv(s) && Enabled(s, Schedule(r))
    ensures Inv(Next(s, Schedule(r)))
  {
    var s' := Next(s, Schedule(r));
    if !s.registered { assert r in s'.runners; }
    forall q | q in s'.runners ensures RunnerOk(s', s'.runners[q]) {
      if q in s.runners { assert RunnerOk(s, s.runners[q]); }
    }
  }

  // ---- runs --------------------------------------------------------------

  ghost predicate TimelyRun(s: State, steps: seq<Step>)
    decreases |steps|
  {
    steps == [] || (Enabled(s, steps[0]) && Timely(s, steps[0]) && TimelyRun(Next(s, steps[0]), steps[1..]))
  }

  ghost predicate EnabledRun(s: State, steps: seq<Step>)
    decreases |steps|
  {
    steps == [] || (Enabled(s, steps[0]) && EnabledRun(Next(s, steps[0]), steps[1..]))
  }

  ghost function Run(s: State, steps: seq<Step>): State
    requires EnabledRun(s, steps)
    decreases |steps|
  {
    if steps == [] then s else Run(Next(s, steps[0]), steps[1..])
  }

  lemma {:induction false} RunKeeps(s: State, steps: seq<Step>)
    requires Inv(s) && TimelyRun(s, steps)
    ensures EnabledRun(s, steps) && Inv(Run(s, steps))
    decreases |steps|
  {
    hide Inv, Next, Timely, Enabled;
    if steps != [] {
      StepKeeps(s, steps[0]);
      RunKeeps(Next(s, steps[0]), steps[1..]);
    }
  }

  /** Exactly-once submission: over every run, with crashes, failing calls and pauses at any
      step, each input has at most one accepted execution, and an input that is bound is bound to
      its own. */
  lemma ExactlyOnce(steps: seq<Step>)
    requires TimelyRun(INITIAL, steps)
    ensures EnabledRun(INITIAL, steps)
    ensures var s := Run(INITIAL, steps);
            && (forall i, j :: 0 <= i < j < |s.executions| ==> s.executions[i].input != s.executions[j].input)
            && (forall k :: 0 <= k < |s.stream.inputs| && s.stream.inputs[k].executionId != "" ==>
                  IsExecutionOf(s.executions, s.stream.inputs[k].executionId, s.stream.inputs[k].sequence))
  {
    InitialInv();
    RunKeeps(INITIAL, steps);
    var s := Run(INITIAL, steps);
    forall k | 0 <= k < |s.stream.inputs| && s.stream.inputs[k].executionId != ""
      ensures IsExecutionOf(s.executions, s.stream.inputs[k].executionId, s.stream.inputs[k].sequence)
    {
      assert InputOk(s.executions, s.stream.inputs[k], s.clock);
    }
  }

  // ---- the runner table, without any assumption on clocks ------------------

  ghost predicate Orderly(s: State) { Queueing(s.stream) && OneRunner(s) }

  lemma BindQueueing(stream: Stream, id: string, text: string, valid: bool, now: int)
    requires Queueing(stream)
    ensures Bind(stream, id, text, valid, now).Ok? ==> Queueing(Bind(stream, id, text, valid, now).value.stream)
  {
    hide Queueing, TrimSpace;
    var k := Find(stream.inputs, id);
    if k < |stream.inputs| && stream.inputs[k].state == Dispatching { PutQueueing(stream, k, Bound(stream.inputs[k], text, now)); }
  }

  lemma CompleteQueueing(stream: Stream, id: string, outcome: InputState, text: string, now: int)
    requires Queueing(stream)
    ensures Complete(stream, id, outcome, text, now).Ok? ==> Queueing(Complete(stream, id, outcome, text, now).value.stream)
  {
    hide Queueing, TrimSpace;
    var k := Find(stream.inputs, id);
    if k < |stream.inputs| && outcome.Terminal() {
      PutQueueing(stream, k, Finished(stream.inputs[k], outcome, TrimSpace(text), now));
    }
  }

  lemma CancelQueueing(stream: Stream, id: string, revision: nat, now: int)
    requires Queueing(stream)
    ensures CancelQueued(stream, id, revision, now).Ok? ==> Queueing(CancelQueued(stream, id, revision, now).value.stream)
  {
    hide Queueing;
    var k := Find(stream.inputs, id);
    if k < |stream.inputs| { PutQueueing(stream, k, Withdrawn(stream.inputs[k], now)); }
  }

  lemma EnqueueQueueing(stream: Stream, request: Input, now: int)
    requires Queueing(stream)
    ensures InputQueue.Enqueue(stream, request, now).Ok? ==> Queueing(InputQueue.Enqueue(stream, request, now).value.stream)
  {}

  lemma AcquireQueueing(stream: Stream, now: int)
    requires Queueing(stream)
    ensures Acquire(stream, now).Ok? ==> Queueing(Acquire(stream, now).value.stream)
  {
    var k := FirstIn(stream.inputs, Queued);
    if k < |stream.inputs| && FirstIn(stream.inputs, Dispatching) == |stream.inputs| {
      PutQueueing(stream, k, Dispatched(stream.inputs[k], now));
    }
  }

  lemma StepOrderly(s: State, step: Step)
    requires Orderly(s) && Enabled(s, step)
    ensures Orderly(Next(s, step))
  {
    hide Queueing, InputQueue.Enqueue, Acquire, Bind, Complete, CancelQueued, Boundary;
    RunnersStep(s, step);
    match step
    case Enqueue(request, _) => EnqueueQueueing(s.stream, request, s.clock);
    case CancelInput(id, revision) => CancelQueueing(s.stream, id, revision, s.clock);
    case AcquireNext(r, fails) => AcquireQueueing(s.stream, s.clock);
    case BindExecution(r, fails) =>
      var b := s.runners[r];
      BindQueueing(s.stream, b.input.id, b.executionId, b.executionId != "", s.clock);
    case AwaitExecution(r, k, outcome, error, fails) => CompleteQueueing(s.stream, s.runners[r].input.id, outcome, error, s.clock);
    case FailInput(r, error, fails) => CompleteQueueing(s.stream, s.runners[r].input.id, Failed, error, s.clock);
    case _ =>
  }

  lemma RunnersStep(s: State, step: Step)
    requires OneRunner(s) && Enabled(s, step)
    ensures OneRunner(Next(s, step))
  {
    hide InputQueue.Enqueue, Acquire, Bind, Complete, CancelQueued, Boundary;
    var s' := Next(s, step);
    match step
    case Schedule(r) => assert !s.registered ==> r in s'.runners;
    case Enqueue(_, _) | CancelInput(_, _) | SetPaused(_) | ExecutionEnds(_) | Tick(_) | Crash =>
    case _ =>
      assert forall q :: q in s.runners ==> q == step.r;
      assert s'.runners.Keys == s.runners.Keys || (s'.runners.Keys == {} && !s'.registered);
  }

  ghost predicate Unfinished(s: State) {
    exists k :: 0 <= k < |s.stream.inputs| && !s.stream.inputs[k].state.Terminal()
  }

  /** Somebody will look at the queue: a registered runner, or a caller about to schedule. */
  ghost predicate Awake(s: State) {
    && !s.paused
    && (Unfinished(s) ==> s.registered || s.pending > 0)
    && forall r :: r in s.runners ==> !s.runners[r].Leaving?
  }

  /** The empty check and the removal are one step under the mutex: either the runner sees the new
      input, or the caller's `schedule` finds no runner. */
  lemma QuietStepStaysAwake(s: State, step: Step)
    requires Orderly(s) && Awake(s) && Enabled(s, step) && Quiet(step)
    ensures Awake(Next(s, step))
  {
    var s' := Next(s, step);
    match step
    case AcquireNext(r, fails) => AcquireIsOk(s);
    case CancelInput(id, revision) => if Unfinished(s') { CancelUnfinished(s, id, revision); }
    case _ =>
  }

  lemma CancelUnfinished(s: State, id: string, revision: nat)
    requires Unfinished(Next(s, CancelInput(id, revision)))
    ensures Unfinished(s)
  {
    var s' := Next(s, CancelInput(id, revision));
    var k :| 0 <= k < |s'.stream.inputs| && !s'.stream.inputs[k].state.Terminal();
    assert !s.stream.inputs[k].state.Terminal();
  }

  lemma {:induction false} RunOrderly(s: State, steps: seq<Step>)
    requires Orderly(s) && EnabledRun(s, steps)
    ensures Orderly(Run(s, steps))
    decreases |steps|
  {
    hide Orderly, Next, Enabled;
    if steps != [] {
      StepOrderly(s, steps[0]);
      RunOrderly(Next(s, steps[0]), steps[1..]);
    }
  }

  /** Never two live runners, and the runner table tells whether there is one. */
  lemma NeverTwoRunners(steps: seq<Step>)
    requires EnabledRun(INITIAL, steps)
    ensures forall q, r :: q in Run(INITIAL, steps).runners && r in Run(INITIAL, steps).runners ==> q == r
    ensures Run(INITIAL, steps).registered <==> exists r :: r in Run(INITIAL, steps).runners
  {
    RunOrderly(INITIAL, steps);
  }

  /** No lost wakeup: while the session stays unpaused and its stores do not fail, an unfinished
      input always has a registered runner or a caller that is about to schedule one. */
  lemma {:induction false} NoLostWakeup(s: State, steps: seq<Step>)
    requires Orderly(s) && Awake(s) && EnabledRun(s, steps) && forall i :: 0 <= i < |steps| ==> Quiet(steps[i])
    ensures Orderly(Run(s, steps)) && Awake(Run(s, steps))
    decreases |steps|
  {
    hide Orderly, Awake, Next, Quiet, Enabled;
    if steps != [] {
      StepOrderly(s, steps[0]);
      QuietStepStaysAwake(s, steps[0]);
      NoLostWakeup(Next(s, steps[0]), steps[1..]);
    }
  }

  lemma InitialAwake()
    ensures Orderly(INITIAL) && Awake(INITIAL)
  {}

  // ---- why creation must be strictly earlier -------------------------------

  /** Executions are listed in the order of their creation. */
  ghost predicate Chronological(s: State) {
    && (forall i, j :: 0 <= i < j < |s.executions| ==> s.executions[i].createdAt <= s.executions[j].createdAt)
    && (forall k :: 0 <= k < |s.executions| ==> s.executions[k].createdAt <= s.clock)
  }

  lemma {:induction false} RunChronological(s: State, steps: seq<Step>)
    requires Chronological(s) && EnabledRun(s, steps)
    ensures Chronological(Run(s, steps))
    decreases |steps|
  {
    if steps != [] {
      StepChronological(s, steps[0]);
      hide Chronological, Next, Enabled;
      RunChronological(Next(s, steps[0]), steps[1..]);
    }
  }

  lemma StepChronological(s: State, step: Step)
    requires Chronological(s) && Enabled(s, step)
    ensures Chronological(Next(s, step))
  {
    hide InputQueue.Enqueue, Acquire, Bind, Complete, CancelQueued, Boundary, Chronological;
    var t := Next(s, step);
    match step
    case SubmitInput(r, answer, id) => if answer.Rejected? { SameExecutions(s, t); } else { LaterExecution(s, t); }
    case ExecutionEnds(k) => SameTimes(s, t);
    case _ => SameExecutions(s, t);
  }

  lemma SameExecutions(s: State, t: State)
    requires Chronological(s) && t.executions == s.executions && s.clock <= t.clock
    ensures Chronological(t)
  {}

  lemma SameTimes(s: State, t: State)
    requires Chronological(s) && |t.executions| == |s.executions| && s.clock == t.clock
    requires forall k :: 0 <= k < |s.executions| ==> t.executions[k].createdAt == s.executions[k].createdAt
    ensures Chronological(t)
  {}

  lemma LaterExecution(s: State, t: State)
    requires Chronological(s) && |t.executions| == |s.executions| + 1 && t.clock == s.clock
    requires t.executions[..|s.executions|] == s.executions && t.executions[|s.executions|].createdAt == s.clock
    ensures Chronological(t)
  {}

  lemma RunFirst(s: State, step: Step, rest: seq<Step>)
    requires Enabled(s, step)
    ensures EnabledRun(s, [step] + rest) <==> EnabledRun(Next(s, step), rest)
    ensures EnabledRun(s, [step] + rest) ==> Run(s, [step] + rest) == Run(Next(s, step), rest)
  {
    assert ([step] + rest)[1..] == rest;
  }

  /** The process stops right after runner `r` acquires, and a runner of the next process resumes. */
  function Resumption(r: nat, rest: seq<Step>): seq<Step> {
    [AcquireNext(r, false)] + ([Crash] + ([Schedule(0)] + ([LoadSession(0, false)] + ([AcquireNext(0, false)] + ([LookAtCurrent(0, false)] + rest)))))
  }

  /** Runner `r` is about to acquire the queued input at `k` for the first time. */
  predicate Acquires(s: State, r: nat, k: nat) {
    && r in s.runners && s.runners[r].Acquiring? && !s.paused
    && k < |s.stream.inputs| && FirstIn(s.stream.inputs, Queued) == k
    && FirstIn(s.stream.inputs, Dispatching) == |s.stream.inputs|
  }

  function Resumed(s: State, k: nat): State
    requires k < |s.stream.inputs|
  {
    var x := Dispatched(s.stream.inputs[k], s.clock);
    State(Put(s.stream, k, x), s.executions, s.clock, false, true, map[0 := Boundary(s.executions, x, true)], 0)
  }

  lemma OnlyDispatching(stream: Stream, k: nat, x: Input, now: int)
    requires k < |stream.inputs| && FirstIn(stream.inputs, Dispatching) == |stream.inputs| && x.state == Dispatching
    ensures Acquire(Put(stream, k, x), now) == Ok(Acquisition(Put(stream, k, x), Some(Acquired(x, true)), false))
  {
    var inputs := Put(stream, k, x).inputs;
    forall i | 0 <= i < |inputs| && i != k ensures inputs[i].state != Dispatching { assert inputs[i] == stream.inputs[i]; }
    assert inputs[k].state == Dispatching;
    assert FirstIn(inputs, Dispatching) == k;
    var rest := inputs[k + 1..];
    forall i | 0 <= i < |rest| ensures rest[i].state != Dispatching { assert rest[i] == inputs[k + 1 + i]; }
  }

  /** The queue after the crash, with a runner of the next process. */
  function Restarted(s: State, k: nat, runner: Runner): State
    requires k < |s.stream.inputs|
  {
    State(Put(s.stream, k, Dispatched(s.stream.inputs[k], s.clock)), s.executions, s.clock, false, true, map[0 := runner], 0)
  }

  lemma StopRuns(s: State, r: nat, k: nat, rest: seq<Step>)
    requires Acquires(s, r, k)
    ensures var steps, t := [AcquireNext(r, false)] + ([Crash] + ([Schedule(0)] + rest)), Restarted(s, k, Loading);
            && (EnabledRun(s, steps) <==> EnabledRun(t, rest))
            && (EnabledRun(s, steps) ==> Run(s, steps) == Run(t, rest))
  {
    hide EnabledRun, Run, FirstIn;
    var x := Dispatched(s.stream.inputs[k], s.clock);
    var s1 := s.(stream := Put(s.stream, k, x), runners := s.runners[r := AtBoundary(x, false)]);
    assert Next(s, AcquireNext(r, false)) == s1;
    hide Acquire;
    var s2 := s1.(registered := false, runners := map[], pending := 1);
    assert Next(s1, Crash) == s2 && Next(s2, Schedule(0)) == Restarted(s, k, Loading);
    hide Next;
    RunFirst(s2, Schedule(0), rest);
    RunFirst(s1, Crash, [Schedule(0)] + rest);
    RunFirst(s, AcquireNext(r, false), [Crash] + ([Schedule(0)] + rest));
  }

  lemma RestartRuns(s: State, k: nat, rest: seq<Step>)
    requires k < |s.stream.inputs| && FirstIn(s.stream.inputs, Dispatching) == |s.stream.inputs| && s.stream.inputs[k].executionId == ""
    ensures var steps, t := [LoadSession(0, false)] + ([AcquireNext(0, false)] + ([LookAtCurrent(0, false)] + rest)), Restarted(s, k, Loading);
            && (EnabledRun(t, steps) <==> EnabledRun(Resumed(s, k), rest))
            && (EnabledRun(t, steps) ==> Run(t, steps) == Run(Resumed(s, k), rest))
  {
    hide EnabledRun, Run, FirstIn, Boundary, Acquire;
    var x := Dispatched(s.stream.inputs[k], s.clock);
    OnlyDispatching(s.stream, k, x, s.clock);
    var s3, s4, s5 := Restarted(s, k, Loading), Restarted(s, k, Acquiring), Restarted(s, k, AtBoundary(x, true));
    assert Next(s3, LoadSession(0, false)) == s4;
    assert Next(s4, AcquireNext(0, false)) == s5 && Next(s5, LookAtCurrent(0, false)) == Resumed(s, k);
    hide Next;
    RunFirst(s5, LookAtCurrent(0, false), rest);
    RunFirst(s4, AcquireNext(0, false), [LookAtCurrent(0, false)] + rest);
    RunFirst(s3, LoadSession(0, false), [AcquireNext(0, false)] + ([LookAtCurrent(0, false)] + rest));
  }

  lemma ResumptionRuns(s: State, r: nat, k: nat, rest: seq<Step>)
    requires Acquires(s, r, k) && s.stream.inputs[k].executionId == ""
    ensures EnabledRun(s, Resumption(r, rest)) <==> EnabledRun(Resumed(s, k), rest)
    ensures EnabledRun(s, Resumption(r, rest)) ==> Run(s, Resumption(r, rest)) == Run(Resumed(s, k), rest)
  {
    hide EnabledRun, Run, FirstIn, Resumed, Restarted;
    RestartRuns(s, k, rest);
    StopRuns(s, r, k, [LoadSession(0, false)] + ([AcquireNext(0, false)] + ([LookAtCurrent(0, false)] + rest)));
  }

  /** After the restart the input is bound to an execution that was submitted for another one. */
  ghost predicate Misbinds(s: State, r: nat, k: nat) {
    var steps := Resumption(r, [BindExecution(0, false)]);
    EnabledRun(s, steps) &&
    var t := Run(s, steps);
    k < |t.stream.inputs| && t.stream.inputs[k].executionId != ""
    && !IsExecutionOf(t.executions, t.stream.inputs[k].executionId, t.stream.inputs[k].sequence)
  }

  /** The last step: binding, when recovery took the current execution for the input's own. */
  lemma BindsCurrent(s: State, k: nat)
    requires Durable(s) && k < |s.stream.inputs| && s.stream.inputs[k].state == Queued
    ensures var t, es, last := Resumed(s, k), s.executions, [BindExecution(0, false)];
            if es != [] && es[|es| - 1].createdAt >= s.clock
            then EnabledRun(t, last) && |Run(t, last).stream.inputs| == |s.stream.inputs|
                 && Run(t, last).executions == es
                 && Run(t, last).stream.inputs[k] == Bound(Dispatched(s.stream.inputs[k], s.clock), es[|es| - 1].id, s.clock)
            else !EnabledRun(t, last)
  {
    var t, es := Resumed(s, k), s.executions;
    var x := Dispatched(s.stream.inputs[k], s.clock);
    assert InputOk(es, s.stream.inputs[k], s.clock);
    if es != [] && es[|es| - 1].createdAt >= s.clock {
      assert Find(t.stream.inputs, x.id) == k by {
        assert forall i :: 0 <= i < |s.stream.inputs| ==> t.stream.inputs[i].id == s.stream.inputs[i].id;
      }
      hide Find;
      RunFirst(t, BindExecution(0, false), []);
      assert [BindExecution(0, false)] + [] == [BindExecution(0, false)];
    }
  }

  /** Recovery is right exactly when every execution was created strictly before the acquisition:
      otherwise a crash right after it makes the next process bind the input to an execution
      submitted for another one. */
  lemma RecoveryNeedsTimeliness(s: State, r: nat, k: nat)
    requires Inv(s) && Chronological(s) && Acquires(s, r, k)
    ensures Misbinds(s, r, k) <==> !Timely(s, AcquireNext(r, false))
  {
    var es, x := s.executions, s.stream.inputs[k];
    assert InputOk(es, x, s.clock);
    ResumptionRuns(s, r, k, [BindExecution(0, false)]);
    BindsCurrent(s, k);
    hide EnabledRun, Run, Resumption;
    assert Acquire(s.stream, s.clock).value.changed;
    if es != [] {
      var last := es[|es| - 1];
      assert !IsExecutionOf(es, last.id, x.sequence) by { ForeignExecution(es, |es| - 1, x.sequence); }
    }
  }

  lemma ForeignExecution(es: seq<Execution>, k: nat, sequence: nat)
    requires NoExecution(es, sequence) && k < |es|
    ensures !IsExecutionOf(es, es[k].id, sequence)
  {}

  /** The same over every timely run so far. */
  lemma TimelinessIsExact(steps: seq<Step>, r: nat, k: nat)
    requires TimelyRun(INITIAL, steps) && EnabledRun(INITIAL, steps) && Acquires(Run(INITIAL, steps), r, k)
    ensures Misbinds(Run(INITIAL, steps), r, k) <==> !Timely(Run(INITIAL, steps), AcquireNext(r, false))
  {
    hide Inv, Chronological, Misbinds, Timely, Acquires;
    assert Inv(INITIAL) && Chronological(INITIAL) by { InitialInv(); InitiallyChronological(); }
    RunKeeps(INITIAL, steps);
    RunChronological(INITIAL, steps);
    RecoveryNeedsTimeliness(Run(INITIAL, steps), r, k);
  }

  lemma InitiallyChronological()
    ensures Chronological(INITIAL)
  {}

  // ---- a concrete failure --------------------------------------------------

  function Completed(a: Input): Input { Finished(Bound(Dispatched(NewInput(a, 1, 0), 0), "e1", 0), Succeeded, "", 0) }

  const ONLY_EXECUTION := [Execution("e1", 0, true, 1)]

  /** `a` is finished, `b` is queued, and a runner is about to acquire, all at time 0. */
  function Before(a: Input, b: Input): State {
    State(Stream(3, [Completed(a), NewInput(b, 2, 0)]), ONLY_EXECUTION, 0, false, true, map[0 := Acquiring], 0)
  }

  lemma BeforeIsFine(a: Input, b: Input)
    requires a.id != b.id
    ensures Inv(Before(a, b)) && Chronological(Before(a, b)) && Acquires(Before(a, b), 0, 1)
  {
    var es := ONLY_EXECUTION;
    assert es[0].id == "e1" && es[0].input == 1;
    assert IsExecutionOf(es, "e1", 1);
    assert InputOk(es, Completed(a), 0) && InputOk(es, NewInput(b, 2, 0), 0);
    assert 0 in Before(a, b).runners;
  }

  /** A timely run from one state to another. */
  ghost predicate Reaches(s: State, steps: seq<Step>, t: State) {
    TimelyRun(s, steps) && EnabledRun(s, steps) && Run(s, steps) == t
  }

  ghost predicate Takes(s: State, step: Step, s1: State) { Enabled(s, step) && Timely(s, step) && Next(s, step) == s1 }

  lemma ReachesFirst(s: State, step: Step, s1: State, rest: seq<Step>, t: State)
    requires Takes(s, step, s1) && Reaches(s1, rest, t)
    ensures Reaches(s, [step] + rest, t)
  {
    assert ([step] + rest)[1..] == rest;
  }

  /** Both inputs are queued and the only runner is about to load the session. */
  function BothQueued(a: Input, b: Input): State {
    State(Stream(3, [NewInput(a, 1, 0), NewInput(b, 2, 0)]), [], 0, false, true, map[0 := Loading], 0)
  }

  /** The runner is about to submit `a`. */
  function FirstSubmitting(a: Input, b: Input): State {
    var x := Dispatched(NewInput(a, 1, 0), 0);
    State(Stream(3, [x, NewInput(b, 2, 0)]), [], 0, false, true, map[0 := Submitting(x)], 0)
  }

  function QueueBoth(a: Input, b: Input, rest: seq<Step>): seq<Step> {
    [Enqueue(a, false)] + ([Enqueue(b, false)] + ([Schedule(0)] + ([Schedule(1)] + ([Schedule(1)] + rest))))
  }

  function GoSubmit(rest: seq<Step>): seq<Step> {
    [LoadSession(0, false)] + ([AcquireNext(0, false)] + ([LookAtCurrent(0, false)] + ([RereadSession(0, false)] + rest)))
  }

  function FinishFirst(rest: seq<Step>): seq<Step> {
    [SubmitInput(0, Accepted, "e1")] + ([BindExecution(0, false)] + ([ExecutionEnds(0)]
    + ([AwaitExecution(0, 0, Succeeded, "", false)] + ([LoadSession(0, false)] + rest))))
  }

  lemma QueueBothReaches(a: Input, b: Input, rest: seq<Step>, t: State)
    requires a.id != b.id && Reaches(BothQueued(a, b), rest, t)
    ensures Reaches(INITIAL, QueueBoth(a, b, rest), t)
  {
    hide Reaches;
    var a1, b1 := NewInput(a, 1, 0), NewInput(b, 2, 0);
    var s1 := INITIAL.(stream := Stream(2, [a1]), pending := 2);
    var s2 := s1.(stream := Stream(3, [a1, b1]), pending := 3);
    assert [] + [a1] == [a1] && [a1] + [b1] == [a1, b1] && [a1][1..] == [];
    assert Next(INITIAL, Enqueue(a, false)) == s1 && Next(s1, Enqueue(b, false)) == s2;
    var s3 := s2.(registered := true, runners := map[0 := Loading], pending := 2);
    var s4 := s3.(pending := 1);
    ReachesFirst(s4, Schedule(1), BothQueued(a, b), rest, t);
    ReachesFirst(s3, Schedule(1), s4, [Schedule(1)] + rest, t);
    ReachesFirst(s2, Schedule(0), s3, [Schedule(1)] + ([Schedule(1)] + rest), t);
    ReachesFirst(s1, Enqueue(b, false), s2, [Schedule(0)] + ([Schedule(1)] + ([Schedule(1)] + rest)), t);
    ReachesFirst(INITIAL, Enqueue(a, false), s1, [Enqueue(b, false)] + ([Schedule(0)] + ([Schedule(1)] + ([Schedule(1)] + rest))), t);
  }

  /** The queue of `FirstSubmitting` with the runner elsewhere. */
  function FirstDispatched(a: Input, b: Input, runner: Runner): State { FirstSubmitting(a, b).(runners := map[0 := runner]) }

  lemma GoSubmitTakes(a: Input, b: Input)
    requires a.id != b.id
    ensures var x := Dispatched(NewInput(a, 1, 0), 0);
            Takes(BothQueued(a, b).(runners := map[0 := Acquiring]), AcquireNext(0, false), FirstDispatched(a, b, AtBoundary(x, false)))
  {
    var s, x := BothQueued(a, b), Dispatched(NewInput(a, 1, 0), 0);
    assert FirstIn(s.stream.inputs, Dispatching) == 2 && FirstIn(s.stream.inputs, Queued) == 0;
    assert Put(s.stream, 0, x).inputs == [x, NewInput(b, 2, 0)];
    hide FirstIn;
  }

  lemma GoSubmitReaches(a: Input, b: Input, rest: seq<Step>, t: State)
    requires a.id != b.id && Reaches(FirstSubmitting(a, b), rest, t)
    ensures Reaches(BothQueued(a, b), GoSubmit(rest), t)
  {
    hide Reaches, Acquire, FirstIn;
    var s, x := BothQueued(a, b), Dispatched(NewInput(a, 1, 0), 0);
    var s1, s2, s3 := s.(runners := map[0 := Acquiring]), FirstDispatched(a, b, AtBoundary(x, false)), FirstDispatched(a, b, Rereading(x));
    assert Takes(s, LoadSession(0, false), s1) && Takes(s2, LookAtCurrent(0, false), s3) && Takes(s3, RereadSession(0, false), FirstSubmitting(a, b));
    GoSubmitTakes(a, b);
    hide Takes;
    ReachesFirst(s3, RereadSession(0, false), FirstSubmitting(a, b), rest, t);
    ReachesFirst(s2, LookAtCurrent(0, false), s3, [RereadSession(0, false)] + rest, t);
    ReachesFirst(s1, AcquireNext(0, false), s2, [LookAtCurrent(0, false)] + ([RereadSession(0, false)] + rest), t);
    ReachesFirst(s, LoadSession(0, false), s1, [AcquireNext(0, false)] + ([LookAtCurrent(0, false)] + ([RereadSession(0, false)] + rest)), t);
  }

  /** The execution of `a` exists; `x` is its input. */
  function FirstExecuting(b: Input, x: Input, terminal: bool, runner: Runner): State {
    State(Stream(3, [x, NewInput(b, 2, 0)]), [Execution("e1", 0, terminal, 1)], 0, false, true, map[0 := runner], 0)
  }

  lemma SubmitTakes(a: Input, b: Input)
    requires a.id != b.id
    ensures var x := Dispatched(NewInput(a, 1, 0), 0);
            && Takes(FirstSubmitting(a, b), SubmitInput(0, Accepted, "e1"), FirstExecuting(b, x, false, Binding(x, "e1")))
            && Takes(FirstExecuting(b, x, false, Binding(x, "e1")), BindExecution(0, false),
                     FirstExecuting(b, Bound(x, "e1", 0), false, Awaiting(Bound(x, "e1", 0), "e1")))
  {
    var x, b1, e := Dispatched(NewInput(a, 1, 0), 0), NewInput(b, 2, 0), Execution("e1", 0, false, 1);
    assert [] + [e] == [e];
    assert [x, b1][0 := Bound(x, "e1", 0)] == [Bound(x, "e1", 0), b1];
  }

  lemma FinishTakes(a: Input, b: Input)
    requires a.id != b.id
    ensures var y := Bound(Dispatched(NewInput(a, 1, 0), 0), "e1", 0);
            && Takes(FirstExecuting(b, y, false, Awaiting(y, "e1")), ExecutionEnds(0), FirstExecuting(b, y, true, Awaiting(y, "e1")))
            && Takes(FirstExecuting(b, y, true, Awaiting(y, "e1")), AwaitExecution(0, 0, Succeeded, "", false),
                     FirstExecuting(b, Completed(a), true, Loading))
            && Takes(FirstExecuting(b, Completed(a), true, Loading), LoadSession(0, false), Before(a, b))
  {
    var y, b1, e := Bound(Dispatched(NewInput(a, 1, 0), 0), "e1", 0), NewInput(b, 2, 0), Execution("e1", 0, false, 1);
    assert [e][0 := e.(terminal := true)] == ONLY_EXECUTION;
    assert [y, b1][0 := Completed(a)] == [Completed(a), b1];
    assert TrimSpace("") == "";
  }

  lemma FinishFirstReaches(a: Input, b: Input, rest: seq<Step>, t: State)
    requires a.id != b.id && Reaches(Before(a, b), rest, t)
    ensures Reaches(FirstSubmitting(a, b), FinishFirst(rest), t)
  {
    hide Reaches, Takes, Before, FirstSubmitting, FirstExecuting;
    var x := Dispatched(NewInput(a, 1, 0), 0);
    var y := Bound(x, "e1", 0);
    SubmitTakes(a, b);
    FinishTakes(a, b);
    var s1, s2 := FirstExecuting(b, x, false, Binding(x, "e1")), FirstExecuting(b, y, false, Awaiting(y, "e1"));
    var s3, s4 := FirstExecuting(b, y, true, Awaiting(y, "e1")), FirstExecuting(b, Completed(a), true, Loading);
    ReachesFirst(s4, LoadSession(0, false), Before(a, b), rest, t);
    ReachesFirst(s3, AwaitExecution(0, 0, Succeeded, "", false), s4, [LoadSession(0, false)] + rest, t);
    ReachesFirst(s2, ExecutionEnds(0), s3, [AwaitExecution(0, 0, Succeeded, "", false)] + ([LoadSession(0, false)] + rest), t);
    ReachesFirst(s1, BindExecution(0, false), s2,
                 [ExecutionEnds(0)] + ([AwaitExecution(0, 0, Succeeded, "", false)] + ([LoadSession(0, false)] + rest)), t);
    ReachesFirst(FirstSubmitting(a, b), SubmitInput(0, Accepted, "e1"), s1, [BindExecution(0, false)] + ([ExecutionEnds(0)]
                 + ([AwaitExecution(0, 0, Succeeded, "", false)] + ([LoadSession(0, false)] + rest))), t);
  }

  /** Two inputs are queued, the first is submitted, bound and finished, and the runner is about to
      acquire the second, all at one clock reading. */
  function TwoInputs(a: Input, b: Input): seq<Step> { QueueBoth(a, b, GoSubmit(FinishFirst([]))) }

  /** Equal clock readings break recovery: after this run input `b` is acquired at the very time the
      execution of `a` was created, the process stops, and the next runner binds `b` to it. */
  lemma EqualTimesConfuseInputs(a: Input, b: Input)
    requires a.id != b.id
    ensures Reaches(INITIAL, TwoInputs(a, b), Before(a, b))
    ensures Misbinds(Before(a, b), 0, 1)
  {
    assert Reaches(Before(a, b), [], Before(a, b));
    hide Reaches, Inv, Chronological, Misbinds;
    FinishFirstReaches(a, b, [], Before(a, b));
    GoSubmitReaches(a, b, FinishFirst([]), Before(a, b));
    QueueBothReaches(a, b, GoSubmit(FinishFirst([])), Before(a, b));
    BeforeIsFine(a, b);
    RecoveryNeedsTimeliness(Before(a, b), 0, 1);
    assert ONLY_EXECUTION[0].createdAt == 0;
  }
}
