/** The input supervisor of gateway/input_supervisor.go for one session, as a step machine: the
    durable queue and executions, the table of runners guarded by the supervisor mutex, runner
    goroutines at their blocking points, callers that are about to schedule, and crashes.
    Each mutex-protected section and each store or execution call is one step. */
module Supervisor {
  import opened Outcome
  import opened InputQueue

  /** An accepted execution; `input` is the sequence of the input whose content was submitted. */
  datatype Execution = Execution(id: string, createdAt: int, terminal: bool, input: nat)

  /** A runner goroutine between two steps. */
  datatype Runner =
    | Loading                                     // about to read the session
    | Acquiring                                   // about to acquire under the mutex
    | AtBoundary(input: Input, recovering: bool)  // polling the current execution
    | Rereading(input: Input)                     // about to read the session again
    | Submitting(input: Input)
    | Binding(input: Input, executionId: string)
    | Awaiting(input: Input, executionId: string)
    | Failing(input: Input)
    | Leaving                                     // about to remove itself and stop

  datatype State = State(
    stream: Stream, executions: seq<Execution>, clock: int, paused: bool,   // durable
    registered: bool, runners: map<nat, Runner>, pending: nat)              // lost in a crash

  /** What `Submit` does: it may also accept the prompt and then fail to load or bind the
      execution, which the runner sees as an error. */
  datatype Submission = Rejected | Accepted | AcceptedThenFailed

  /** `pending` counts callers between their durable write, or process start, and `schedule`.
      `fails` is a store, session or backend error of that call. */
  datatype Step =
    | Enqueue(request: Input, sawPaused: bool)
    | CancelInput(id: string, revision: nat)
    | SetPaused(paused: bool)
    | Schedule(r: nat)
    | ExecutionEnds(k: nat)
    | Tick(now: int)
    | Crash
    | LoadSession(r: nat, fails: bool)
    | AcquireNext(r: nat, fails: bool)
    | LookAtCurrent(r: nat, fails: bool)
    | RereadSession(r: nat, fails: bool)
    | SubmitInput(r: nat, answer: Submission, id: string)
    | BindExecution(r: nat, fails: bool)
    | AwaitExecution(r: nat, k: nat, outcome: InputState, error: string, fails: bool)
    | FailInput(r: nat, error: string, fails: bool)
    | Leave(r: nat)

  const INITIAL := State(Stream(1, []), [], 0, false, false, map[], 1)

  function At(s: State, r: nat): Runner { if r in s.runners then s.runners[r] else Leaving }

  function Goto(s: State, r: nat, runner: Runner): State { s.(runners := s.runners[r := runner]) }

  function Stop(s: State, r: nat): State { s.(registered := false, runners := s.runners - {r}) }

  predicate Enabled(s: State, step: Step) {
    match step
    case Enqueue(_, _) | CancelInput(_, _) | SetPaused(_) | Crash => true
    case Schedule(r) => s.pending > 0 && r !in s.runners
    case ExecutionEnds(k) => k < |s.executions|
    case Tick(now) => s.clock <= now
    case LoadSession(r, _) => r in s.runners && s.runners[r].Loading?
    case AcquireNext(r, _) => r in s.runners && s.runners[r].Acquiring?
    case LookAtCurrent(r, _) => r in s.runners && s.runners[r].AtBoundary?
    case RereadSession(r, _) => r in s.runners && s.runners[r].Rereading?
    case SubmitInput(r, answer, id) =>
      && r in s.runners && s.runners[r].Submitting?
      && (!answer.Rejected? ==> id != "" && forall k :: 0 <= k < |s.executions| ==> s.executions[k].id != id)
    case BindExecution(r, _) => r in s.runners && s.runners[r].Binding?
    case AwaitExecution(r, k, outcome, _, _) =>
      && r in s.runners && s.runners[r].Awaiting? && outcome.Terminal()
      && k < |s.executions| && s.executions[k].id == s.runners[r].executionId && s.executions[k].terminal
    case FailInput(r, _, _) => r in s.runners && s.runners[r].Failing?
    case Leave(r) => r in s.runners && s.runners[r].Leaving?
  }

  /** What `run` does with the result of `AcquireNext`, all under the mutex. */
  function AfterAcquire(s: State, r: nat): State {
    match Acquire(s.stream, s.clock)
    case Err(_) => Stop(s, r)
    case Ok(a) =>
      if a.acquired.None? then Stop(s, r) else
        var got := a.acquired.value;
        Goto(s.(stream := a.stream), r,
             if got.resumed && got.input.executionId != "" then Awaiting(got.input, got.input.executionId)
             else AtBoundary(got.input, got.resumed))
  }

  /** One turn of `waitForDispatchBoundary`. */
  function Boundary(executions: seq<Execution>, input: Input, recovering: bool): Runner {
    if executions == [] then Rereading(input) else
      var current := executions[|executions| - 1];
      if recovering && current.createdAt >= input.updatedAt then Binding(input, current.id)
      else if current.terminal then Rereading(input)
      else AtBoundary(input, recovering)
  }

  function Next(s: State, step: Step): State
    requires Enabled(s, step)
  {
    match step
    case Enqueue(request, sawPaused) => (
      match InputQueue.Enqueue(s.stream, request, s.clock)
      case Err(_) => s
      case Ok(u) => s.(stream := u.stream, pending := if sawPaused then s.pending else s.pending + 1))
    case CancelInput(id, revision) => (
      match CancelQueued(s.stream, id, revision, s.clock)
      case Err(_) => s
      case Ok(u) => s.(stream := u.stream))
    case SetPaused(paused) => s.(paused := paused, pending := if paused then s.pending else s.pending + 1)
    case Schedule(r) =>
      if s.registered then s.(pending := s.pending - 1)
      else s.(pending := s.pending - 1, registered := true, runners := s.runners[r := Loading])
    case ExecutionEnds(k) => s.(executions := s.executions[k := s.executions[k].(terminal := true)])
    case Tick(now) => s.(clock := now)
    case Crash => s.(registered := false, runners := map[], pending := 1)
    case LoadSession(r, fails) => Goto(s, r, if fails || s.paused then Leaving else Acquiring)
    case AcquireNext(r, fails) => if fails then Stop(s, r) else AfterAcquire(s, r)
    case LookAtCurrent(r, fails) =>
      if fails then s else Goto(s, r, Boundary(s.executions, s.runners[r].input, s.runners[r].recovering))
    case RereadSession(r, fails) =>
      Goto(s, r, if fails then Failing(s.runners[r].input) else if s.paused then Leaving else Submitting(s.runners[r].input))
    case SubmitInput(r, answer, id) => (
      var input := s.runners[r].input;
      if answer.Rejected? then Goto(s, r, Failing(input))
      else Goto(s.(executions := s.executions + [Execution(id, s.clock, false, input.sequence)]), r,
                if answer.Accepted? then Binding(input, id) else Failing(input)))
    case BindExecution(r, fails) => (
      var binding := s.runners[r];
      match Bind(s.stream, binding.input.id, binding.executionId, binding.executionId != "", s.clock)
      case Err(_) => Goto(s, r, Loading)
      case Ok(u) => if fails then Goto(s, r, Loading)
                    else Goto(s.(stream := u.stream), r, Awaiting(u.input, binding.executionId)))
    case AwaitExecution(r, k, outcome, error, fails) => Finish(s, r, s.runners[r].input.id, outcome, error, fails)
    case FailInput(r, error, fails) => Finish(s, r, s.runners[r].input.id, Failed, error, fails)
    case Leave(r) => Stop(s, r)
  }

  /** `Complete` is called and the runner goes on with its loop whatever the outcome. */
  function Finish(s: State, r: nat, id: string, outcome: InputState, error: string, fails: bool): State {
    match Complete(s.stream, id, outcome, error, s.clock)
    case Err(_) => Goto(s, r, Loading)
    case Ok(u) => Goto(if fails then s else s.(stream := u.stream), r, Loading)
  }

  // ---- assumptions on runs -----------------------------------------------

  /** A first acquisition happens strictly after every execution was created. */
  ghost predicate Timely(s: State, step: Step) {
    step.AcquireNext? && Acquire(s.stream, s.clock).Ok? && Acquire(s.stream, s.clock).value.changed
    ==> forall k :: 0 <= k < |s.executions| ==> s.executions[k].createdAt < s.clock
  }

  /** No failing call, and the session stays unpaused. */
  predicate Quiet(step: Step) {
    match step
    case Enqueue(_, sawPaused) => !sawPaused
    case SetPaused(paused) => !paused
    case LoadSession(_, fails) => !fails
    case AcquireNext(_, fails) => !fails
    case _ => true
  }
}
