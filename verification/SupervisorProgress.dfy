/** What the input supervisor does with an input: it submits one only when nothing else runs and the
    session is not paused, gets it submitted, and records how it ended. */
module SupervisorProgress {
  import opened Outcome
  import opened Text
  import opened InputQueue
  import opened Supervisor
  import opened SupervisorSafety

  // ---- one execution at a time ---------------------------------------------------

  ghost predicate AllEnded(es: seq<Execution>) { forall k :: 0 <= k < |es| ==> es[k].terminal }

  predicate LastEnded(es: seq<Execution>) { es == [] || es[|es| - 1].terminal }

  /** Only the last execution may be running, and a runner on its way to submit has seen it ended. */
  ghost predicate Solo(s: State) {
    && (forall k :: 0 <= k < |s.executions| - 1 ==> s.executions[k].terminal)
    && (forall r :: r in s.runners && (s.runners[r].Rereading? || s.runners[r].Submitting?) ==> LastEnded(s.executions))
  }

  /** The table of runners after a step of runner r. */
  lemma OtherRunners(s: State, step: Step, q: nat)
    requires Enabled(s, step) && q in Next(s, step).runners
    requires Next(s, step).runners[q].Rereading? || Next(s, step).runners[q].Submitting?
    ensures q in s.runners
    ensures (s.runners[q].Rereading? || s.runners[q].Submitting?) || (step == LookAtCurrent(q, false) && LastEnded(s.executions))
    ensures step.SubmitInput? ==> q != step.r
  {
    hide InputQueue.Enqueue, Acquire, Bind, Complete, CancelQueued, Finish, AfterAcquire;
    match step
    case AcquireNext(r, _) => AcquireMoves(s, r);
    case AwaitExecution(r, _, outcome, error, fails) => FinishMoves(s, r, s.runners[r].input.id, outcome, error, fails);
    case FailInput(r, error, fails) => FinishMoves(s, r, s.runners[r].input.id, Failed, error, fails);
    case _ =>
  }

  lemma FinishMoves(s: State, r: nat, id: string, outcome: InputState, error: string, fails: bool)
    ensures Finish(s, r, id, outcome, error, fails).runners == s.runners[r := Loading]
  {}

  lemma AcquireMoves(s: State, r: nat)
    ensures var t := AfterAcquire(s, r);
            t.runners == s.runners - {r} || (r in t.runners && t.runners == s.runners[r := t.runners[r]]
                                             && !t.runners[r].Rereading? && !t.runners[r].Submitting?)
  {
    hide Acquire;
  }

  lemma StepSolo(s: State, step: Step)
    requires Orderly(s) && Solo(s) && Enabled(s, step)
    ensures Solo(Next(s, step))
  {
    hide InputQueue.Enqueue, Acquire, Bind, Complete, CancelQueued, Queueing;
    var t := Next(s, step);
    forall q | q in t.runners && (t.runners[q].Rereading? || t.runners[q].Submitting?) ensures LastEnded(t.executions) {
      OtherRunners(s, step, q);
    }
  }

  lemma {:induction false} RunSolo(s: State, steps: seq<Step>)
    requires Orderly(s) && Solo(s) && EnabledRun(s, steps)
    ensures Solo(Run(s, steps))
    decreases |steps|
  {
    hide Orderly, Solo, Next, Enabled;
    if steps != [] {
      StepOrderly(s, steps[0]);
      StepSolo(s, steps[0]);
      RunSolo(Next(s, steps[0]), steps[1..]);
    }
  }

  /** Over every run, with crashes, pauses, failing calls and any clock: all executions but the last
      have ended, so a session never runs two at once. */
  lemma NeverTwoExecutions(steps: seq<Step>)
    requires EnabledRun(INITIAL, steps)
    ensures var es := Run(INITIAL, steps).executions; forall k :: 0 <= k < |es| - 1 ==> es[k].terminal
  {
    InitialAwake();
    RunSolo(INITIAL, steps);
  }

  /** A runner comes to submit only by reading the session again and finding it not paused. */
  lemma SubmitsOnlyUnpaused(s: State, step: Step, r: nat)
    requires Enabled(s, step) && r in Next(s, step).runners && Next(s, step).runners[r].Submitting?
    requires r in s.runners ==> !s.runners[r].Submitting?
    ensures step == RereadSession(r, false) && !s.paused
  {
    hide InputQueue.Enqueue, Acquire, Bind, Complete, CancelQueued, Finish, AfterAcquire;
    match step
    case AcquireNext(q, _) => AcquireMoves(s, q);
    case AwaitExecution(q, _, outcome, error, fails) => FinishMoves(s, q, s.runners[q].input.id, outcome, error, fails);
    case FailInput(q, error, fails) => FinishMoves(s, q, s.runners[q].input.id, Failed, error, fails);
    case _ =>
  }

  /** A runner that finds the session paused leaves without touching the queue. */
  lemma PausedRunnersLeave(s: State, r: nat)
    requires r in s.runners && s.paused && (s.runners[r].Loading? || s.runners[r].Rereading?)
    ensures var t := Next(s, if s.runners[r].Loading? then LoadSession(r, false) else RereadSession(r, false));
            t == Goto(s, r, Leaving)
  {}

  // ---- an input gets submitted ---------------------------------------------------

  /** While another input's execution runs the runner keeps waiting. */
  lemma WaitsWhileRunning(s: State, r: nat)
    requires Inv(s) && r in s.runners && s.runners[r].AtBoundary? && s.executions != []
    requires NoExecution(s.executions, s.runners[r].input.sequence) && !s.executions[|s.executions| - 1].terminal
    ensures Next(s, LookAtCurrent(r, false)) == s
  {
    OthersAreOlder(s, r);
    assert s.runners[r := s.runners[r]] == s.runners;
  }

  lemma OthersAreOlder(s: State, r: nat)
    requires Inv(s) && r in s.runners && s.runners[r].AtBoundary? && s.executions != []
    requires NoExecution(s.executions, s.runners[r].input.sequence)
    ensures s.executions[|s.executions| - 1].createdAt < s.runners[r].input.updatedAt
  {
    assert RunnerOk(s, s.runners[r]);
    var k := HeldAt(s, s.runners[r].input);
    assert InputOk(s.executions, s.stream.inputs[k], s.clock);
  }

  /** Once every execution has ended, three calls bring an input that has none to an accepted one. */
  lemma GetsSubmitted(s: State, r: nat, id: string)
    requires Inv(s) && r in s.runners && s.runners[r].AtBoundary? && !s.paused && AllEnded(s.executions)
    requires NoExecution(s.executions, s.runners[r].input.sequence)
    requires id != "" && forall k :: 0 <= k < |s.executions| ==> s.executions[k].id != id
    ensures var steps := [LookAtCurrent(r, false)] + ([RereadSession(r, false)] + ([SubmitInput(r, Accepted, id)] + []));
            var x := s.runners[r].input;
            && EnabledRun(s, steps)
            && Run(s, steps) == Goto(s.(executions := s.executions + [Execution(id, s.clock, false, x.sequence)]), r, Binding(x, id))
  {
    var x := s.runners[r].input;
    if s.executions != [] { OthersAreOlder(s, r); }
    hide Inv, EnabledRun, Run;
    var s1, s2 := Goto(s, r, Rereading(x)), Goto(s, r, Submitting(x));
    var t := Goto(s.(executions := s.executions + [Execution(id, s.clock, false, x.sequence)]), r, Binding(x, id));
    assert Next(s, LookAtCurrent(r, false)) == s1 && Next(s1, RereadSession(r, false)) == s2;
    SubmitGoes(s, r, x, id);
    hide Next;
    RunFirst(s2, SubmitInput(r, Accepted, id), []);
    RunFirst(s1, RereadSession(r, false), [SubmitInput(r, Accepted, id)] + []);
    RunFirst(s, LookAtCurrent(r, false), [RereadSession(r, false)] + ([SubmitInput(r, Accepted, id)] + []));
    RunNone(t);
  }

  lemma SubmitGoes(s: State, r: nat, x: Input, id: string)
    requires id != "" && forall k :: 0 <= k < |s.executions| ==> s.executions[k].id != id
    ensures var s2 := Goto(s, r, Submitting(x));
            && Enabled(s2, SubmitInput(r, Accepted, id))
            && Next(s2, SubmitInput(r, Accepted, id))
               == Goto(s.(executions := s.executions + [Execution(id, s.clock, false, x.sequence)]), r, Binding(x, id))
  {}

  lemma RunNone(t: State)
    ensures EnabledRun(t, []) && Run(t, []) == t
  {}

  // ---- and its end is recorded -----------------------------------------------------

  /** The stored input with this ID, after its runner has completed it. */
  ghost predicate Recorded(t: State, x: Input, outcome: InputState, error: string) {
    exists k :: 0 <= k < |t.stream.inputs| && t.stream.inputs[k] == x.(state := outcome, lastError := TrimSpace(error),
                                                                    revision := x.revision + 1, updatedAt := t.clock)
  }

  lemma FinishRecords(s: State, r: nat, x: Input, outcome: InputState, error: string)
    requires Inv(s) && Holds(s, x) && outcome.Terminal()
    ensures Recorded(Finish(s, r, x.id, outcome, error, false), x, outcome, error)
    ensures forall i :: 0 <= i < |s.stream.inputs| && s.stream.inputs[i].id != x.id ==>
              i < |Finish(s, r, x.id, outcome, error, false).stream.inputs|
              && Finish(s, r, x.id, outcome, error, false).stream.inputs[i] == s.stream.inputs[i]
  {
    hide TrimSpace;
    var k := HeldAt(s, x);
    assert Finish(s, r, x.id, outcome, error, false).stream.inputs[k] == Finished(x, outcome, TrimSpace(error), s.clock);
  }

  /** How an execution ended is what its input says; a submission that failed leaves a failed input. */
  lemma EndIsRecorded(s: State, step: Step)
    requires Inv(s) && Enabled(s, step) && (step.AwaitExecution? || step.FailInput?) && !step.fails
    ensures Recorded(Next(s, step), s.runners[step.r].input, if step.AwaitExecution? then step.outcome else Failed, step.error)
  {
    assert RunnerOk(s, s.runners[step.r]);
    hide Inv, Finish, Recorded, TrimSpace;
    FinishRecords(s, step.r, s.runners[step.r].input, if step.AwaitExecution? then step.outcome else Failed, step.error);
  }

  /** Resuming a session leaves a caller about to schedule it. */
  lemma ResumeWakes(s: State)
    ensures var t := Next(s, SetPaused(false)); !t.paused && t.pending > 0 && t.stream == s.stream
  {}
}
